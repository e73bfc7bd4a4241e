/**
 * The video list view: status tabs, client-side pagination, the status badge and the download link,
 * together with the component state (`data`, `currentPage`, `pageSize`, `statusFilter`, `isRefreshing`)
 * that the handlers update.
 */
module VideoTable {
  import opened Wrappers
  import opened Seqs

  datatype VideoStatus = Pending | Processing | Done | Error

  /** One row of the table. `downloadUrl` is absent for `undefined` and `null`. */
  datatype Video = Video(id: string, filename: string, status: VideoStatus, submittedAt: string,
                         downloadUrl: Option<string>)

  // ---------------------------------------------------------------- status filter

  /** Whether the tab `filter` keeps `v`; "all" and any value that is not a tab keep everything. */
  predicate MatchesFilter(filter: string, v: Video) {
    if filter == "all" then true
    else if filter == "processing" then v.status == Processing || v.status == Pending
    else if filter == "done" then v.status == Done
    else if filter == "error" then v.status == Error
    else true
  }

  /** `filteredData`: the rows the selected tab keeps, in table order, each as often as in `data`. */
  function FilterVideos(data: seq<Video>, filter: string): (r: seq<Video>)
    ensures forall v :: multiset(r)[v] == if MatchesFilter(filter, v) then multiset(data)[v] else 0
  {
    Filter(data, v => MatchesFilter(filter, v))
  }

  /** The "all" tab, and any value that is not one of the four tabs, keeps the whole list. */
  lemma {:induction false} UnfilteredTab(data: seq<Video>, filter: string)
    requires filter !in {"processing", "done", "error"}
    ensures FilterVideos(data, filter) == data
  {
    FilterKeepsAll(data, v => MatchesFilter(filter, v));
  }

  /** Two rows the tab keeps are listed in the order they had in `data`. */
  lemma FilterVideosKeepsOrder(data: seq<Video>, filter: string, i: nat, j: nat)
    requires i < j < |data| && MatchesFilter(filter, data[i]) && MatchesFilter(filter, data[j])
    ensures exists m, n :: 0 <= m < n < |FilterVideos(data, filter)|
                           && FilterVideos(data, filter)[m] == data[i] && FilterVideos(data, filter)[n] == data[j]
  {
    var keep := v => MatchesFilter(filter, v);
    assert FilterVideos(data, filter) == Filter(data, keep);
    FilterKeepsOrder(data, keep, i, j);
  }

  /**
   * Filtering a list made of two parts filters each part and keeps the first part's rows first; with
   * `FilterVideosCons` this pins the filtered list down element by element, order included.
   */
  lemma FilterVideosAppend(a: seq<Video>, b: seq<Video>, filter: string)
    ensures FilterVideos(a + b, filter) == FilterVideos(a, filter) + FilterVideos(b, filter)
  {
    var keep := v => MatchesFilter(filter, v);
    assert FilterVideos(a + b, filter) == Filter(a + b, keep);
    assert FilterVideos(a, filter) == Filter(a, keep);
    assert FilterVideos(b, filter) == Filter(b, keep);
    FilterAppend(a, b, keep);
  }

  lemma FilterVideosCons(data: seq<Video>, filter: string)
    requires data != []
    ensures FilterVideos(data, filter)
            == (if MatchesFilter(filter, data[0]) then [data[0]] else []) + FilterVideos(data[1..], filter)
  {
    var keep := v => MatchesFilter(filter, v);
    assert FilterVideos(data, filter) == Filter(data, keep);
    assert FilterVideos(data[1..], filter) == Filter(data[1..], keep);
  }

  /** The "processing", "done" and "error" tabs split the list: every row is in exactly one of them. */
  lemma {:induction false} StatusTabsPartition(data: seq<Video>)
    ensures |FilterVideos(data, "processing")| + |FilterVideos(data, "done")| + |FilterVideos(data, "error")| == |data|
  {
    if data != [] {
      StatusTabsPartition(data[1..]);
      TabCountCons(data, "processing");
      TabCountCons(data, "done");
      TabCountCons(data, "error");
      OneStatusTab(data[0]);
    }
  }

  lemma OneStatusTab(v: Video)
    ensures (if MatchesFilter("processing", v) then 1 else 0) + (if MatchesFilter("done", v) then 1 else 0)
            + (if MatchesFilter("error", v) then 1 else 0) == 1
  {
  }

  lemma TabCountCons(data: seq<Video>, filter: string)
    requires data != []
    ensures |FilterVideos(data, filter)| == (if MatchesFilter(filter, data[0]) then 1 else 0) + |FilterVideos(data[1..], filter)|
  {
    FilterVideosCons(data, filter);
  }

  // ---------------------------------------------------------------- pagination

  /** The values offered by the "Linhas por página" select; 10 is the initial one. */
  const PageSizeOptions: set<nat> := {5, 10, 20, 50}
  const DefaultPageSize: nat := 10

  /** `Math.ceil(count / pageSize)`. */
  function TotalPages(count: nat, pageSize: nat): (r: nat)
    requires pageSize > 0
    ensures count <= r * pageSize
    ensures r > 0 ==> (r - 1) * pageSize < count
    ensures r == 0 <==> count == 0
  {
    var r := (count + pageSize - 1) / pageSize;
    assert r * pageSize <= count + pageSize - 1 < r * pageSize + pageSize;
    r
  }

  /** `paginatedData`: the window `[(page - 1) * pageSize, page * pageSize)` of the filtered list. */
  function PageOf<T>(filtered: seq<T>, page: nat, pageSize: nat): (r: seq<T>)
    requires page >= 1 && pageSize >= 1
    ensures |r| <= pageSize
    ensures |r| == if (page - 1) * pageSize < |filtered| then Min(pageSize, |filtered| - (page - 1) * pageSize) else 0
    ensures forall k :: 0 <= k < |r| ==> (page - 1) * pageSize + k < |filtered|
                                         && r[k] == filtered[(page - 1) * pageSize + k]
  {
    var start := (page - 1) * pageSize;
    Slice(filtered, start, start + pageSize)
  }

  lemma MulMonotone(a: nat, b: nat, c: nat)
    requires a <= b
    ensures a * c <= b * c
  {
  }

  /** A page is non-empty exactly when it is one of pages 1..totalPages, and all of them but the last are full. */
  lemma PageInRange<T>(filtered: seq<T>, page: nat, pageSize: nat)
    requires page >= 1 && pageSize >= 1
    ensures PageOf(filtered, page, pageSize) != [] <==> page <= TotalPages(|filtered|, pageSize)
    ensures page < TotalPages(|filtered|, pageSize) ==> |PageOf(filtered, page, pageSize)| == pageSize
  {
    var total := TotalPages(|filtered|, pageSize);
    if page <= total {
      MulMonotone(page - 1, total - 1, pageSize);
    } else {
      MulMonotone(total, page - 1, pageSize);
    }
    if page < total {
      MulMonotone(page, total - 1, pageSize);
    }
  }

  lemma PageIsWindow<T>(filtered: seq<T>, page: nat, pageSize: nat)
    requires page >= 1 && pageSize >= 1
    ensures var start := (page - 1) * pageSize;
            PageOf(filtered, page, pageSize) == filtered[Min(start, |filtered|)..Min(start + pageSize, |filtered|)]
  {
  }

  /** Pages 1..k of the filtered list, one after the other. */
  function PagesThrough<T>(filtered: seq<T>, pageSize: nat, k: nat): seq<T>
    requires pageSize >= 1
  {
    if k == 0 then [] else PagesThrough(filtered, pageSize, k - 1) + PageOf(filtered, k, pageSize)
  }

  /** Pages 1..k together are the first `k * pageSize` rows (or all of them). */
  lemma {:induction false} PagesThroughIsPrefix<T>(filtered: seq<T>, pageSize: nat, k: nat)
    requires pageSize >= 1
    ensures PagesThrough(filtered, pageSize, k) == filtered[..Min(k * pageSize, |filtered|)]
  {
    if k > 0 {
      PagesThroughIsPrefix(filtered, pageSize, k - 1);
      var start := (k - 1) * pageSize;
      MulSucc(k - 1, pageSize);
      PageIsWindow(filtered, k, pageSize);
      PrefixSplit(filtered, Min(start, |filtered|), Min(start + pageSize, |filtered|));
    }
  }

  lemma MulSucc(a: nat, b: nat)
    ensures (a + 1) * b == a * b + b
  {
  }

  lemma PrefixSplit<T>(s: seq<T>, lo: nat, hi: nat)
    requires lo <= hi <= |s|
    ensures s[..hi] == s[..lo] + s[lo..hi]
  {
  }

  /** Concatenating pages 1..totalPages gives back the filtered list. */
  lemma PagesReassemble<T>(filtered: seq<T>, pageSize: nat)
    requires pageSize >= 1
    ensures PagesThrough(filtered, pageSize, TotalPages(|filtered|, pageSize)) == filtered
  {
    PagesThroughIsPrefix(filtered, pageSize, TotalPages(|filtered|, pageSize));
  }

  // ---------------------------------------------------------------- footer controls

  /** The "previous" button is disabled on page 1. */
  predicate PreviousDisabled(currentPage: nat) { currentPage == 1 }

  /** The "next" button is disabled on the last page and when there are no pages. */
  predicate NextDisabled(currentPage: nat, totalPages: nat) { currentPage == totalPages || totalPages == 0 }

  /** The page reached by `handlePageChange(page)`: `page` when it is one of 1..totalPages, otherwise the current one. */
  function PageAfterChange(currentPage: nat, page: int, totalPages: nat): (r: nat)
    ensures 1 <= r <= totalPages || r == currentPage
    ensures r != currentPage ==> r == page
    ensures 1 <= page <= totalPages ==> r == page
    ensures !(1 <= page <= totalPages) ==> r == currentPage
  {
    if 1 <= page <= totalPages then page else currentPage
  }

  /** "Página {currentPage} de {totalPages || 1}": the shown page count is never 0. */
  function PageCountLabel(totalPages: nat): (r: nat)
    ensures r >= 1 && (totalPages > 0 ==> r == totalPages)
    ensures totalPages == 0 ==> r == 1
  {
    if totalPages == 0 then 1 else totalPages
  }

  /** On a page within range, each footer button is enabled exactly when clicking it moves to the adjacent page. */
  lemma FooterButtonsMove(currentPage: nat, totalPages: nat)
    requires 1 <= currentPage <= totalPages
    ensures !NextDisabled(currentPage, totalPages) <==> PageAfterChange(currentPage, currentPage + 1, totalPages) == currentPage + 1
    ensures !PreviousDisabled(currentPage) <==> PageAfterChange(currentPage, currentPage - 1, totalPages) == currentPage - 1
  {
  }

  /** A page more than one past the last is stranded: both buttons are enabled and neither click moves. */
  lemma StrandedPage(currentPage: nat, totalPages: nat)
    requires totalPages >= 1 && currentPage >= totalPages + 2
    ensures !NextDisabled(currentPage, totalPages) && !PreviousDisabled(currentPage)
    ensures PageAfterChange(currentPage, currentPage + 1, totalPages) == currentPage
    ensures PageAfterChange(currentPage, currentPage - 1, totalPages) == currentPage
  {
  }

  // ---------------------------------------------------------------- status badge and download link

  datatype BadgeVariant = Outline | Destructive
  datatype Badge = Badge(variant: BadgeVariant, text: string)

  /** `getStatusBadge`: the waiting states share one badge; "Concluído" and "Erro" each belong to one status. */
  function StatusBadge(status: VideoStatus): (b: Badge)
    ensures b.text == "Processando" <==> status == Pending || status == Processing
    ensures b.text == "Concluído" <==> status == Done
    ensures b.text == "Erro" <==> status == Error
    ensures b.variant == Destructive <==> status == Error
  {
    match status
    case Done => Badge(Outline, "Concluído")
    case Processing => Badge(Outline, "Processando")
    case Pending => Badge(Outline, "Processando")
    case Error => Badge(Destructive, "Erro")
  }

  /** The target of the "Baixar ZIP" link, or `None` when the row shows "-". */
  function DownloadLink(v: Video): (r: Option<string>)
    ensures r.Some? <==> v.status == Done && v.downloadUrl.Some? && v.downloadUrl.value != ""
    ensures r.Some? ==> r == v.downloadUrl && StatusBadge(v.status).text == "Concluído"
  {
    if v.status == Done && v.downloadUrl.Some? && v.downloadUrl.value != "" then v.downloadUrl else None
  }

  // ---------------------------------------------------------------- component state

  class TableView {
    var initialData: seq<Video>
    var data: seq<Video>
    var isRefreshing: bool
    var currentPage: nat
    var pageSize: nat
    var statusFilter: string

    /** `currentPage` starts at 1 and is only ever set to 1 or to a page of 1..totalPages; `pageSize` is a select option. */
    ghost predicate Valid()
      reads this
    {
      currentPage >= 1 && pageSize in PageSizeOptions
    }

    function Filtered(): seq<Video>
      reads this
    {
      FilterVideos(data, statusFilter)
    }

    function PageCount(): nat
      reads this
      requires Valid()
    {
      TotalPages(|Filtered()|, pageSize)
    }

    function Paginated(): seq<Video>
      reads this
      requires Valid()
    {
      PageOf(Filtered(), currentPage, pageSize)
    }

    constructor(initial: seq<Video>)
      ensures Valid()
      ensures initialData == initial && data == initial && !isRefreshing
      ensures currentPage == 1 && pageSize == DefaultPageSize && statusFilter == "all"
    {
      initialData, data := initial, initial;
      isRefreshing := false;
      currentPage, pageSize, statusFilter := 1, DefaultPageSize, "all";
    }

    /** The effect on a new `data` prop: the table shows the new list; the page is kept. */
    method ReceiveData(initial: seq<Video>)
      requires Valid()
      modifies this`initialData, this`data
      ensures Valid() && initialData == initial && data == initial
    {
      initialData := initial;
      data := initial;
    }

    /** `handleRefresh` up to its await: the refresh button is disabled. */
    method BeginRefresh()
      requires Valid()
      modifies this`isRefreshing
      ensures Valid() && isRefreshing
    {
      isRefreshing := true;
    }

    /** `handleRefresh` after the delay: the list is reloaded from the prop and the button is enabled again. */
    method SettleRefresh()
      requires Valid()
      modifies this`data, this`isRefreshing
      ensures Valid() && data == initialData && !isRefreshing
    {
      data := initialData;
      isRefreshing := false;
    }

    method HandlePageChange(page: int)
      requires Valid()
      modifies this`currentPage
      ensures Valid()
      ensures currentPage == PageAfterChange(old(currentPage), page, PageCount())
      ensures 1 <= page <= PageCount() ==> Paginated() != []
    {
      if 1 <= page && page <= PageCount() {
        currentPage := page;
        PageInRange(Filtered(), currentPage, pageSize);
      }
    }

    /** The tab callback: a new filter always starts again at page 1. */
    method HandleStatusFilterChange(value: string)
      requires Valid()
      modifies this`statusFilter, this`currentPage
      ensures Valid() && statusFilter == value && currentPage == 1
    {
      statusFilter := value;
      currentPage := 1;
    }

    /** The page-size callback: a new size always starts again at page 1. */
    method HandlePageSizeChange(size: nat)
      requires Valid() && size in PageSizeOptions
      modifies this`pageSize, this`currentPage
      ensures Valid() && pageSize == size && currentPage == 1
    {
      pageSize := size;
      currentPage := 1;
    }
  }
}
