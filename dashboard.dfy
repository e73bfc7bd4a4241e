/**
 * The dashboard: it shows the editor while a selection of files exists and the upload card with the
 * video table otherwise; a completed submission puts one "Processing" row per file at the top of the list.
 */
module Dashboard {
  import opened Wrappers
  import opened Decimal
  import opened Browser
  import opened VideoTable

  /** One reading of the clock: `Date.now()` in milliseconds and `new Date().toISOString()`. */
  datatype Stamp = Stamp(millis: nat, iso: string)

  /** `new-${Date.now()}-${i}`. */
  function NewVideoId(millis: nat, i: nat): string {
    "new-" + NatToString(millis) + "-" + NatToString(i)
  }

  /**
   * The rows built from the submitted files, in the order of the files. The map callback reads the clock
   * twice per file (`Date.now()` for the id and `new Date().toISOString()` for the timestamp), so `stamps[i]`
   * holds the two readings taken for `files[i]`, which need not agree with each other.
   */
  function NewVideoEntries(files: seq<File>, stamps: seq<Stamp>): (r: seq<Video>)
    requires |stamps| == |files|
    ensures |r| == |files|
    ensures forall i :: 0 <= i < |r| ==>
              r[i].filename == files[i].name && r[i].status == Processing
              && r[i].downloadUrl == None && r[i].submittedAt == stamps[i].iso
  {
    seq(|files|, i requires 0 <= i < |files| =>
      Video(NewVideoId(stamps[i].millis, i), files[i].name, Processing, stamps[i].iso, None))
  }

  /** The text after the last dash of `s` (all of `s` when it has none). */
  function AfterLastDash(s: string): string {
    if s == [] || s[|s| - 1] == '-' then [] else AfterLastDash(s[..|s| - 1]) + [s[|s| - 1]]
  }

  /** A run of digits after a dash is exactly what follows the last dash. */
  lemma {:induction false} AfterLastDashOfDigits(p: string, d: string)
    requires AllDigits(d)
    ensures AfterLastDash(p + "-" + d) == d
  {
    var s := p + "-" + d;
    if d == [] {
      assert s[|s| - 1] == '-';
    } else {
      var d' := d[..|d| - 1];
      assert s[..|s| - 1] == p + "-" + d';
      AfterLastDashOfDigits(p, d');
      assert d == d' + [d[|d| - 1]];
    }
  }

  /** Two rows built for different positions of one batch never share an id, whatever the clock read. */
  lemma NewVideoIdsDistinct(m1: nat, i: nat, m2: nat, j: nat)
    requires i != j
    ensures NewVideoId(m1, i) != NewVideoId(m2, j)
  {
    if NewVideoId(m1, i) == NewVideoId(m2, j) {
      AfterLastDashOfDigits("new-" + NatToString(m1), NatToString(i));
      AfterLastDashOfDigits("new-" + NatToString(m2), NatToString(j));
      NatToStringInjective(i, j);
    }
  }

  /** The ids of one batch of new rows are pairwise distinct. */
  lemma NewEntriesHaveDistinctIds(files: seq<File>, stamps: seq<Stamp>)
    requires |stamps| == |files|
    ensures forall i, j :: 0 <= i < j < |files| ==> NewVideoEntries(files, stamps)[i].id != NewVideoEntries(files, stamps)[j].id
  {
    forall i, j | 0 <= i < j < |files|
      ensures NewVideoEntries(files, stamps)[i].id != NewVideoEntries(files, stamps)[j].id
    {
      NewVideoIdsDistinct(stamps[i].millis, i, stamps[j].millis, j);
    }
  }

  class DashboardContent {
    var selectedVideos: seq<File>
    var videosState: seq<Video>

    /** The editor replaces the upload card and the table while the selection is non-empty. */
    predicate ShowsEditor()
      reads this
    {
      |selectedVideos| > 0
    }

    constructor(seed: seq<Video>)
      ensures selectedVideos == [] && videosState == seed && !ShowsEditor()
    {
      selectedVideos := [];
      videosState := seed;
    }

    method HandleVideoSelect(files: seq<File>)
      modifies this`selectedVideos
      ensures selectedVideos == files
      ensures ShowsEditor() <==> files != []
    {
      selectedVideos := files;
    }

    method HandleBack()
      modifies this`selectedVideos
      ensures selectedVideos == [] && !ShowsEditor()
    {
      selectedVideos := [];
    }

    /** The new rows come first, then the previous list unchanged; the selection is cleared. */
    method HandleProcessComplete(files: seq<File>, stamps: seq<Stamp>)
      requires |stamps| == |files|
      modifies this`videosState, this`selectedVideos
      ensures videosState == NewVideoEntries(files, stamps) + old(videosState)
      ensures |videosState| == |files| + |old(videosState)|
      ensures videosState[|files|..] == old(videosState)
      ensures selectedVideos == [] && !ShowsEditor()
    {
      var newVideos := NewVideoEntries(files, stamps);
      videosState := newVideos + videosState;
      selectedVideos := [];
    }
  }
}
