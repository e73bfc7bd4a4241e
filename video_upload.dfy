/**
 * The upload card: files picked or dropped become the selection, drops keep only videos, a preview lists
 * the first names, and "continue" hands the selection to the page.
 */
module VideoUpload {
  import opened Wrappers
  import opened Seqs
  import opened Decimal
  import opened Browser

  /** A dropped file is kept when its MIME type starts with "video/". */
  predicate IsVideo(f: File) {
    StartsWith(f.mimeType, "video/")
  }

  /** The files of a drop that are videos, in drop order, each as often as dropped. */
  function DroppedVideos(files: seq<File>): (r: seq<File>)
    ensures forall f :: multiset(r)[f] == if IsVideo(f) then multiset(files)[f] else 0
    ensures forall i :: 0 <= i < |r| ==> IsVideo(r[i])
  {
    Filter(files, IsVideo)
  }

  /** The kept files of a drop in two parts are those of the first part followed by those of the second. */
  lemma DroppedVideosAppend(a: seq<File>, b: seq<File>)
    ensures DroppedVideos(a + b) == DroppedVideos(a) + DroppedVideos(b)
  {
    FilterAppend(a, b, IsVideo);
  }

  /** A single dropped file is kept exactly when it is a video; with `DroppedVideosAppend` this fixes the drop order. */
  lemma DroppedVideosSingle(f: File)
    ensures DroppedVideos([f]) == if IsVideo(f) then [f] else []
  {
    assert [f][1..] == [];
  }

  /** Two kept files are listed in the order they were dropped. */
  lemma DroppedVideosKeepsOrder(files: seq<File>, i: nat, j: nat)
    requires i < j < |files| && IsVideo(files[i]) && IsVideo(files[j])
    ensures exists m, n :: 0 <= m < n < |DroppedVideos(files)|
                           && DroppedVideos(files)[m] == files[i] && DroppedVideos(files)[n] == files[j]
  {
    FilterKeepsOrder(files, IsVideo, i, j);
    assert DroppedVideos(files) == Filter(files, IsVideo);
  }

  /** A drop in which no file is a video yields nothing to select. */
  lemma NoVideoDropped(files: seq<File>)
    requires forall i :: 0 <= i < |files| ==> !IsVideo(files[i])
    ensures DroppedVideos(files) == []
  {
  }

  /** A drop of videos only is selected as dropped. */
  lemma OnlyVideosDropped(files: seq<File>)
    requires forall i :: 0 <= i < |files| ==> IsVideo(files[i])
    ensures DroppedVideos(files) == files
  {
    FilterKeepsAll(files, IsVideo);
  }

  /** The names shown under the drop zone: those of the first three selected files. */
  function PreviewNames(files: seq<File>): (r: seq<string>)
    ensures |r| == Min(3, |files|)
    ensures forall i :: 0 <= i < |r| ==> r[i] == files[i].name
  {
    var shown := Slice(files, 0, 3);
    seq(|shown|, i requires 0 <= i < |shown| => shown[i].name)
  }

  /** The "+N mais" tag: present exactly when more than three files are selected, N counting the unlisted ones. */
  function OverflowTag(files: seq<File>): (r: Option<string>)
    ensures r.Some? <==> |files| > 3
    ensures r.Some? ==> r.value == "+" + NatToString(|files| - |PreviewNames(files)|) + " mais"
  {
    if |files| > 3 then Some("+" + NatToString(|files| - 3) + " mais") else None
  }

  /** Between the listed names and the number in the tag, every selected file is accounted for once. */
  lemma PreviewAccountsForAll(files: seq<File>)
    ensures var hidden := if OverflowTag(files).Some? then DigitsValue(OverflowTag(files).value[1..|OverflowTag(files).value| - 5]) else 0;
            |PreviewNames(files)| + hidden == |files|
  {
    if |files| > 3 {
      var digits := NatToString(|files| - 3);
      var tag := OverflowTag(files).value;
      assert tag[1..|tag| - 5] == digits;
      DigitsValueOfNatToString(|files| - 3);
    }
  }

  /** What `handleContinue` did. */
  datatype ContinueResult =
    | Delivered(files: seq<File>)   // `onVideoSelect(selectedFiles)` was called
    | Prepared                      // no callback: the "Vídeos preparados" notice
    | NothingSelected               // the "selecione pelo menos um vídeo" error

  class UploadCard {
    var isUploading: bool
    var isDragging: bool
    var selectedFiles: seq<File>

    constructor()
      ensures !isUploading && !isDragging && selectedFiles == []
    {
      isUploading, isDragging, selectedFiles := false, false, [];
    }

    /** The continue button is enabled exactly when the card is idle and the preview lists at least one file. */
    function ContinueDisabled(): (disabled: bool)
      reads this
      ensures !disabled <==> !isUploading && |PreviewNames(selectedFiles)| > 0
    {
      isUploading || |selectedFiles| == 0
    }

    /** The file picker: `picked` is `None` when the input has no file list. An empty pick changes nothing. */
    method HandleFileChange(picked: Option<seq<File>>)
      modifies this`selectedFiles
      ensures selectedFiles == if picked.Some? && |picked.value| > 0 then picked.value else old(selectedFiles)
    {
      if picked.Some? && |picked.value| > 0 {
        selectedFiles := picked.value;
      }
    }

    method HandleDragOver()
      modifies this`isDragging
      ensures isDragging
    {
      isDragging := true;
    }

    method HandleDragLeave()
      modifies this`isDragging
      ensures !isDragging
    {
      isDragging := false;
    }

    /**
     * A drop ends the drag and selects the dropped videos. When files were dropped but none is a video,
     * the selection stays and `rejected` reports the error notice.
     */
    method HandleDrop(dropped: Option<seq<File>>) returns (rejected: bool)
      modifies this`isDragging, this`selectedFiles
      ensures !isDragging
      ensures rejected <==> dropped.Some? && |dropped.value| > 0 && DroppedVideos(dropped.value) == []
      ensures selectedFiles == if dropped.Some? && DroppedVideos(dropped.value) != [] then DroppedVideos(dropped.value)
                               else old(selectedFiles)
    {
      isDragging := false;
      rejected := false;
      if dropped.Some? && |dropped.value| > 0 {
        var files := DroppedVideos(dropped.value);
        if |files| > 0 {
          selectedFiles := files;
        } else {
          rejected := true;
        }
      }
    }

    /**
     * "Continuar para Configuração". With a selection, the card is busy during the delay, hands the
     * selection to `onVideoSelect` when there is one (`hasCallback`) and is idle again afterwards.
     */
    method HandleContinue(hasCallback: bool) returns (r: ContinueResult)
      modifies this`isUploading
      ensures r == (if selectedFiles == [] then NothingSelected else if hasCallback then Delivered(selectedFiles) else Prepared)
      ensures isUploading == (if selectedFiles == [] then old(isUploading) else false)
      ensures !old(ContinueDisabled()) ==> r == (if hasCallback then Delivered(selectedFiles) else Prepared)
      ensures r == NothingSelected ==> old(ContinueDisabled())
    {
      if |selectedFiles| > 0 {
        isUploading := true;
        if hasCallback {
          r := Delivered(selectedFiles);
        } else {
          r := Prepared;
        }
        isUploading := false;
      } else {
        r := NothingSelected;
      }
    }
  }
}
