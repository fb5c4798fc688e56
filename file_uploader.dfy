/**
 * The file uploader (`file-uploader.tsx`): a drop zone and a file input that
 * start a simulated upload, whose progress an interval raises by 5 every
 * 100 ms until it reaches 100.
 */
module FileUploader {
  import opened Wrappers

  /** The `setProgress` updater run by each interval tick. */
  function NextProgress(prev: nat): nat {
    if prev >= 100 then 100 else prev + 5
  }

  /** The progress after `n` ticks of an upload that started at 0. */
  function ProgressAfter(n: nat): nat {
    if n == 0 then 0 else NextProgress(ProgressAfter(n - 1))
  }

  /** A tick keeps the progress a multiple of 5 within [0, 100] and never
      lowers it. */
  lemma NextProgressInRange(p: nat)
    requires p % 5 == 0 && p <= 100
    ensures NextProgress(p) % 5 == 0 && p <= NextProgress(p) <= 100
  {
  }

  /** Progress climbs by 5 per tick and then holds at 100. */
  lemma {:induction false} ProgressAfterValue(n: nat)
    ensures ProgressAfter(n) == if 5 * n <= 100 then 5 * n else 100
  {
    if n > 0 {
      ProgressAfterValue(n - 1);
    }
  }

  /** Progress never decreases from one tick to the next. */
  lemma ProgressMonotone(m: nat, n: nat)
    requires m <= n
    ensures ProgressAfter(m) <= ProgressAfter(n)
  {
    ProgressAfterValue(m);
    ProgressAfterValue(n);
  }

  /** Tick `k` (counting from 1) finds the progress at 100, and so clears the
      interval, exactly when `k` is at least 21: the 20th tick reaches 100 and
      the 21st stops. */
  lemma ClearedOnTick21(k: nat)
    requires k >= 1
    ensures ProgressAfter(k - 1) >= 100 <==> k >= 21
    ensures ProgressAfter(20) == 100 && ProgressAfter(19) == 95
  {
    ProgressAfterValue(k - 1);
    ProgressAfterValue(20);
    ProgressAfterValue(19);
  }

  class Uploader {
    var fileType: string
    var isDragging: bool
    var isUploading: bool
    var progress: nat
    /** The interval set by `simulateUpload` has not been cleared. */
    var intervalActive: bool
    /** The 500 ms timeout that hides the progress bar has not fired yet. */
    var hideTimeoutPending: bool
    /** Ticks of the current interval so far. */
    ghost var ticks: nat

    /** While the interval runs, the progress is what that many ticks give and
        the interval has not yet seen 100 on a tick; once it is cleared, only
        the hiding timeout is left and the progress is 100. The upload view
        shows exactly while one of them is pending. */
    ghost predicate Valid()
      reads this
    {
      (isUploading <==> intervalActive || hideTimeoutPending) &&
      !(intervalActive && hideTimeoutPending) &&
      (intervalActive ==> ticks <= 20 && progress == ProgressAfter(ticks)) &&
      (hideTimeoutPending ==> progress == 100) &&
      progress % 5 == 0 && progress <= 100
    }

    constructor ()
      ensures Valid() && fileType == "document" && !isDragging && !isUploading && progress == 0
    {
      fileType, isDragging, isUploading, progress := "document", false, false, 0;
      intervalActive, hideTimeoutPending := false, false;
      ticks := 0;
    }

    /** `handleDragOver`. */
    method DragOver()
      requires Valid()
      modifies this
      ensures Valid() && isDragging
      ensures isUploading == old(isUploading) && progress == old(progress) && fileType == old(fileType)
      ensures intervalActive == old(intervalActive) && hideTimeoutPending == old(hideTimeoutPending)
    {
      isDragging := true;
    }

    /** `handleDragLeave`. */
    method DragLeave()
      requires Valid()
      modifies this
      ensures Valid() && !isDragging
      ensures isUploading == old(isUploading) && progress == old(progress) && fileType == old(fileType)
      ensures intervalActive == old(intervalActive) && hideTimeoutPending == old(hideTimeoutPending)
    {
      isDragging := false;
    }

    /** `simulateUpload`: the upload view shows at 0 and the interval starts. */
    method SimulateUpload()
      requires Valid() && !isUploading
      modifies this
      ensures Valid() && isUploading && progress == 0 && intervalActive && !hideTimeoutPending && ticks == 0
      ensures isDragging == old(isDragging) && fileType == old(fileType)
    {
      isUploading, progress := true, 0;
      intervalActive := true;
      ticks := 0;
    }

    /** `handleDrop`, on the drop zone, which shows only while not uploading:
        dragging ends, and an upload starts when at least one file came in. */
    method HandleDrop(fileCount: nat)
      requires Valid() && !isUploading
      modifies this
      ensures Valid() && !isDragging && fileType == old(fileType)
      ensures fileCount > 0 ==> isUploading && progress == 0 && intervalActive
      ensures fileCount == 0 ==> !isUploading && progress == old(progress) && !intervalActive
    {
      isDragging := false;
      if fileCount > 0 {
        SimulateUpload();
      }
    }

    /** `handleFileSelect`: an upload starts when a file list with at least
        one file came in (`None` is a missing `files` list). */
    method HandleFileSelect(fileCount: Option<nat>)
      requires Valid() && !isUploading
      modifies this
      ensures Valid() && isDragging == old(isDragging) && fileType == old(fileType)
      ensures (fileCount.Some? && fileCount.value > 0) ==> isUploading && progress == 0 && intervalActive
      ensures !(fileCount.Some? && fileCount.value > 0) ==> !isUploading && progress == old(progress) && !intervalActive
    {
      if fileCount.Some? && fileCount.value > 0 {
        SimulateUpload();
      }
    }

    /** One interval tick: below 100 the progress rises by 5; at 100 it stays,
        the interval is cleared and the hiding timeout is scheduled. */
    method Tick() returns (cleared: bool)
      requires Valid() && intervalActive
      modifies this
      ensures Valid() && isUploading && progress == NextProgress(old(progress))
      ensures cleared <==> old(progress) >= 100
      ensures cleared ==> !intervalActive && hideTimeoutPending
      ensures !cleared ==> intervalActive && ticks == old(ticks) + 1
      ensures isDragging == old(isDragging) && fileType == old(fileType)
    {
      if progress >= 100 {
        intervalActive := false;
        hideTimeoutPending := true;
        progress := 100;
        return true;
      }
      progress := progress + 5;
      ticks := ticks + 1;
      ProgressAfterValue(ticks);
      ProgressAfterValue(ticks - 1);
      cleared := false;
    }

    /** The 500 ms timeout: the upload view is hidden; the progress stays. */
    method HideTimeout()
      requires Valid() && hideTimeoutPending
      modifies this
      ensures Valid() && !isUploading && !hideTimeoutPending && !intervalActive
      ensures progress == old(progress) && isDragging == old(isDragging) && fileType == old(fileType)
    {
      isUploading := false;
      hideTimeoutPending := false;
    }
  }
}
