/**
 * StatusStripManager: the status bar's message, selection and mode labels
 * and its progress bar.
 *
 * Only the labels' Text and the progress bar's Value and Visible are
 * modelled; the strip's colours, sizes and renderer are not.
 */
module StatusStrip {

  /** The progress bar's Value and Visible. */
  datatype ProgressBar = ProgressBar(value: int, visible: bool)

  /** The percentages SetProgress accepts, the bar's Minimum to Maximum. */
  predicate InRange(percentage: int) {
    0 <= percentage <= 100
  }

  /** The bar as CreateStatusItems leaves it: hidden, at its default value. */
  const InitialBar: ProgressBar := ProgressBar(0, false)

  /** SetProgress on values: an in-range percentage becomes the value and
      shows the bar exactly while the work is under way (neither 0 nor
      100); anything else hides the bar and keeps its value. */
  function Progress(bar: ProgressBar, percentage: int): (r: ProgressBar)
    ensures InRange(percentage) ==> r.value == percentage
    ensures InRange(percentage) ==> (r.visible <==> 0 < percentage < 100)
    ensures !InRange(percentage) ==> r.value == bar.value && !r.visible
  {
    if InRange(percentage) then ProgressBar(percentage, percentage > 0 && percentage < 100)
    else bar.(visible := false)
  }

  /** What the bar may show: a value between Minimum and Maximum, and
      visibility only for a value strictly between them. */
  predicate Sound(bar: ProgressBar) {
    InRange(bar.value) && (bar.visible ==> 0 < bar.value < 100)
  }

  /** The bar starts sound and SetProgress keeps it sound, whatever
      percentage it is given. */
  lemma ProgressKeepsSound(bar: ProgressBar, percentage: int)
    requires Sound(bar)
    ensures Sound(InitialBar)
    ensures Sound(Progress(bar, percentage))
  {
  }

  /** A rejected percentage is never shown: the value stays whatever the
      last accepted percentage made it. */
  lemma OutOfRangeKeepsValue(bar: ProgressBar, percentage: int, next: int)
    requires !InRange(next)
    ensures Progress(Progress(bar, percentage), next).value == Progress(bar, percentage).value
    ensures !Progress(Progress(bar, percentage), next).visible
  {
  }

  /** Reporting the same percentage twice changes nothing the second time. */
  lemma ProgressIdempotent(bar: ProgressBar, percentage: int)
    ensures Progress(Progress(bar, percentage), percentage) == Progress(bar, percentage)
  {
  }

  /** The bar is shown exactly when the last percentage reported was
      strictly between 0 and 100. */
  lemma VisibleIffUnderWay(bar: ProgressBar, percentage: int)
    ensures Progress(bar, percentage).visible <==> 0 < percentage < 100
  {
  }

  class StatusStripManager {
    var statusText: string
    var bar: ProgressBar
    var coordinatesText: string
    var selectionText: string
    var modeText: string

    /** CreateStatusItems: the labels' initial texts and a hidden bar. */
    constructor ()
      ensures statusText == "Ready" && selectionText == "Nothing selected" && modeText == "Select"
      ensures coordinatesText == "X: 0, Y: 0, Z: 0"
      ensures bar == InitialBar && Sound(bar)
    {
      statusText := "Ready";
      bar := InitialBar;
      coordinatesText := "X: 0, Y: 0, Z: 0";
      selectionText := "Nothing selected";
      modeText := "Select";
    }

    method UpdateStatus(message: string)
      modifies this`statusText
      ensures statusText == message
    {
      statusText := message;
    }

    method SetProgress(percentage: int)
      modifies this`bar
      ensures bar == Progress(old(bar), percentage)
      ensures old(Sound(bar)) ==> Sound(bar)
    {
      if percentage >= 0 && percentage <= 100 {
        bar := bar.(value := percentage);
        bar := bar.(visible := percentage > 0 && percentage < 100);
      } else {
        bar := bar.(visible := false);
      }
    }

    method UpdateSelection(selectionInfo: string)
      modifies this`selectionText
      ensures selectionText == selectionInfo
    {
      selectionText := selectionInfo;
    }

    method UpdateMode(mode: string)
      modifies this`modeText
      ensures modeText == mode
    {
      modeText := mode;
    }
  }
}
