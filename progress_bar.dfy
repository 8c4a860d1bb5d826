// The progress bar: its render/exit flags driven by an effect and an
// 800 ms timer, and what it draws for a processing state.

module ProgressBar {
  import opened Wrappers
  import opened Types

  /** How long the exit animation runs before the bar is removed. */
  const ExitDelayMs := 800

  /** The bar's two state flags, and whether the exit timer is pending. */
  datatype Flags = Flags(shouldRender: bool, isExiting: bool, timerArmed: bool)

  /** An exit is under way exactly while its timer is pending, and only while the bar is rendered. */
  predicate Coherent(f: Flags) {
    (f.timerArmed <==> f.isExiting) && (f.isExiting ==> f.shouldRender)
  }

  /**
   * The effect, run when `isProcessing` or `shouldRender` changes: the
   * previous run's cleanup clears the pending timer; processing shows the
   * bar, and the end of processing on a shown bar starts the exit.
   */
  function Effected(f: Flags, isProcessing: bool): Flags {
    var cleaned := f.(timerArmed := false);
    if isProcessing then cleaned.(shouldRender := true, isExiting := false)
    else if f.shouldRender then cleaned.(isExiting := true, timerArmed := true)
    else cleaned
  }

  /** The 800 ms timer: when pending, it removes the bar and ends the exit. */
  function Fired(f: Flags): Flags {
    if f.timerArmed then Flags(false, false, false) else f
  }

  /** Both steps keep the flags coherent. */
  lemma StepsKeepCoherence(f: Flags, isProcessing: bool)
    requires Coherent(f)
    ensures Coherent(Effected(f, isProcessing)) && Coherent(Fired(f))
  {
  }

  /** While processing the bar is shown and not exiting, whatever came before. */
  lemma ProcessingShows(f: Flags)
    ensures Effected(f, true) == Flags(true, false, false)
  {
  }

  /**
   * When processing stops on a shown bar, the bar starts exiting; once the
   * timer fires both flags are false and nothing is drawn. A bar that was
   * not shown stays hidden.
   */
  lemma StopThenTimer(f: Flags)
    requires Coherent(f)
    ensures f.shouldRender ==> Effected(f, false) == Flags(true, true, true)
    ensures f.shouldRender ==> Fired(Effected(f, false)) == Flags(false, false, false)
    ensures !f.shouldRender ==> !Effected(f, false).shouldRender && !Effected(f, false).isExiting
  {
  }

  /** Resuming before the timer fires cancels the exit, so the timer no longer removes the bar. */
  lemma ResumeCancelsExit(f: Flags)
    ensures Fired(Effected(Effected(f, false), true)) == Flags(true, false, false)
  {
  }

  /** The component's flags, updated in place by its effect and its timer. */
  class ProgressBarModel {
    var shouldRender: bool
    var isExiting: bool
    var timerArmed: bool

    function State(): Flags
      reads this
    {
      Flags(shouldRender, isExiting, timerArmed)
    }

    /** Mounted hidden, with no timer. */
    constructor ()
      ensures State() == Flags(false, false, false) && Coherent(State())
    {
      shouldRender := false;
      isExiting := false;
      timerArmed := false;
    }

    method Effect(isProcessing: bool)
      modifies this
      ensures State() == Effected(old(State()), isProcessing)
    {
      var wasRendered := shouldRender;
      timerArmed := false;
      if isProcessing {
        shouldRender := true;
        isExiting := false;
      } else if wasRendered {
        isExiting := true;
        timerArmed := true;
      }
    }

    method TimerFires()
      modifies this
      ensures State() == Fired(old(State()))
    {
      if timerArmed {
        shouldRender := false;
        isExiting := false;
        timerArmed := false;
      }
    }
  }

  // ----- Drawing -----

  /** A segment dot: done, the one being synthesised, or still to come. */
  datatype Dot = Completed | Current | Pending

  function DotAt(idx: int, processed: nat): Dot {
    if idx < processed then Completed
    else if idx == processed then Current
    else Pending
  }

  /** `Math.round`: halves go up. */
  function Round(x: real): int {
    (x + 0.5).Floor
  }

  /** What the bar draws. */
  datatype BarView = BarView(caption: string, percent: int, spinner: bool, complete: bool, dots: seq<Dot>)

  /** The bar for a processing state, or nothing when it is not to be rendered. */
  function View(f: Flags, state: ProcessingState): (v: Option<BarView>)
    ensures v.None? <==> !f.shouldRender
    ensures v.Some? ==> (v.value.dots != [] <==> state.totalChunks > 1 && !f.isExiting)
    ensures v.Some? && v.value.dots != [] ==> |v.value.dots| == state.totalChunks
  {
    if !f.shouldRender then None
    else
      Some(BarView(
        if f.isExiting then "Generation Complete" else state.currentStep,
        Round(state.progress),
        !f.isExiting,
        f.isExiting,
        if state.totalChunks > 1 && !f.isExiting then seq(state.totalChunks, idx => DotAt(idx, state.processedChunks)) else []))
  }

  /**
   * The dots split at the processed count: those before it are done, the
   * one at it is current, and so at most one dot is current, and one is
   * exactly when some chunk is still unprocessed.
   */
  lemma DotsShape(total: nat, processed: nat)
    ensures var dots := seq(total, idx => DotAt(idx, processed));
            && (forall i :: 0 <= i < total ==> (dots[i] == Completed <==> i < processed))
            && (forall i, j :: 0 <= i < j < total ==> !(dots[i] == Current && dots[j] == Current))
            && ((exists i :: 0 <= i < total && dots[i] == Current) <==> processed < total)
  {
    var dots := seq(total, idx => DotAt(idx, processed));
    if processed < total {
      assert dots[processed] == Current;
    }
  }

  /** The shown percentage is the progress rounded to the nearest whole number, so it stays within 0..100. */
  lemma RoundBounds(state: ProcessingState)
    requires ProgressInRange(state)
    ensures 0 <= Round(state.progress) <= 100
    ensures -0.5 < Round(state.progress) as real - state.progress <= 0.5
  {
  }
}
