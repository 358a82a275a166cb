/** The logic of `components/TimelineView.tsx`: the reveal cursor that shows one more
    entry per interval tick, the visible slice, the header commentary, and the
    narration control that reads the timeline aloud through the narration service.
    Timer durations are not modelled: a tick is one firing of the interval. */
module TimelineView {
  import opened Outcomes
  import opened Strings
  import opened Types
  import opened SpeechService

  // ---------------------------------------------------------------------------
  // Reveal cursor
  // ---------------------------------------------------------------------------

  /** The cursor `visibleCount`, the list length the running interval compares it with,
      whether an interval is scheduled, and how many times `onSimulationComplete` has
      been called. */
  datatype Reveal = Reveal(visibleCount: nat, length: nat, running: bool, completions: nat)

  /** The cursor never passes the end of the list. */
  predicate Valid(r: Reveal) {
    r.visibleCount <= r.length
  }

  /** The effect that runs when a simulation starts or finishes loading: the cursor goes
      back to 0, and an interval is scheduled only when nothing is loading and there is
      something to reveal. */
  function Restarted(r: Reveal, isLoading: bool, length: nat): (t: Reveal)
    ensures Valid(t) && t.visibleCount == 0 && t.length == length && t.completions == r.completions
    ensures t.running <==> !isLoading && length > 0
  {
    Reveal(0, length, !isLoading && length > 0, r.completions)
  }

  /** One firing of the interval: below the end the cursor moves by one; at the end the
      interval is cleared and completion is signalled, the cursor staying where it is.
      Without a scheduled interval nothing fires. */
  function Ticked(r: Reveal): (t: Reveal)
    ensures t.length == r.length
    ensures Valid(r) ==> Valid(t)
    ensures t.visibleCount == if r.running && r.visibleCount < r.length then r.visibleCount + 1 else r.visibleCount
    ensures t.completions == if r.running && r.visibleCount >= r.length then r.completions + 1 else r.completions
    ensures t.running <==> r.running && r.visibleCount < r.length
  {
    if !r.running then r
    else if r.visibleCount < r.length then r.(visibleCount := r.visibleCount + 1)
    else r.(running := false, completions := r.completions + 1)
  }

  /** `k` firings of the interval. */
  function TickN(r: Reveal, k: nat): Reveal
    decreases k
  {
    if k == 0 then r else TickN(Ticked(r), k - 1)
  }

  function Min(a: int, b: int): int {
    if a <= b then a else b
  }

  /** From a running, valid cursor, `k` ticks reveal `k` more entries up to the end;
      completion is signalled exactly once, on the first tick that finds the cursor at
      the end, and the interval is cleared then. */
  lemma {:induction false} TicksReveal(r: Reveal, k: nat)
    requires Valid(r) && r.running
    ensures TickN(r, k).visibleCount == Min(r.visibleCount + k, r.length)
    ensures TickN(r, k).completions == r.completions + (if r.visibleCount + k > r.length then 1 else 0)
    ensures TickN(r, k).running <==> r.visibleCount + k <= r.length
    ensures TickN(r, k).length == r.length
    decreases k
  {
    if k > 0 {
      var t := Ticked(r);
      if r.visibleCount < r.length {
        TicksReveal(t, k - 1);
      } else {
        TicksIdle(t, k - 1);
      }
    }
  }

  /** Once the interval is cleared, further ticks change nothing. */
  lemma {:induction false} TicksIdle(r: Reveal, k: nat)
    requires !r.running
    ensures TickN(r, k) == r
    decreases k
  {
    if k > 0 {
      TicksIdle(Ticked(r), k - 1);
    }
  }

  /** After the effect has run, `k` ticks show `min(k, length)` entries and signal
      completion once exactly when `k > length`; while loading or with an empty list no
      entry is shown and completion is never signalled. */
  lemma RevealAfterRestart(r: Reveal, isLoading: bool, length: nat, k: nat)
    ensures var t := TickN(Restarted(r, isLoading, length), k);
      && (isLoading || length == 0 ==> t.visibleCount == 0 && t.completions == r.completions)
      && (!isLoading && length > 0 ==>
            && t.visibleCount == Min(k, length)
            && t.completions == r.completions + (if k > length then 1 else 0))
  {
    var s := Restarted(r, isLoading, length);
    if s.running {
      TicksReveal(s, k);
    } else {
      TicksIdle(s, k);
    }
  }

  /** The reveal state of one mounted timeline view. */
  class RevealCursor {
    var visibleCount: nat
    var length: nat
    var running: bool
    var completions: nat

    function State(): Reveal
      reads this
    {
      Reveal(visibleCount, length, running, completions)
    }

    constructor ()
      ensures State() == Reveal(0, 0, false, 0)
    {
      visibleCount, length, running, completions := 0, 0, false, 0;
    }

    /** The effect keyed on the event, the loading flag and the list length (the
      cleanup of the previous run clears its interval). */
    method Restart(isLoading: bool, len: nat)
      modifies this
      ensures State() == Restarted(old(State()), isLoading, len)
    {
      visibleCount := 0;
      length := len;
      running := false;
      if isLoading || len == 0 {
        return;
      }
      running := true;
    }

    /** The interval callback: the functional update of `visibleCount`. */
    method Tick()
      modifies this
      ensures State() == Ticked(old(State()))
    {
      if !running {
        return;
      }
      if visibleCount < length {
        visibleCount := visibleCount + 1;
      } else {
        running := false;
        completions := completions + 1;
      }
    }

    /** The effect cleanup on unmount. */
    method Teardown()
      modifies this
      ensures State() == old(State()).(running := false)
    {
      running := false;
    }
  }

  /** `consequences.slice(0, visibleCount)`, which stops at the end of the list. */
  function Visible(cs: seq<Consequence>, visibleCount: nat): (r: seq<Consequence>)
    ensures |r| == Min(visibleCount, |cs|)
    ensures forall i :: 0 <= i < |r| ==> r[i] == cs[i]
  {
    if visibleCount <= |cs| then cs[..visibleCount] else cs
  }

  /** The Narrate control and the closing line are shown once every entry is visible,
      and only for a non-empty timeline. */
  predicate FullyRevealed(visibleCount: nat, cs: seq<Consequence>) {
    visibleCount == |cs| && |cs| > 0
  }

  /** During a reveal the control stays hidden until the last entry appears, and from
      then on it is shown. */
  lemma ControlAfterTicks(r: Reveal, cs: seq<Consequence>, k: nat)
    requires |cs| > 0
    ensures FullyRevealed(TickN(Restarted(r, false, |cs|), k).visibleCount, cs) <==> k >= |cs|
  {
    RevealAfterRestart(r, false, |cs|, k);
  }

  // ---------------------------------------------------------------------------
  // Header commentary
  // ---------------------------------------------------------------------------

  const ReflectsTitle: string := "The Observer Reflects..."
  const FinalWordTitle: string := "The Observer's Final Word"

  datatype Remark = Remark(title: string, text: string)

  /** A remark that JavaScript treats as present: set and non-empty. */
  predicate Truthy(o: Option<string>) {
    o.Some? && o.value != ""
  }

  /** The remark shown under a header: the mid-point remark under the medium-term
      header, the final remark (with its own title) under the far-future header, when
      those remarks are present; nothing under any other header. */
  function HeaderRemark(c: Consequence, commentary: Option<Commentary>): (r: Option<Remark>)
    requires c.kind == Header
    ensures r.Some? <==>
      (c.year == MediumTermTitle && commentary.Some? && Truthy(commentary.value.mid)) ||
      (c.year == FutureTitle && commentary.Some? && Truthy(commentary.value.final))
    ensures r.Some? && c.year == MediumTermTitle ==> r.value == Remark(ReflectsTitle, commentary.value.mid.value)
    ensures r.Some? && c.year == FutureTitle ==> r.value == Remark(FinalWordTitle, commentary.value.final.value)
  {
    assert MediumTermTitle[0] != FutureTitle[0];
    var mid := if c.year == MediumTermTitle && commentary.Some? && Truthy(commentary.value.mid)
               then Some(commentary.value.mid.value) else None;
    if c.year == FutureTitle && commentary.Some? && Truthy(commentary.value.final) then
      Some(Remark(FinalWordTitle, commentary.value.final.value))
    else if mid.Some? then Some(Remark(ReflectsTitle, mid.value))
    else None
  }

  // ---------------------------------------------------------------------------
  // Narration
  // ---------------------------------------------------------------------------

  /** The paragraph read for one entry: a summary's text, a header's title, an event's
      year and text. */
  function Paragraph(c: Consequence): string {
    match c.kind
    case Summary => c.event
    case Header => c.year
    case Event => c.year + ". " + c.event
  }

  function Paragraphs(cs: seq<Consequence>): (r: seq<string>)
    ensures |r| == |cs|
    ensures forall i :: 0 <= i < |cs| ==> r[i] == Paragraph(cs[i])
  {
    seq(|cs|, i requires 0 <= i < |cs| => Paragraph(cs[i]))
  }

  /** `fullTimelineText`: the paragraphs joined by blank lines. */
  function NarrationText(cs: seq<Consequence>): string {
    Join(Paragraphs(cs), "\n\n")
  }

  /** Entries whose paragraphs survive the narration service's split unchanged: none
      is blank or holds a blank line, and none but the last ends with a line feed. */
  predicate Narratable(cs: seq<Consequence>) {
    Separable(Paragraphs(cs)) && forall i :: 0 <= i < |cs| ==> !Blank(Paragraph(cs[i]))
  }

  /** The narration service splits the narration text back into exactly one chunk per
      entry, in order. */
  lemma NarrationChunks(cs: seq<Consequence>)
    requires Narratable(cs)
    ensures Chunks(NarrationText(cs)) == Paragraphs(cs)
    ensures |Chunks(NarrationText(cs))| == |cs|
  {
    var ps := Paragraphs(cs);
    if ps == [] {
      assert NarrationText(cs) == "";
      assert SplitParagraphs("") == [""];
      assert Trim("") == "";
    } else {
      SplitJoin(ps);
      NonBlankKeepsAll(ps);
    }
  }

  /** Narrating a timeline reads every entry's paragraph aloud, one utterance each and in
      order, whatever mix of ends and errors the synthesizer reports; the completion
      callback is invoked exactly once, after the last one. */
  lemma NarrationReadsEveryEntry(n: Narrator, cs: seq<Consequence>, done: Callback, events: seq<Outcome>)
    requires n.supported && Narratable(cs) && |events| >= |cs|
    ensures var r := Run(AfterSpeak(n, NarrationText(cs), Some(done)), events);
      && r.spoken == n.spoken + Utterances(Paragraphs(cs), n.voiceToUse)
      && r.fired == n.fired + [done]
      && r.speaking.None?
  {
    NarrationChunks(cs);
    SpeakRunsToCompletion(n, NarrationText(cs), Some(done), events);
  }

  /** Without a synthesizer, or with nothing to read, the narration is over before
      `speak` returns: the completion callback has been invoked and nothing is queued
      or being read. Otherwise the first paragraph is being read and no callback has
      been invoked. */
  lemma NarrationEndsAtOnce(n: Narrator, cs: seq<Consequence>, done: Callback)
    ensures var r := AfterSpeak(n, NarrationText(cs), Some(done));
      && (!n.supported || Chunks(NarrationText(cs)) == [] ==>
            r.fired == n.fired + [done] && (n.supported ==> r.queue == [] && r.speaking.None?))
      && (n.supported && Chunks(NarrationText(cs)) != [] ==> r.fired == n.fired && r.speaking.Some?)
  {
  }

  /** The Narrate/Stop control. `done` is the completion callback it hands to `speak`
      (`() => setIsNarrating(false)`); a callback invoked inside `speak` runs before
      `speak` returns. */
  class NarrationControl {
    var isNarrating: bool
    const done: Callback

    constructor (done: Callback)
      ensures !isNarrating && this.done == done
    {
      isNarrating := false;
      this.done := done;
    }

    /** The completion callback, invoked when the narration service reports the end. */
    method NarrationFinished()
      modifies this
      ensures !isNarrating
    {
      isNarrating := false;
    }

    /** The cleanup on unmount: any narration in progress is cancelled. */
    method Unmount(svc: NarrationService)
      modifies svc
      ensures svc.State() == AfterCancel(old(svc.State()))
    {
      svc.Cancel();
    }

    /** `handleToggleNarration` as written: the flag is set after `speak`, so when `speak`
        finishes at once (no synthesizer, or nothing to read) the callback's reset is
        overwritten and the control shows Stop with nothing being read. */
    method ToggleAsWritten(svc: NarrationService, cs: seq<Consequence>)
      modifies this, svc
      ensures old(isNarrating) ==> !isNarrating && svc.State() == AfterCancel(old(svc.State()))
      ensures !old(isNarrating) ==> isNarrating && svc.State() == AfterSpeak(old(svc.State()), NarrationText(cs), Some(done))
    {
      if isNarrating {
        svc.Cancel();
        isNarrating := false;
      } else {
        ghost var n := svc.State();
        var before := svc.fired;
        svc.Speak(NarrationText(cs), Some(done));
        NarrationEndsAtOnce(n, cs, done);
        if svc.fired != before {
          NarrationFinished();
        }
        isNarrating := true;
      }
    }

    /** `handleToggleNarration` with the flag set before `speak`: stopping cancels the
        narration and clears the flag; starting hands the timeline to the narration
        service, and the flag stays set exactly when something is being read. */
    method Toggle(svc: NarrationService, cs: seq<Consequence>)
      modifies this, svc
      ensures old(isNarrating) ==> !isNarrating && svc.State() == AfterCancel(old(svc.State()))
      ensures !old(isNarrating) ==> svc.State() == AfterSpeak(old(svc.State()), NarrationText(cs), Some(done))
      ensures !old(isNarrating) ==> (isNarrating <==> svc.supported && Chunks(NarrationText(cs)) != [])
    {
      if isNarrating {
        svc.Cancel();
        isNarrating := false;
      } else {
        ghost var n := svc.State();
        var before := svc.fired;
        isNarrating := true;
        svc.Speak(NarrationText(cs), Some(done));
        NarrationEndsAtOnce(n, cs, done);
        if svc.fired != before {
          NarrationFinished();
        }
      }
    }
  }
}
