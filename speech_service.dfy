/** The narration queue of `services/speechService.ts`.

    The module-level variables of the source (`voices`, `voiceToUse`, `utteranceQueue`,
    `finalCallback`) are the fields of one `NarrationService` object. The platform
    synthesizer is abstracted as something that accepts an utterance and later reports
    that it ended or failed: `speaking` is the utterance it holds, `spoken` every
    utterance handed to it, in order. A completion callback is an opaque token, and
    `fired` records every invocation of one, in order.

    Each method of the class is specified by a function on the `Narrator` value of the
    object; the properties of narration are proved about those functions. */
module SpeechService {
  import opened Outcomes
  import opened Strings

  datatype Voice = Voice(name: string, lang: string)

  /** An utterance as handed to the synthesizer: its text and the voice set on it
      (`None` leaves the browser's default voice). Pitch and rate are not modelled. */
  datatype Utterance = Utterance(text: string, voice: Option<Voice>)

  /** Stands for a completion callback such as `() => setIsNarrating(false)`. */
  type Callback = nat

  const DesiredVoiceName: string := "Umbriel"
  const FallbackVoiceNames: seq<string> := ["Google UK English Male", "Daniel"]

  /** The number of voice rules, and the rank of a voice that matches none. */
  const NoRule: nat := 4

  // ---------------------------------------------------------------------------
  // Voice choice (`populateVoices`)
  // ---------------------------------------------------------------------------

  /** The four rules of the `find` chain, in priority order. */
  predicate MatchesRule(v: Voice, rule: nat) {
    if rule == 0 then Contains(v.name, DesiredVoiceName)
    else if rule == 1 then v.name in FallbackVoiceNames
    else if rule == 2 then v.lang == "en-GB" && Contains(v.name, "Male")
    else if rule == 3 then v.lang == "en-GB"
    else false
  }

  /** The index `voices.find(rule)` stops at: the first voice matching the rule, or
      `|voices|` when none does. */
  function FindIndex(voices: seq<Voice>, rule: nat): (i: nat)
    ensures i <= |voices|
    ensures i < |voices| ==> MatchesRule(voices[i], rule)
    ensures forall j :: 0 <= j < i ==> !MatchesRule(voices[j], rule)
  {
    if voices == [] then 0
    else if MatchesRule(voices[0], rule) then 0
    else 1 + FindIndex(voices[1..], rule)
  }

  /** `voices.find(rule)`. */
  function Find(voices: seq<Voice>, rule: nat): Option<Voice> {
    var i := FindIndex(voices, rule);
    if i < |voices| then Some(voices[i]) else None
  }

  /** The best (lowest) rule a voice satisfies, `NoRule` when it satisfies none. */
  function Rank(v: Voice): (k: nat)
    ensures k <= NoRule
    ensures k < NoRule ==> MatchesRule(v, k)
    ensures forall q :: 0 <= q < k ==> !MatchesRule(v, q)
  {
    if MatchesRule(v, 0) then 0
    else if MatchesRule(v, 1) then 1
    else if MatchesRule(v, 2) then 2
    else if MatchesRule(v, 3) then 3
    else NoRule
  }

  /** `voices[i]` satisfies a rule, no voice satisfies a better rule, and no earlier
      voice satisfies a rule as good. */
  ghost predicate PreferredAt(voices: seq<Voice>, i: int) {
    && 0 <= i < |voices|
    && Rank(voices[i]) < NoRule
    && (forall j :: 0 <= j < |voices| ==> Rank(voices[i]) <= Rank(voices[j]))
    && (forall j :: 0 <= j < i ==> Rank(voices[i]) < Rank(voices[j]))
  }

  /** The voice `populateVoices` stores: the first voice matching the highest-priority
      rule that any voice matches, or `None` (JavaScript `null`) when no voice matches
      any rule. */
  function ChooseVoice(voices: seq<Voice>): (r: Option<Voice>)
    ensures r.None? <==> forall j :: 0 <= j < |voices| ==> Rank(voices[j]) == NoRule
    ensures r.Some? ==> exists i :: PreferredAt(voices, i) && voices[i] == r.value
  {
    var i0 := FindIndex(voices, 0);
    var i1 := FindIndex(voices, 1);
    var i2 := FindIndex(voices, 2);
    var i3 := FindIndex(voices, 3);
    if i0 < |voices| then
      assert PreferredAt(voices, i0);
      Some(voices[i0])
    else if i1 < |voices| then
      assert PreferredAt(voices, i1);
      Some(voices[i1])
    else if i2 < |voices| then
      assert PreferredAt(voices, i2);
      Some(voices[i2])
    else if i3 < |voices| then
      assert PreferredAt(voices, i3);
      Some(voices[i3])
    else None
  }

  // ---------------------------------------------------------------------------
  // Chunking (`text.split('\n\n').filter(chunk => chunk.trim().length > 0)`)
  // ---------------------------------------------------------------------------

  /** The pieces whose trim is non-empty, in their original order. */
  function NonBlank(pieces: seq<string>): (r: seq<string>)
    ensures |r| <= |pieces|
  {
    if pieces == [] then []
    else if Trim(pieces[0]) != "" then [pieces[0]] + NonBlank(pieces[1..])
    else NonBlank(pieces[1..])
  }

  /** Every kept piece has a non-blank character. */
  lemma {:induction false} NonBlankKeepsOnlyNonBlank(pieces: seq<string>)
    ensures forall k :: 0 <= k < |NonBlank(pieces)| ==> !Blank(NonBlank(pieces)[k])
  {
    if pieces != [] {
      var rest := NonBlank(pieces[1..]);
      NonBlankKeepsOnlyNonBlank(pieces[1..]);
      if Trim(pieces[0]) != "" {
        var r := NonBlank(pieces);
        assert r == [pieces[0]] + rest;
        forall k | 0 <= k < |r| ensures !Blank(r[k]) {
          if k > 0 { assert r[k] == rest[k - 1]; }
        }
      }
    }
  }

  /** When no piece is blank, every piece is kept, in order. */
  lemma {:induction false} NonBlankKeepsAll(pieces: seq<string>)
    requires forall k :: 0 <= k < |pieces| ==> !Blank(pieces[k])
    ensures NonBlank(pieces) == pieces
  {
    if pieces != [] {
      assert !Blank(pieces[0]);
      assert Trim(pieces[0]) != "";
      assert forall k :: 0 <= k < |pieces[1..]| ==> pieces[1..][k] == pieces[k + 1];
      NonBlankKeepsAll(pieces[1..]);
      assert [pieces[0]] + pieces[1..] == pieces;
    }
  }

  /** When every piece is blank, none is kept. */
  lemma {:induction false} NonBlankDropsBlank(pieces: seq<string>)
    requires forall k :: 0 <= k < |pieces| ==> Blank(pieces[k])
    ensures NonBlank(pieces) == []
  {
    if pieces != [] {
      assert Blank(pieces[0]);
      assert forall k :: 0 <= k < |pieces[1..]| ==> pieces[1..][k] == pieces[k + 1];
      NonBlankDropsBlank(pieces[1..]);
    }
  }

  /** Filtering distributes over concatenation: each piece is kept or dropped on its own. */
  lemma {:induction false} NonBlankAppend(a: seq<string>, b: seq<string>)
    ensures NonBlank(a + b) == NonBlank(a) + NonBlank(b)
  {
    if a == [] {
      assert a + b == b;
    } else {
      assert (a + b)[0] == a[0];
      assert (a + b)[1..] == a[1..] + b;
      NonBlankAppend(a[1..], b);
      if Trim(a[0]) != "" {
        assert NonBlank(a + b) == [a[0]] + NonBlank(a[1..] + b);
        assert [a[0]] + (NonBlank(a[1..]) + NonBlank(b)) == ([a[0]] + NonBlank(a[1..])) + NonBlank(b);
      } else {
        assert NonBlank(a + b) == NonBlank(a[1..] + b);
      }
    }
  }

  /** The chunks `speak` queues for `text`. */
  function Chunks(text: string): seq<string> {
    NonBlank(SplitParagraphs(text))
  }

  /** The utterances made of `texts`, each with `voice` set. */
  function Utterances(texts: seq<string>, voice: Option<Voice>): (r: seq<Utterance>)
    ensures |r| == |texts|
  {
    if texts == [] then [] else [Utterance(texts[0], voice)] + Utterances(texts[1..], voice)
  }

  // ---------------------------------------------------------------------------
  // The narration state and its transitions
  // ---------------------------------------------------------------------------

  /** `supported` stands for `typeof window.speechSynthesis !== 'undefined'`. */
  datatype Narrator = Narrator(
    supported: bool,
    voices: seq<Voice>,
    voiceToUse: Option<Voice>,
    queue: seq<string>,
    finalCallback: Option<Callback>,
    speaking: Option<Utterance>,
    spoken: seq<Utterance>,
    fired: seq<Callback>)

  /** The state at page load: nothing queued, spoken or invoked. */
  function Initial(supported: bool): (n: Narrator)
    ensures n.supported == supported && n.queue == [] && n.speaking.None?
    ensures n.finalCallback.None? && n.spoken == [] && n.fired == [] && n.voiceToUse.None?
  {
    Narrator(supported, [], None, [], None, None, [], [])
  }

  /** `populateVoices`, run with the list the platform reports. */
  function AfterPopulateVoices(n: Narrator, available: seq<Voice>): (r: Narrator)
    ensures r.voices == available
    ensures r.voiceToUse == ChooseVoice(available)
    ensures r.queue == n.queue && r.finalCallback == n.finalCallback && r.speaking == n.speaking
    ensures r.spoken == n.spoken && r.fired == n.fired && r.supported == n.supported
  {
    n.(voices := available, voiceToUse := ChooseVoice(available))
  }

  /** `initSpeechSynthesis`: does nothing where speech is unsupported. The handler it
      installs for `voiceschanged` is `AfterPopulateVoices` again. */
  function AfterInit(n: Narrator, available: seq<Voice>): (r: Narrator)
    ensures !n.supported ==> r == n
    ensures n.supported ==> r.voices == available && r.voiceToUse == ChooseVoice(available)
    ensures r.queue == n.queue && r.fired == n.fired && r.spoken == n.spoken
  {
    if n.supported then AfterPopulateVoices(n, available) else n
  }

  /** `playNextInQueue`: with an empty queue, invoke the stored callback once and clear
      it; otherwise take exactly the head of the queue and hand it to the synthesizer
      with the chosen voice. */
  function AfterPlayNext(n: Narrator): (r: Narrator)
    ensures n.queue == [] ==>
      && r.queue == [] && r.finalCallback.None?
      && r.fired == n.fired + AsSeq(n.finalCallback)
      && r.spoken == n.spoken && r.speaking == n.speaking
    ensures n.queue != [] ==>
      && r.queue == n.queue[1..]
      && r.speaking == Some(Utterance(n.queue[0], n.voiceToUse))
      && r.spoken == n.spoken + [Utterance(n.queue[0], n.voiceToUse)]
      && r.fired == n.fired && r.finalCallback == n.finalCallback
    ensures r.supported == n.supported && r.voices == n.voices && r.voiceToUse == n.voiceToUse
  {
    if n.queue == [] then
      n.(fired := n.fired + AsSeq(n.finalCallback), finalCallback := None)
    else
      var u := Utterance(n.queue[0], n.voiceToUse);
      n.(queue := n.queue[1..], speaking := Some(u), spoken := n.spoken + [u])
  }

  /** The synthesizer finished the current utterance (`utterance.onend`). */
  function AfterEnd(n: Narrator): (r: Narrator)
    ensures n.queue != [] ==> r.speaking.Some? && r.spoken == n.spoken + [Utterance(n.queue[0], n.voiceToUse)]
    ensures n.queue == [] ==> r.speaking.None? && r.fired == n.fired + AsSeq(n.finalCallback) && r.finalCallback.None?
  {
    AfterPlayNext(n.(speaking := None))
  }

  /** The synthesizer failed on the current utterance (`utterance.onerror`): the error is
      logged, and the queue advances exactly as on a normal end. */
  function AfterError(n: Narrator, error: string): (r: Narrator)
    ensures r == AfterEnd(n)
  {
    AfterPlayNext(n.(speaking := None))
  }

  /** `cancel`: where speech is supported, drop the queue and the stored callback and stop
      the current utterance; never invokes a callback. */
  function AfterCancel(n: Narrator): (r: Narrator)
    ensures !n.supported ==> r == n
    ensures n.supported ==> r.queue == [] && r.finalCallback.None? && r.speaking.None?
    ensures r.fired == n.fired && r.spoken == n.spoken
    ensures r.supported == n.supported && r.voices == n.voices && r.voiceToUse == n.voiceToUse
  {
    if n.supported then n.(queue := [], finalCallback := None, speaking := None) else n
  }

  /** Cancelling twice is cancelling once. */
  lemma CancelIdempotent(n: Narrator)
    ensures AfterCancel(AfterCancel(n)) == AfterCancel(n)
  {
  }

  /** `speak(text, onEnd)`. Unsupported: invoke `onEnd` at once. Otherwise cancel, store
      `onEnd`, and queue the chunks of `text`; with no chunk, invoke `onEnd` at once (the
      stored copy stays in place), else start the first chunk. */
  function AfterSpeak(n: Narrator, text: string, onEnd: Option<Callback>): (r: Narrator)
    ensures !n.supported ==> r == n.(fired := n.fired + AsSeq(onEnd))
    ensures n.supported && Chunks(text) == [] ==>
      && r.queue == [] && r.speaking.None? && r.finalCallback == onEnd
      && r.fired == n.fired + AsSeq(onEnd) && r.spoken == n.spoken
    ensures n.supported && Chunks(text) != [] ==>
      && r.queue == Chunks(text)[1..]
      && r.speaking == Some(Utterance(Chunks(text)[0], n.voiceToUse))
      && r.spoken == n.spoken + [Utterance(Chunks(text)[0], n.voiceToUse)]
      && r.finalCallback == onEnd && r.fired == n.fired
    ensures r.supported == n.supported && r.voices == n.voices && r.voiceToUse == n.voiceToUse
  {
    if !n.supported then
      n.(fired := n.fired + AsSeq(onEnd))
    else
      Begin(AfterCancel(n).(finalCallback := onEnd), Chunks(text), onEnd)
  }

  /** The second half of `speak`, once `onEnd` is stored: with no chunk, invoke `onEnd`
      at once; otherwise queue the chunks and start the first. */
  function Begin(c: Narrator, chunks: seq<string>, onEnd: Option<Callback>): (r: Narrator)
    ensures chunks == [] ==> r.queue == c.queue && r.speaking == c.speaking && r.fired == c.fired + AsSeq(onEnd) && r.spoken == c.spoken
    ensures chunks != [] ==>
      && r.queue == chunks[1..] && r.speaking == Some(Utterance(chunks[0], c.voiceToUse))
      && r.spoken == c.spoken + [Utterance(chunks[0], c.voiceToUse)] && r.fired == c.fired
    ensures r.finalCallback == c.finalCallback
    ensures r.supported == c.supported && r.voices == c.voices && r.voiceToUse == c.voiceToUse
  {
    if chunks == [] then c.(fired := c.fired + AsSeq(onEnd))
    else AfterPlayNext(c.(queue := chunks))
  }

  // ---------------------------------------------------------------------------
  // Narration runs
  // ---------------------------------------------------------------------------

  /** How an utterance ended, as reported by the synthesizer. */
  datatype Outcome = Ended | Errored(error: string)

  /** The synthesizer reports `events`, one per utterance, in order. It only reports on
      an utterance it is speaking, so events after narration stops have no effect. */
  function Run(n: Narrator, events: seq<Outcome>): Narrator
    decreases |events|
  {
    if events == [] || n.speaking.None? then n
    else Run(Report(n, events[0]), events[1..])
  }

  /** The handler the synthesizer's report invokes. */
  function Report(n: Narrator, o: Outcome): Narrator {
    match o
    case Ended => AfterEnd(n)
    case Errored(e) => AfterError(n, e)
  }

  /** While an utterance is playing and chunks remain, each report (end or error alike)
      plays exactly the next queued chunk and invokes no callback. */
  lemma {:induction false} RunWhileQueued(n: Narrator, events: seq<Outcome>)
    requires n.speaking.Some?
    requires |events| <= |n.queue|
    ensures Run(n, events).queue == n.queue[|events|..]
    ensures Run(n, events).spoken == n.spoken + Utterances(n.queue[..|events|], n.voiceToUse)
    ensures Run(n, events).speaking.Some?
    ensures Run(n, events).fired == n.fired
    ensures Run(n, events).finalCallback == n.finalCallback
    ensures Run(n, events).voiceToUse == n.voiceToUse
    decreases |events|
  {
    if events == [] {
      assert n.queue[..0] == [];
      assert n.spoken + [] == n.spoken;
    } else {
      var next := Report(n, events[0]);
      var k := |events|;
      var u := Utterance(n.queue[0], n.voiceToUse);
      assert next.queue == n.queue[1..] && next.spoken == n.spoken + [u] && next.speaking.Some?
          && next.fired == n.fired && next.finalCallback == n.finalCallback
          && next.voiceToUse == n.voiceToUse by {
        assert next == AfterPlayNext(n.(speaking := None));
      }
      assert Run(n, events) == Run(next, events[1..]);
      RunWhileQueued(next, events[1..]);
      assert next.queue[k - 1..] == n.queue[k..];
      assert next.queue[..k - 1] == n.queue[1..k];
      var us := Utterances(n.queue[1..k], n.voiceToUse);
      assert Utterances(n.queue[..k], n.voiceToUse) == [u] + us by {
        assert n.queue[..k][1..] == n.queue[1..k];
      }
      assert n.spoken + [u] + us == n.spoken + ([u] + us);
    }
  }

  /** Once the queue is empty, the next report (end or error alike) invokes the stored
      callback once and clears it; later reports find nothing speaking. */
  lemma RunAfterLast(n: Narrator, events: seq<Outcome>)
    requires n.speaking.Some? && n.queue == [] && events != []
    ensures Run(n, events).spoken == n.spoken
    ensures Run(n, events).speaking.None?
    ensures Run(n, events).queue == []
    ensures Run(n, events).fired == n.fired + AsSeq(n.finalCallback)
    ensures Run(n, events).finalCallback.None?
  {
    var next := Report(n, events[0]);
    assert next == AfterEnd(n);
    assert next.speaking.None?;
  }

  /** While an utterance is playing, the reports drain the queue in order; the report
      after the last chunk invokes the stored callback exactly once. */
  lemma RunDrainsQueue(n: Narrator, events: seq<Outcome>)
    requires n.speaking.Some?
    requires |events| > |n.queue|
    ensures Run(n, events).queue == []
    ensures Run(n, events).spoken == n.spoken + Utterances(n.queue, n.voiceToUse)
    ensures Run(n, events).speaking.None?
    ensures Run(n, events).fired == n.fired + AsSeq(n.finalCallback)
    ensures Run(n, events).finalCallback.None?
  {
    var k := |n.queue|;
    RunWhileQueued(n, events[..k]);
    RunSplit(n, events, k);
    var m := Run(n, events[..k]);
    assert n.queue[..k] == n.queue;
    RunAfterLast(m, events[k..]);
  }

  /** Running a sequence of reports is running its prefix, then the rest. */
  lemma {:induction false} RunSplit(n: Narrator, events: seq<Outcome>, k: nat)
    requires k <= |events|
    ensures Run(n, events) == Run(Run(n, events[..k]), events[k..])
    decreases k
  {
    if k == 0 {
      assert events[..0] == [] && events[0..] == events;
    } else if n.speaking.None? {
      assert Run(n, events[..k]) == n;
    } else {
      assert events[..k][0] == events[0];
      assert events[..k][1..] == events[1..][..k - 1];
      assert events[k..] == events[1..][k - 1..];
      RunSplit(Report(n, events[0]), events[1..], k - 1);
    }
  }

  /** A narration started by `speak` plays every chunk of the text, strictly in order,
      whatever mix of ends and errors the synthesizer reports; `onEnd` is invoked exactly
      once, only after the last chunk has ended or failed, and no other callback (in
      particular none stored by an earlier `speak`) is ever invoked. */
  lemma SpeakRunsToCompletion(n: Narrator, text: string, onEnd: Option<Callback>, events: seq<Outcome>)
    requires n.supported
    ensures var ch := Chunks(text); var r := Run(AfterSpeak(n, text, onEnd), events);
      && (|events| >= |ch| ==>
            && r.spoken == n.spoken + Utterances(ch, n.voiceToUse)
            && r.fired == n.fired + AsSeq(onEnd)
            && r.queue == [] && r.speaking.None?)
      && (|events| < |ch| ==>
            && r.spoken == n.spoken + Utterances(ch[..|events| + 1], n.voiceToUse)
            && r.fired == n.fired)
  {
    var c := AfterCancel(n).(finalCallback := onEnd);
    assert AfterSpeak(n, text, onEnd) == Begin(c, Chunks(text), onEnd);
    BeginRunsToCompletion(c, Chunks(text), onEnd, events);
  }

  /** `SpeakRunsToCompletion` for any chunks, from a state with nothing speaking and
      `onEnd` stored. */
  lemma BeginRunsToCompletion(c: Narrator, ch: seq<string>, onEnd: Option<Callback>, events: seq<Outcome>)
    requires c.speaking.None? && c.queue == [] && c.finalCallback == onEnd
    ensures var r := Run(Begin(c, ch, onEnd), events);
      && (|events| >= |ch| ==>
            && r.spoken == c.spoken + Utterances(ch, c.voiceToUse)
            && r.fired == c.fired + AsSeq(onEnd)
            && r.queue == [] && r.speaking.None?)
      && (|events| < |ch| ==>
            && r.spoken == c.spoken + Utterances(ch[..|events| + 1], c.voiceToUse)
            && r.fired == c.fired)
  {
    if |events| < |ch| {
      BeginRunsPartway(c, ch, onEnd, events);
    } else {
      BeginRunsThrough(c, ch, onEnd, events);
    }
  }

  /** Fewer reports than chunks: the chunks played so far, and no callback. */
  lemma BeginRunsPartway(c: Narrator, ch: seq<string>, onEnd: Option<Callback>, events: seq<Outcome>)
    requires c.speaking.None? && c.queue == [] && c.finalCallback == onEnd
    requires |events| < |ch|
    ensures var r := Run(Begin(c, ch, onEnd), events);
      && r.spoken == c.spoken + Utterances(ch[..|events| + 1], c.voiceToUse)
      && r.fired == c.fired
  {
    var s := Begin(c, ch, onEnd);
    var u := Utterance(ch[0], c.voiceToUse);
    assert s.queue == ch[1..] && s.spoken == c.spoken + [u] && s.speaking.Some? && s.fired == c.fired;
    RunWhileQueued(s, events);
    var us := Utterances(s.queue[..|events|], c.voiceToUse);
    assert Utterances(ch[..|events| + 1], c.voiceToUse) == [u] + us by {
      assert ch[..|events| + 1][1..] == s.queue[..|events|];
    }
    ConsAssoc(c.spoken, u, us);
  }

  /** At least as many reports as chunks: every chunk played, then `onEnd` invoked. */
  lemma BeginRunsThrough(c: Narrator, ch: seq<string>, onEnd: Option<Callback>, events: seq<Outcome>)
    requires c.speaking.None? && c.queue == [] && c.finalCallback == onEnd
    requires |events| >= |ch|
    ensures var r := Run(Begin(c, ch, onEnd), events);
      && r.spoken == c.spoken + Utterances(ch, c.voiceToUse)
      && r.fired == c.fired + AsSeq(onEnd)
      && r.queue == [] && r.speaking.None?
  {
    var s := Begin(c, ch, onEnd);
    if ch == [] {
      assert Run(s, events) == s;
      assert c.spoken + Utterances(ch, c.voiceToUse) == c.spoken;
    } else {
      var u := Utterance(ch[0], c.voiceToUse);
      assert s.queue == ch[1..] && s.spoken == c.spoken + [u] && s.speaking.Some?;
      assert s.fired == c.fired && s.finalCallback == onEnd;
      RunDrainsQueue(s, events);
      assert Utterances(ch, c.voiceToUse) == [u] + Utterances(s.queue, c.voiceToUse);
      ConsAssoc(c.spoken, u, Utterances(s.queue, c.voiceToUse));
    }
  }

  lemma ConsAssoc<T>(a: seq<T>, u: T, b: seq<T>)
    ensures a + [u] + b == a + ([u] + b)
  {
  }

  /** Reports delivered to the handlers with no guard: after `cancel` the cancelled
      utterance's own `onend`/`onerror` handlers are still attached and may still fire. */
  function Deliver(n: Narrator, events: seq<Outcome>): Narrator
    decreases |events|
  {
    if events == [] then n else Deliver(Report(n, events[0]), events[1..])
  }

  /** A narrator with nothing queued and no stored callback stays so under any reports:
      nothing is spoken and nothing is invoked. */
  lemma {:induction false} IdleStaysIdle(n: Narrator, events: seq<Outcome>)
    requires n.queue == [] && n.finalCallback.None?
    ensures Deliver(n, events).queue == [] && Deliver(n, events).finalCallback.None?
    ensures Deliver(n, events).fired == n.fired && Deliver(n, events).spoken == n.spoken
    decreases |events|
  {
    if events != [] {
      var next := Report(n, events[0]);
      assert next == n.(speaking := None);
      IdleStaysIdle(next, events[1..]);
    }
  }

  /** `cancel` in the middle of a narration: nothing further is spoken and the stored
      callback is never invoked, even when the cancelled utterance still reports its end
      or an error afterwards, because `cancel` empties the queue and drops the callback. */
  lemma CancelSilences(n: Narrator, events: seq<Outcome>)
    requires n.supported
    ensures Deliver(AfterCancel(n), events).fired == n.fired
    ensures Deliver(AfterCancel(n), events).spoken == n.spoken
    ensures Deliver(AfterCancel(n), events).queue == []
    ensures Deliver(AfterCancel(n), events).finalCallback.None?
  {
    IdleStaysIdle(AfterCancel(n), events);
  }

  // ---------------------------------------------------------------------------
  // The service object
  // ---------------------------------------------------------------------------

  class NarrationService {
    const supported: bool
    var voices: seq<Voice>
    var voiceToUse: Option<Voice>
    var queue: seq<string>
    var finalCallback: Option<Callback>
    var speaking: Option<Utterance>
    var spoken: seq<Utterance>
    var fired: seq<Callback>

    /** The object's state as a value. */
    function State(): Narrator
      reads this
    {
      Narrator(supported, voices, voiceToUse, queue, finalCallback, speaking, spoken, fired)
    }

    constructor (supported: bool)
      ensures State() == Initial(supported)
    {
      this.supported := supported;
      voices, voiceToUse := [], None;
      queue, finalCallback := [], None;
      speaking, spoken, fired := None, [], [];
    }

    method PopulateVoices(available: seq<Voice>)
      modifies this
      ensures State() == AfterPopulateVoices(old(State()), available)
    {
      voices := available;
      voiceToUse := ChooseVoice(available);
    }

    method InitSpeechSynthesis(available: seq<Voice>)
      modifies this
      ensures State() == AfterInit(old(State()), available)
    {
      if !supported {
        return;
      }
      PopulateVoices(available);
    }

    method PlayNextInQueue()
      modifies this
      ensures State() == AfterPlayNext(old(State()))
    {
      if |queue| == 0 {
        if finalCallback.Some? {
          fired := fired + [finalCallback.value];
          finalCallback := None;
        }
        return;
      }
      var utterance := Utterance(queue[0], voiceToUse);
      queue := queue[1..];
      speaking := Some(utterance);
      spoken := spoken + [utterance];
    }

    /** `utterance.onend`. */
    method OnEnd()
      modifies this
      ensures State() == AfterEnd(old(State()))
    {
      speaking := None;
      PlayNextInQueue();
    }

    /** `utterance.onerror`. */
    method OnError(error: string)
      modifies this
      ensures State() == AfterError(old(State()), error)
    {
      speaking := None;
      PlayNextInQueue();
    }

    method Speak(text: string, onEnd: Option<Callback>)
      modifies this
      ensures State() == AfterSpeak(old(State()), text, onEnd)
    {
      if !supported {
        if onEnd.Some? {
          fired := fired + [onEnd.value];
        }
        return;
      }
      Cancel();
      finalCallback := onEnd;
      var chunks := Chunks(text);
      if |chunks| == 0 {
        if onEnd.Some? {
          fired := fired + [onEnd.value];
        }
        return;
      }
      queue := chunks;
      PlayNextInQueue();
    }

    method Cancel()
      modifies this
      ensures State() == AfterCancel(old(State()))
    {
      if supported {
        queue := [];
        finalCallback := None;
        if speaking.Some? {
          speaking := None;
        }
      }
    }
  }
}
