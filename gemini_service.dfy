/** The request/response shaping of `services/geminiService.ts`.

    The calls to the generative-AI service and `JSON.parse` are not modelled: their
    outcome is an input (`Result`), the parsed timeline a `StructuredTimeline`, the
    image response an `ImagesResponse`. Fresh ids (`crypto.randomUUID`) come from a
    supply `uuid`, the k-th id drawn being `uuid(k)`. */
module GeminiService {
  import opened Outcomes
  import opened Strings
  import opened Types

  /** A `{year, event}` object of the parsed response. */
  datatype RawEntry = RawEntry(year: string, event: string)

  /** The `futureImpact` object. A missing `majorEvents` array is the empty sequence and
      a missing `summary` the empty string: the code treats each the same way as its
      empty counterpart (`?.length > 0` and the truthiness of a string). */
  datatype FutureImpact = FutureImpact(majorEvents: seq<RawEntry>, summary: string)

  /** The parsed JSON response; a missing array is the empty sequence, a missing
      `futureImpact` is `None`. */
  datatype StructuredTimeline = StructuredTimeline(
    immediate: seq<RawEntry>,
    mediumTerm: seq<RawEntry>,
    futureImpact: Option<FutureImpact>)

  const TimelineFailureMessage: string := "Failed to get a valid response from the AI for timeline generation."
  const CommentaryFallback: string := "The timeline shifts, and even my vision grows cloudy..."
  const DrillDownFallback: string := "The details of this moment are lost to the temporal mists, shrouded in paradox."
  const ImageError: string := "error"
  const JpegDataUrlPrefix: string := "data:image/jpeg;base64,"

  // ---------------------------------------------------------------------------
  // Timeline flattening (`generateTimeline`)
  // ---------------------------------------------------------------------------

  /** `c` is the event entry made from `e`, with no image fields. */
  predicate IsEventFrom(c: Consequence, e: RawEntry) {
    c.kind == Event && c.year == e.year && c.event == e.event && c.imageUrl.None? && c.imageIsLoading.None?
  }

  /** `c` is a section header with the given title and an empty event text. */
  predicate IsHeaderTitled(c: Consequence, title: string) {
    c.kind == Header && c.year == title && c.event == "" && c.imageUrl.None? && c.imageIsLoading.None?
  }

  /** `c` is the closing summary entry with the given text and an empty year. */
  predicate IsSummaryOf(c: Consequence, text: string) {
    c.kind == Summary && c.year == "" && c.event == text && c.imageUrl.None? && c.imageIsLoading.None?
  }

  /** Entries in the medium-term section: its header and its events, or nothing. */
  function MediumBlockLength(t: StructuredTimeline): nat {
    if |t.mediumTerm| > 0 then 1 + |t.mediumTerm| else 0
  }

  /** Entries in the far-future section: its header, then the major events, or else one
      summary entry if the summary is non-empty; nothing without `futureImpact`. */
  function FutureBlockLength(t: StructuredTimeline): nat {
    match t.futureImpact
    case None => 0
    case Some(f) => 1 + (if |f.majorEvents| > 0 then |f.majorEvents| else if f.summary != "" then 1 else 0)
  }

  /** Where the far-future header stands. */
  function FutureStart(t: StructuredTimeline): nat {
    |t.immediate| + MediumBlockLength(t)
  }

  /** `cs` holds, from position `from` on, the event entries made from `es`, in order. */
  ghost predicate EventsAt(cs: seq<Consequence>, from: nat, es: seq<RawEntry>) {
    from + |es| <= |cs| && forall j :: 0 <= j < |es| ==> IsEventFrom(cs[from + j], es[j])
  }

  /** The entries of `cs` carry the ids of the supply from position `from` on. */
  ghost predicate IdsFrom(cs: seq<Consequence>, uuid: nat -> string, from: nat) {
    forall i :: 0 <= i < |cs| ==> cs[i].id == uuid(from + i)
  }

  /** When there are medium-term events, `cs` holds at position `m` the
      "Medium-Term Consequences" header followed by them. */
  ghost predicate MediumAt(cs: seq<Consequence>, t: StructuredTimeline, m: nat) {
    |t.mediumTerm| > 0 ==> m < |cs| && IsHeaderTitled(cs[m], MediumTermTitle) && EventsAt(cs, m + 1, t.mediumTerm)
  }

  /** When `futureImpact` is present, `cs` holds at position `p` the
      "Further in the Future..." header followed by the major events or, failing those,
      by a non-empty summary. */
  ghost predicate FutureAt(cs: seq<Consequence>, t: StructuredTimeline, p: nat) {
    t.futureImpact.Some? ==>
      var f := t.futureImpact.value;
      && p < |cs| && IsHeaderTitled(cs[p], FutureTitle)
      && EventsAt(cs, p + 1, f.majorEvents)
      && (|f.majorEvents| == 0 && f.summary != "" ==> p + 1 < |cs| && IsSummaryOf(cs[p + 1], f.summary))
  }

  /** The layout of the flattened timeline: the immediate events in order, then the
      medium-term section, then the far-future section, and nothing else. */
  ghost predicate FlattenedFrom(cs: seq<Consequence>, t: StructuredTimeline) {
    && |cs| == |t.immediate| + MediumBlockLength(t) + FutureBlockLength(t)
    && EventsAt(cs, 0, t.immediate)
    && MediumAt(cs, t, |t.immediate|)
    && FutureAt(cs, t, FutureStart(t))
  }

  /** Events laid out in `y` stay in place, shifted by `|x|`, when `x` goes in front. */
  lemma EventsAtShift(x: seq<Consequence>, y: seq<Consequence>, from: nat, es: seq<RawEntry>)
    requires EventsAt(y, from, es)
    ensures EventsAt(x + y, |x| + from, es)
  {
    forall j | 0 <= j < |es| ensures IsEventFrom((x + y)[|x| + from + j], es[j]) {
      assert (x + y)[|x| + from + j] == y[from + j];
    }
  }

  /** Events laid out in `x` stay in place when `y` is appended. */
  lemma EventsAtPrefix(x: seq<Consequence>, y: seq<Consequence>, from: nat, es: seq<RawEntry>)
    requires EventsAt(x, from, es)
    ensures EventsAt(x + y, from, es)
  {
    forall j | 0 <= j < |es| ensures IsEventFrom((x + y)[from + j], es[j]) {
      assert (x + y)[from + j] == x[from + j];
    }
  }

  /** Consecutive runs of ids concatenate. */
  lemma IdsAppend(x: seq<Consequence>, y: seq<Consequence>, uuid: nat -> string, from: nat)
    requires IdsFrom(x, uuid, from) && IdsFrom(y, uuid, from + |x|)
    ensures IdsFrom(x + y, uuid, from)
  {
    forall i | 0 <= i < |x + y| ensures (x + y)[i].id == uuid(from + i) {
      if i < |x| { assert (x + y)[i] == x[i]; } else { assert (x + y)[i] == y[i - |x|]; }
    }
  }

  lemma MediumAtShift(x: seq<Consequence>, y: seq<Consequence>, t: StructuredTimeline, m: nat)
    requires MediumAt(y, t, m)
    ensures MediumAt(x + y, t, |x| + m)
  {
    if |t.mediumTerm| > 0 {
      EventsAtShift(x, y, m + 1, t.mediumTerm);
      assert (x + y)[|x| + m] == y[m];
    }
  }

  lemma MediumAtPrefix(x: seq<Consequence>, y: seq<Consequence>, t: StructuredTimeline, m: nat)
    requires MediumAt(x, t, m)
    ensures MediumAt(x + y, t, m)
  {
    if |t.mediumTerm| > 0 {
      EventsAtPrefix(x, y, m + 1, t.mediumTerm);
      assert (x + y)[m] == x[m];
    }
  }

  lemma FutureAtShift(x: seq<Consequence>, y: seq<Consequence>, t: StructuredTimeline, p: nat)
    requires FutureAt(y, t, p)
    ensures FutureAt(x + y, t, |x| + p)
  {
    if t.futureImpact.Some? {
      var f := t.futureImpact.value;
      EventsAtShift(x, y, p + 1, f.majorEvents);
      assert (x + y)[|x| + p] == y[p];
      if |f.majorEvents| == 0 && f.summary != "" {
        assert (x + y)[|x| + p + 1] == y[p + 1];
      }
    }
  }

  /** `entries.map(c => ({ ...c, type: 'event', id: crypto.randomUUID() }))`, drawing
      ids from position `from` of the supply on. */
  function Tagged(entries: seq<RawEntry>, uuid: nat -> string, from: nat): (r: seq<Consequence>)
    ensures |r| == |entries|
  {
    if entries == [] then []
    else [Consequence(uuid(from), entries[0].year, entries[0].event, Event, None, None)] + Tagged(entries[1..], uuid, from + 1)
  }

  /** The medium-term section starting at position `from`: its header and its events,
      or nothing when there are no medium-term events. */
  function MediumBlock(t: StructuredTimeline, uuid: nat -> string, from: nat): (r: seq<Consequence>)
    ensures |r| == MediumBlockLength(t)
  {
    if |t.mediumTerm| > 0 then
      [Consequence(uuid(from), MediumTermTitle, "", Header, None, None)] + Tagged(t.mediumTerm, uuid, from + 1)
    else []
  }

  /** The far-future section starting at position `from`: its header, then the major
      events or else a non-empty summary; nothing without `futureImpact`. */
  function FutureBlock(t: StructuredTimeline, uuid: nat -> string, from: nat): (r: seq<Consequence>)
    ensures |r| == FutureBlockLength(t)
  {
    match t.futureImpact
    case None => []
    case Some(f) =>
      var h := [Consequence(uuid(from), FutureTitle, "", Header, None, None)];
      if |f.majorEvents| > 0 then h + Tagged(f.majorEvents, uuid, from + 1)
      else if f.summary != "" then h + [Consequence(uuid(from + 1), "", f.summary, Summary, None, None)]
      else h
  }

  /** Tagging makes one event entry per raw entry, in order. */
  lemma {:induction false} TaggedLaidOut(entries: seq<RawEntry>, uuid: nat -> string, from: nat)
    ensures EventsAt(Tagged(entries, uuid, from), 0, entries)
  {
    if entries != [] {
      var h := [Consequence(uuid(from), entries[0].year, entries[0].event, Event, None, None)];
      var rest := Tagged(entries[1..], uuid, from + 1);
      TaggedLaidOut(entries[1..], uuid, from + 1);
      EventsAtShift(h, rest, 0, entries[1..]);
      forall j | 0 <= j < |entries| ensures IsEventFrom((h + rest)[j], entries[j]) {
        if j > 0 { assert IsEventFrom((h + rest)[1 + (j - 1)], entries[1..][j - 1]); }
      }
    }
  }

  /** Tagging draws consecutive ids. */
  lemma {:induction false} TaggedIds(entries: seq<RawEntry>, uuid: nat -> string, from: nat)
    ensures IdsFrom(Tagged(entries, uuid, from), uuid, from)
  {
    if entries != [] {
      var h := [Consequence(uuid(from), entries[0].year, entries[0].event, Event, None, None)];
      TaggedIds(entries[1..], uuid, from + 1);
      IdsAppend(h, Tagged(entries[1..], uuid, from + 1), uuid, from);
    }
  }

  /** The medium-term section is its header followed by its events. */
  lemma MediumBlockLaidOut(t: StructuredTimeline, uuid: nat -> string, from: nat)
    ensures MediumAt(MediumBlock(t, uuid, from), t, 0)
  {
    if |t.mediumTerm| > 0 {
      var h := [Consequence(uuid(from), MediumTermTitle, "", Header, None, None)];
      TaggedLaidOut(t.mediumTerm, uuid, from + 1);
      EventsAtShift(h, Tagged(t.mediumTerm, uuid, from + 1), 0, t.mediumTerm);
    }
  }

  lemma MediumBlockIds(t: StructuredTimeline, uuid: nat -> string, from: nat)
    ensures IdsFrom(MediumBlock(t, uuid, from), uuid, from)
  {
    if |t.mediumTerm| > 0 {
      var h := [Consequence(uuid(from), MediumTermTitle, "", Header, None, None)];
      TaggedIds(t.mediumTerm, uuid, from + 1);
      IdsAppend(h, Tagged(t.mediumTerm, uuid, from + 1), uuid, from);
    }
  }

  /** The far-future section is its header followed by the major events or else the
      non-empty summary. */
  lemma FutureBlockLaidOut(t: StructuredTimeline, uuid: nat -> string, from: nat)
    ensures FutureAt(FutureBlock(t, uuid, from), t, 0)
  {
    if t.futureImpact.Some? {
      var f := t.futureImpact.value;
      var h := [Consequence(uuid(from), FutureTitle, "", Header, None, None)];
      if |f.majorEvents| > 0 {
        TaggedLaidOut(f.majorEvents, uuid, from + 1);
        EventsAtShift(h, Tagged(f.majorEvents, uuid, from + 1), 0, f.majorEvents);
      }
    }
  }

  lemma FutureBlockIds(t: StructuredTimeline, uuid: nat -> string, from: nat)
    ensures IdsFrom(FutureBlock(t, uuid, from), uuid, from)
  {
    if t.futureImpact.Some? {
      var f := t.futureImpact.value;
      var h := [Consequence(uuid(from), FutureTitle, "", Header, None, None)];
      if |f.majorEvents| > 0 {
        TaggedIds(f.majorEvents, uuid, from + 1);
        IdsAppend(h, Tagged(f.majorEvents, uuid, from + 1), uuid, from);
      }
    }
  }

  /** The three sections end to end. */
  function Flattened(t: StructuredTimeline, uuid: nat -> string): seq<Consequence> {
    var ab := Tagged(t.immediate, uuid, 0) + MediumBlock(t, uuid, |t.immediate|);
    ab + FutureBlock(t, uuid, |ab|)
  }

  /** Sections with the right layouts and lengths, laid end to end, make a flattened
      timeline. */
  lemma SectionsMakeFlattened(a: seq<Consequence>, b: seq<Consequence>, c: seq<Consequence>, t: StructuredTimeline)
    requires |a| == |t.immediate| && EventsAt(a, 0, t.immediate)
    requires |b| == MediumBlockLength(t) && MediumAt(b, t, 0)
    requires |c| == FutureBlockLength(t) && FutureAt(c, t, 0)
    ensures FlattenedFrom(a + b + c, t)
  {
    EventsAtPrefix(a, b, 0, t.immediate);
    EventsAtPrefix(a + b, c, 0, t.immediate);
    MediumAtShift(a, b, t, 0);
    MediumAtPrefix(a + b, c, t, |a|);
    FutureAtShift(a + b, c, t, 0);
  }

  /** The three sections end to end have the layout of a flattened timeline. */
  lemma FlattenedLaidOut(t: StructuredTimeline, uuid: nat -> string)
    ensures FlattenedFrom(Flattened(t, uuid), t)
  {
    var a := Tagged(t.immediate, uuid, 0);
    var b := MediumBlock(t, uuid, |a|);
    var c := FutureBlock(t, uuid, |a + b|);
    TaggedLaidOut(t.immediate, uuid, 0);
    MediumBlockLaidOut(t, uuid, |a|);
    FutureBlockLaidOut(t, uuid, |a + b|);
    SectionsMakeFlattened(a, b, c, t);
  }

  /** The entries of the flattened timeline carry the ids of the supply in order. */
  lemma FlattenedIds(t: StructuredTimeline, uuid: nat -> string)
    ensures IdsFrom(Flattened(t, uuid), uuid, 0)
  {
    var a := Tagged(t.immediate, uuid, 0);
    var b := MediumBlock(t, uuid, |a|);
    var c := FutureBlock(t, uuid, |a + b|);
    TaggedIds(t.immediate, uuid, 0);
    MediumBlockIds(t, uuid, |a|);
    FutureBlockIds(t, uuid, |a + b|);
    IdsAppend(a, b, uuid, 0);
    IdsAppend(a + b, c, uuid, 0);
  }

  /** The flattening of `generateTimeline`: successive pushes onto `flattenedTimeline`,
      every entry taking the next id of the supply. The result is the three sections
      end to end, whose layout `FlattenedLaidOut` gives. */
  method FlattenTimeline(t: StructuredTimeline, uuid: nat -> string) returns (flattened: seq<Consequence>)
    ensures flattened == Flattened(t, uuid)
  {
    flattened := [];
    if |t.immediate| > 0 {
      flattened := flattened + Tagged(t.immediate, uuid, |flattened|);
    }
    assert flattened == Tagged(t.immediate, uuid, 0);
    flattened := PushMediumTerm(flattened, t, uuid);
    flattened := PushFutureImpact(flattened, t, uuid);
  }

  /** The medium-term block of pushes: the header and the events, when there are any. */
  method PushMediumTerm(flattened: seq<Consequence>, t: StructuredTimeline, uuid: nat -> string) returns (r: seq<Consequence>)
    ensures r == flattened + MediumBlock(t, uuid, |flattened|)
  {
    r := flattened;
    if |t.mediumTerm| > 0 {
      r := r + [Consequence(uuid(|r|), MediumTermTitle, "", Header, None, None)];
      r := r + Tagged(t.mediumTerm, uuid, |r|);
    }
  }

  /** The far-future block of pushes: the header, then the major events or else a
      non-empty summary, when `futureImpact` is present. */
  method PushFutureImpact(flattened: seq<Consequence>, t: StructuredTimeline, uuid: nat -> string) returns (r: seq<Consequence>)
    ensures r == flattened + FutureBlock(t, uuid, |flattened|)
  {
    r := flattened;
    if t.futureImpact.Some? {
      var f := t.futureImpact.value;
      r := r + [Consequence(uuid(|r|), FutureTitle, "", Header, None, None)];
      if |f.majorEvents| > 0 {
        r := r + Tagged(f.majorEvents, uuid, |r|);
      } else if f.summary != "" {
        r := r + [Consequence(uuid(|r|), "", f.summary, Summary, None, None)];
      }
    }
  }

  /** `generateTimeline` from the outcome of the request and of `JSON.parse`: any failure
      is rethrown with one fixed message; otherwise the flattened timeline, laid out
      section by section, its entries carrying the ids of the supply in order. */
  method GenerateTimeline(response: Result<StructuredTimeline>, uuid: nat -> string) returns (r: Result<seq<Consequence>>)
    ensures r.Failure? <==> response.Failure?
    ensures r.Failure? ==> r.message == TimelineFailureMessage
    ensures r.Ok? ==> FlattenedFrom(r.value, response.value)
    ensures r.Ok? ==> IdsFrom(r.value, uuid, 0)
  {
    if response.Failure? {
      return Failure(TimelineFailureMessage);
    }
    var flattened := FlattenTimeline(response.value, uuid);
    FlattenedLaidOut(response.value, uuid);
    FlattenedIds(response.value, uuid);
    return Ok(flattened);
  }

  /** The headers of a flattened timeline are exactly the medium-term header, present iff
      there are medium-term events, and the far-future header, present iff `futureImpact`
      is (even with neither major events nor a summary). */
  lemma HeadersOfFlattened(cs: seq<Consequence>, t: StructuredTimeline, i: int)
    requires FlattenedFrom(cs, t)
    requires 0 <= i < |cs|
    ensures cs[i].kind == Header <==>
      (i == |t.immediate| && |t.mediumTerm| > 0) || (i == FutureStart(t) && t.futureImpact.Some?)
    ensures cs[i].kind == Header && cs[i].year == MediumTermTitle <==> i == |t.immediate| && |t.mediumTerm| > 0
    ensures cs[i].kind == Header && cs[i].year == FutureTitle <==> i == FutureStart(t) && t.futureImpact.Some?
  {
    var m := |t.immediate|;
    var p := FutureStart(t);
    if i < m {
      assert IsEventFrom(cs[0 + i], t.immediate[i]);
    } else if |t.mediumTerm| > 0 && m < i < p {
      assert IsEventFrom(cs[m + 1 + (i - m - 1)], t.mediumTerm[i - m - 1]);
    } else if i > p {
      var f := t.futureImpact.value;
      if |f.majorEvents| > 0 {
        assert IsEventFrom(cs[p + 1 + (i - p - 1)], f.majorEvents[i - p - 1]);
      }
    }
  }

  /** A summary entry appears iff `futureImpact` has no major events and a non-empty
      summary, and then right after the far-future header. */
  lemma SummaryOfFlattened(cs: seq<Consequence>, t: StructuredTimeline, i: int)
    requires FlattenedFrom(cs, t)
    requires 0 <= i < |cs|
    ensures cs[i].kind == Summary <==>
      && i == FutureStart(t) + 1
      && t.futureImpact.Some?
      && |t.futureImpact.value.majorEvents| == 0
      && t.futureImpact.value.summary != ""
  {
    var m := |t.immediate|;
    var p := FutureStart(t);
    if i < m {
      assert IsEventFrom(cs[0 + i], t.immediate[i]);
    } else if |t.mediumTerm| > 0 && m < i < p {
      assert IsEventFrom(cs[m + 1 + (i - m - 1)], t.mediumTerm[i - m - 1]);
    } else if i > p {
      var f := t.futureImpact.value;
      if |f.majorEvents| > 0 {
        assert IsEventFrom(cs[p + 1 + (i - p - 1)], f.majorEvents[i - p - 1]);
      }
    }
  }

  // ---------------------------------------------------------------------------
  // Drill-down history (`getDrillDownText`)
  // ---------------------------------------------------------------------------

  /** One line of the history: `- year: event` for an event, `- event` otherwise. */
  function HistoryLine(c: Consequence): string {
    if c.kind == Event then "- " + c.year + ": " + c.event else "- " + c.event
  }

  /** The history lines of the non-header entries, in order. */
  function HistoryLines(context: seq<Consequence>): (r: seq<string>)
    ensures |r| <= |context|
  {
    if context == [] then []
    else if context[0].kind == Event || context[0].kind == Summary then
      [HistoryLine(context[0])] + HistoryLines(context[1..])
    else HistoryLines(context[1..])
  }

  /** `historySoFar`: the history lines joined with line feeds. */
  function HistorySoFar(context: seq<Consequence>): string {
    Join(HistoryLines(context), "\n")
  }

  lemma {:induction false} HistoryLinesAppend(a: seq<Consequence>, b: seq<Consequence>)
    ensures HistoryLines(a + b) == HistoryLines(a) + HistoryLines(b)
  {
    if a == [] {
      assert a + b == b;
    } else {
      assert (a + b)[0] == a[0];
      assert (a + b)[1..] == a[1..] + b;
      HistoryLinesAppend(a[1..], b);
    }
  }

  /** The history grows entry by entry: a header adds nothing, an event or a summary adds
      its line, after a line feed unless it is the first line. Together with
      `HistorySoFar([]) == ""` this determines the history of every context. */
  lemma HistorySoFarAppend(context: seq<Consequence>, c: Consequence)
    ensures HistorySoFar(context + [c]) ==
      if c.kind == Header then HistorySoFar(context)
      else if HistoryLines(context) == [] then HistoryLine(c)
      else HistorySoFar(context) + "\n" + HistoryLine(c)
  {
    HistoryLinesAppend(context, [c]);
    assert HistoryLines([c]) == if c.kind == Header then [] else [HistoryLine(c)];
    if c.kind == Header {
      assert HistoryLines(context) + [] == HistoryLines(context);
    } else {
      JoinAppend(HistoryLines(context), HistoryLine(c), "\n");
    }
  }

  /** Every history line starts with "- ", so no line is empty and none is lost when
      the lines are joined. */
  lemma HistoryLinesMarked(context: seq<Consequence>, k: int)
    requires 0 <= k < |HistoryLines(context)|
    ensures |HistoryLines(context)[k]| >= 2 && HistoryLines(context)[k][..2] == "- "
  {
    if context != [] {
      if context[0].kind == Event || context[0].kind == Summary {
        if k > 0 {
          HistoryLinesMarked(context[1..], k - 1);
        }
      } else {
        HistoryLinesMarked(context[1..], k);
      }
    }
  }

  /** The drill-down request's fallback text when the call fails. */
  function DrillDownText(reply: Result<string>): (r: string)
    ensures reply.Ok? ==> r == reply.value
    ensures reply.Failure? ==> r == DrillDownFallback
  {
    if reply.Ok? then reply.value else DrillDownFallback
  }

  // ---------------------------------------------------------------------------
  // Commentary and images
  // ---------------------------------------------------------------------------

  /** `getCommentatorRemark`: the reply text, or a fixed line when the call fails. */
  function CommentatorRemark(reply: Result<string>): (r: string)
    ensures reply.Ok? ==> r == reply.value
    ensures reply.Failure? ==> r == CommentaryFallback
  {
    if reply.Ok? then reply.value else CommentaryFallback
  }

  /** `createSafeImagePrompt`: the rewritten prompt, trimmed, or the original event text
      unchanged when the rewrite fails. */
  function SafeImagePrompt(eventText: string, rewrite: Result<string>): (r: string)
    ensures rewrite.Failure? ==> r == eventText
    ensures rewrite.Ok? ==> r == Trim(rewrite.value)
    ensures rewrite.Ok? && r != [] ==> !IsSpace(r[0]) && !IsSpace(r[|r| - 1])
  {
    if rewrite.Ok? then Trim(rewrite.value) else eventText
  }

  /** The parts of the image-generation response the code reads. A missing
      `imageBytes` and an empty one are both `None`: both are falsy. */
  datatype Image = Image(imageBytes: Option<string>)
  datatype GeneratedImage = GeneratedImage(image: Option<Image>)
  datatype ImagesResponse = ImagesResponse(generatedImages: Option<seq<GeneratedImage>>)

  /** The bytes of the first generated image, when there are any. */
  function FirstImageBytes(response: ImagesResponse): (r: Option<string>)
    ensures r.Some? <==>
      && response.generatedImages.Some? && |response.generatedImages.value| > 0
      && response.generatedImages.value[0].image.Some?
      && response.generatedImages.value[0].image.value.imageBytes.Some?
      && response.generatedImages.value[0].image.value.imageBytes.value != ""
    ensures r.Some? ==> r == response.generatedImages.value[0].image.value.imageBytes
    ensures r.Some? ==> r.value != ""
  {
    match response.generatedImages
    case None => None
    case Some(images) =>
      if |images| > 0 && images[0].image.Some? && images[0].image.value.imageBytes.Some?
         && images[0].image.value.imageBytes.value != ""
      then Some(images[0].image.value.imageBytes.value)
      else None
  }

  /** What `generateImage` returns: a JPEG data URL when the first image has bytes,
      otherwise (no image, an empty one, or a failed call) the marker "error". */
  function ImageResult(response: Result<ImagesResponse>): (r: string)
    ensures r == ImageError <==> response.Failure? || FirstImageBytes(response.value).None?
    ensures r != ImageError ==>
      |r| > |JpegDataUrlPrefix| && r[..|JpegDataUrlPrefix|] == JpegDataUrlPrefix
  {
    if response.Ok? && FirstImageBytes(response.value).Some? then
      var r := JpegDataUrlPrefix + FirstImageBytes(response.value).value;
      assert r[0] == 'd';
      r
    else ImageError
  }

  /** The image bytes carried by a JPEG data URL. */
  function DataUrlBytes(url: string): Option<string> {
    if |url| >= |JpegDataUrlPrefix| && url[..|JpegDataUrlPrefix|] == JpegDataUrlPrefix
    then Some(url[|JpegDataUrlPrefix|..])
    else None
  }

  /** The image URL carries exactly the bytes of the first image: reading them back gives
      the bytes, and the "error" marker gives none. */
  lemma ImageResultRoundTrip(response: Result<ImagesResponse>)
    ensures DataUrlBytes(ImageResult(response)) ==
      if response.Ok? then FirstImageBytes(response.value) else None
  {
    var r := ImageResult(response);
    if response.Ok? && FirstImageBytes(response.value).Some? {
      var b := FirstImageBytes(response.value).value;
      assert r == JpegDataUrlPrefix + b;
      assert r[..|JpegDataUrlPrefix|] == JpegDataUrlPrefix;
      assert r[|JpegDataUrlPrefix|..] == b;
    } else {
      assert r == ImageError;
      assert |ImageError| < |JpegDataUrlPrefix|;
    }
  }
}
