/**
  The bookkeeping of `transcribe_and_diarize`: choosing the Whisper model,
  the "no speech" signal, the crop window each speaker embedding is taken
  from, the `SPEAKER k` labels, the record list and the display string.
  Whisper's segments and the clustering's labels are inputs.
 */
module Transcription {
  import opened Wrappers
  import opened Text
  import opened Clock

  /** A Whisper segment: offsets in seconds from the start of the audio, its
      text, and the speaker label once diarization has set it. */
  datatype Segment = Segment(start: real, end: real, text: string, speaker: Option<string>)

  /** The span of audio a speaker embedding is computed from. */
  datatype Window = Window(start: real, end: real)

  /** One `{time, speaker, text}` entry of the transcription list. */
  datatype Record = Record(time: real, speaker: string, text: string)

  /** `(None, None)` when Whisper found no speech, else the two results. */
  datatype Outcome = NoSpeech | Transcribed(records: seq<Record>, formatted: string)

  /** The name of the Whisper model to load: the English-only variant
      (`.en`) when the language is English and the size is not `large`. */
  function WhisperModelName(language: string, modelSize: string): (name: string)
    ensures modelSize <= name
    ensures name == modelSize <==> !(language == "English" && modelSize != "large")
    ensures name != modelSize ==> name[|modelSize|..] == ".en"
  {
    if language == "English" && modelSize != "large" then modelSize + ".en" else modelSize
  }

  /** The crop window of a segment: its start, and its end clamped to the
      duration of the audio file. */
  function CropWindow(segment: Segment, duration: real): (w: Window)
    ensures w.start == segment.start
    ensures w.end <= duration && w.end <= segment.end
    ensures w.end == duration || w.end == segment.end
  {
    Window(segment.start, if duration <= segment.end then duration else segment.end)
  }

  /** The windows the embedding loop crops, one per segment, in order. */
  method CropWindows(segments: seq<Segment>, duration: real) returns (windows: seq<Window>)
    ensures |windows| == |segments|
    ensures forall i | 0 <= i < |segments| ::
      windows[i].start == segments[i].start && windows[i].end <= duration && windows[i].end <= segments[i].end
    ensures forall i | 0 <= i < |segments| :: windows[i] == CropWindow(segments[i], duration)
  {
    windows := [];
    var i := 0;
    while i < |segments|
      invariant 0 <= i <= |segments|
      invariant |windows| == i
      invariant forall j | 0 <= j < i :: windows[j] == CropWindow(segments[j], duration)
    {
      windows := windows + [CropWindow(segments[i], duration)];
      i := i + 1;
    }
  }

  const SpeakerPrefix: string := "SPEAKER "

  /** The speaker number a label names, if it is of the form `SPEAKER <digits>`. */
  function SpeakerNumber(name: string): Option<nat> {
    if |SpeakerPrefix| < |name| && name[..|SpeakerPrefix|] == SpeakerPrefix
       && forall k | |SpeakerPrefix| <= k < |name| :: IsDigit(name[k])
    then Some(DigitsValue(name[|SpeakerPrefix|..]))
    else None
  }

  /** The label of cluster id `id`: speakers are numbered from 1. */
  function SpeakerName(id: nat): (name: string)
    ensures SpeakerNumber(name) == Some(id + 1)
  {
    var name := SpeakerPrefix + Decimal(id + 1);
    assert name[..|SpeakerPrefix|] == SpeakerPrefix;
    assert name[|SpeakerPrefix|..] == Decimal(id + 1);
    name
  }

  /** Two cluster ids get the same label only if they are the same id, so a
      change of label is a change of cluster. */
  lemma SpeakerNameInjective(a: nat, b: nat)
    ensures SpeakerName(a) == SpeakerName(b) <==> a == b
  {
    if SpeakerName(a) == SpeakerName(b) {
      assert SpeakerNumber(SpeakerName(a)) == Some(a + 1);
    }
  }

  /** The segments once every segment `i` is labelled from cluster id `labels[i]`. */
  function WithSpeakers(segments: seq<Segment>, labels: seq<nat>): (r: seq<Segment>)
    requires |labels| == |segments|
    ensures |r| == |segments|
    ensures forall i | 0 <= i < |r| ::
      r[i].start == segments[i].start && r[i].end == segments[i].end && r[i].text == segments[i].text
    ensures forall i | 0 <= i < |r| :: r[i].speaker.Some? && SpeakerNumber(r[i].speaker.value) == Some(labels[i] + 1)
  {
    seq(|segments|, i requires 0 <= i < |segments| => segments[i].(speaker := Some(SpeakerName(labels[i]))))
  }

  /** Cluster ids in `[0, n)` name speakers `1..n`. */
  lemma SpeakersInRange(segments: seq<Segment>, labels: seq<nat>, n: nat)
    requires |labels| == |segments|
    requires forall i | 0 <= i < |labels| :: labels[i] < n
    ensures forall i | 0 <= i < |segments| ::
      var k := SpeakerNumber(WithSpeakers(segments, labels)[i].speaker.value);
      k.Some? && 1 <= k.value <= n
  {
  }

  /** The label loop: sets the speaker of every segment in place. */
  method AssignSpeakers(segments: array<Segment>, labels: seq<nat>)
    requires |labels| == segments.Length
    modifies segments
    ensures segments[..] == WithSpeakers(old(segments[..]), labels)
  {
    var i := 0;
    while i < segments.Length
      invariant 0 <= i <= segments.Length
      invariant forall j | 0 <= j < i :: segments[j] == old(segments[j]).(speaker := Some(SpeakerName(labels[j])))
      invariant forall j | i <= j < segments.Length :: segments[j] == old(segments[j])
    {
      segments[i] := segments[i].(speaker := Some(SpeakerName(labels[i])));
      i := i + 1;
    }
  }

  /** Every segment carries a speaker label. */
  predicate Labelled(segments: seq<Segment>) {
    forall i | 0 <= i < |segments| :: segments[i].speaker.Some?
  }

  ghost predicate StartsSorted(segments: seq<Segment>) {
    forall i, j | 0 <= i <= j < |segments| :: segments[i].start <= segments[j].start
  }

  ghost predicate TimesSorted(records: seq<Record>) {
    forall i, j | 0 <= i <= j < |records| :: records[i].time <= records[j].time
  }

  /** The record of one labelled segment: timed from the recording start,
      with the stripped text. */
  function RecordOf(segment: Segment, origin: real): Record
    requires segment.speaker.Some?
  {
    Record(origin + segment.start, segment.speaker.value, Strip(segment.text))
  }

  /** Timing every segment from the same origin keeps their order. */
  lemma RecordTimesSorted(segments: seq<Segment>, origin: real, records: seq<Record>)
    requires Labelled(segments) && |records| == |segments|
    requires forall i | 0 <= i < |segments| :: records[i] == RecordOf(segments[i], origin)
    requires StartsSorted(segments)
    ensures TimesSorted(records)
  {
    forall i, j | 0 <= i <= j < |records|
      ensures records[i].time <= records[j].time
    {
      assert records[i].time == origin + segments[i].start;
      assert records[j].time == origin + segments[j].start;
    }
  }

  /** The record loop: one record per segment, in order. */
  method BuildRecords(segments: seq<Segment>, origin: real) returns (records: seq<Record>)
    requires Labelled(segments)
    ensures |records| == |segments|
    ensures forall i | 0 <= i < |segments| ::
      && records[i].time == origin + segments[i].start
      && records[i].speaker == segments[i].speaker.value
      && records[i].text == Strip(segments[i].text)
    ensures StartsSorted(segments) ==> TimesSorted(records)
  {
    records := [];
    var i := 0;
    while i < |segments|
      invariant 0 <= i <= |segments|
      invariant |records| == i
      invariant forall j | 0 <= j < i :: records[j] == RecordOf(segments[j], origin)
    {
      records := records + [RecordOf(segments[i], origin)];
      i := i + 1;
    }
    if StartsSorted(segments) {
      RecordTimesSorted(segments, origin, records);
    }
  }

  /** `text[1:]`: the text without its first character. */
  function DropFirst(text: string): (r: string)
    ensures text == [] ==> r == []
    ensures text != [] ==> text == [text[0]] + r
  {
    if text == [] then [] else text[1..]
  }

  /** The label a segment carries (every segment is labelled by the time the
      display is built). */
  function SpeakerOf(segment: Segment): string {
    if segment.speaker.Some? then segment.speaker.value else []
  }

  /** The concatenation of a sequence of sequences. */
  function Flatten<T>(xss: seq<seq<T>>): seq<T> {
    if xss == [] then [] else Flatten(xss[..|xss| - 1]) + xss[|xss| - 1]
  }

  lemma {:induction false} FlattenAppend<T>(a: seq<seq<T>>, b: seq<seq<T>>)
    ensures Flatten(a + b) == Flatten(a) + Flatten(b)
    decreases |b|
  {
    if b == [] {
      assert a + b == a;
    } else {
      var c := b[..|b| - 1];
      var y := b[|b| - 1];
      assert (a + b)[..|a + b| - 1] == a + c;
      assert (a + b)[|a + b| - 1] == y;
      FlattenAppend(a, c);
      calc {
        Flatten(a + b);
        Flatten(a + c) + y;
        (Flatten(a) + Flatten(c)) + y;
        Flatten(a) + (Flatten(c) + y);
      }
    }
  }

  /** A piece of the display string: a block header or one segment's text. */
  datatype Piece = Header(speaker: string, clock: string) | Body(text: string)

  /** A block header: a line of its own holding the speaker and the clock
      reading of the block's first segment. */
  function HeaderLine(speaker: string, clock: string): string {
    "\n" + speaker + " " + clock + "\n"
  }

  function RenderPiece(p: Piece): string {
    match p
    case Header(speaker, clock) => HeaderLine(speaker, clock)
    case Body(text) => text
  }

  /** The string a sequence of pieces prints as. */
  function Render(pieces: seq<Piece>): string {
    if pieces == [] then [] else RenderPiece(pieces[0]) + Render(pieces[1..])
  }

  lemma {:induction false} RenderAppend(a: seq<Piece>, b: seq<Piece>)
    ensures Render(a + b) == Render(a) + Render(b)
  {
    if a == [] {
      assert a + b == b;
    } else {
      assert (a + b)[0] == a[0] && (a + b)[1..] == a[1..] + b;
      RenderAppend(a[1..], b);
      calc {
        Render(a + b);
        RenderPiece(a[0]) + Render(a[1..] + b);
        RenderPiece(a[0]) + (Render(a[1..]) + Render(b));
        (RenderPiece(a[0]) + Render(a[1..])) + Render(b);
      }
    }
  }

  /** `strftime('%H:%M:%S')` of a timestamp; `Clock.HhMmSs` is the one the
      application uses. */
  type Strftime = real -> string

  /** The header of a block that starts at `segment`. */
  function HeaderOf(segment: Segment, origin: real, clock: Strftime): Piece {
    Header(SpeakerOf(segment), clock(origin + segment.start))
  }

  /** The text a segment contributes to the display string. */
  function BodyOf(segment: Segment): Piece {
    Body(DropFirst(segment.text) + " ")
  }

  /** Segment `i` opens a block: it is the first, or its speaker differs from
      the speaker of the segment before it. */
  predicate OpensBlock(segments: seq<Segment>, i: nat)
    requires i < |segments|
  {
    i == 0 || SpeakerOf(segments[i]) != SpeakerOf(segments[i - 1])
  }

  /** What iteration `i` of the display loop appends. */
  function StepPieces(segments: seq<Segment>, i: nat, origin: real, clock: Strftime): seq<Piece>
    requires i < |segments|
  {
    (if OpensBlock(segments, i) then [HeaderOf(segments[i], origin, clock)] else []) + [BodyOf(segments[i])]
  }

  /** What each iteration of the display loop appends, in order. */
  function Steps(segments: seq<Segment>, origin: real, clock: Strftime): seq<seq<Piece>> {
    seq(|segments|, i requires 0 <= i < |segments| => StepPieces(segments, i, origin, clock))
  }

  /** The pieces of the whole display string. */
  function Display(segments: seq<Segment>, origin: real, clock: Strftime): seq<Piece> {
    Flatten(Steps(segments, origin, clock))
  }

  /** Iteration `i` of the display loop, rendered. */
  lemma StepRender(segments: seq<Segment>, i: nat, origin: real, clock: Strftime)
    requires i < |segments|
    ensures Render(StepPieces(segments, i, origin, clock))
         == (if OpensBlock(segments, i) then HeaderLine(SpeakerOf(segments[i]), clock(origin + segments[i].start)) else [])
            + (DropFirst(segments[i].text) + " ")
  {
    var head := if OpensBlock(segments, i) then [HeaderOf(segments[i], origin, clock)] else [];
    var body := BodyOf(segments[i]);
    RenderAppend(head, [body]);
    assert Render([body]) == RenderPiece(body) by { assert [body][1..] == []; }
    if head != [] {
      assert Render(head) == RenderPiece(head[0]) by { assert head[1..] == []; }
    }
  }

  /** What the first `n` iterations of the display loop print. */
  function Printed(segments: seq<Segment>, n: nat, origin: real, clock: Strftime): string
    requires n <= |segments|
  {
    Render(Flatten(Steps(segments, origin, clock)[..n]))
  }

  /** Iteration `i` of the display loop appends `header + body` to what the
      first `i` iterations printed. */
  lemma RenderStep(segments: seq<Segment>, i: nat, origin: real, clock: Strftime, header: string, body: string)
    requires i < |segments|
    requires header == if OpensBlock(segments, i) then HeaderLine(SpeakerOf(segments[i]), clock(origin + segments[i].start)) else []
    requires body == DropFirst(segments[i].text) + " "
    ensures Printed(segments, i + 1, origin, clock) == Printed(segments, i, origin, clock) + (header + body)
  {
    var steps := Steps(segments, origin, clock);
    assert steps[..i + 1][..i] == steps[..i];
    RenderAppend(Flatten(steps[..i]), steps[i]);
    StepRender(segments, i, origin, clock);
  }

  /** The loop's test for a new block, on labelled segments and the
      previous segment's speaker, is `OpensBlock`. */
  lemma OpensBlockLabelled(segments: seq<Segment>, i: nat, previous: Option<string>)
    requires Labelled(segments) && i < |segments|
    requires i == 0 ==> previous == None
    requires i > 0 ==> previous == segments[i - 1].speaker
    ensures (i == 0 || Some(segments[i].speaker.value) != previous) == OpensBlock(segments, i)
  {
  }

  /** The display loop: accumulates the display string, carrying the
      previous speaker across iterations. */
  method FormatTranscript(segments: seq<Segment>, origin: real, clock: Strftime) returns (text: string)
    requires Labelled(segments)
    ensures text == Render(Display(segments, origin, clock))
  {
    text := [];
    var previous: Option<string> := None;
    var i := 0;
    while i < |segments|
      invariant 0 <= i <= |segments|
      invariant i == 0 ==> previous == None
      invariant i > 0 ==> previous == segments[i - 1].speaker
      invariant text == Printed(segments, i, origin, clock)
    {
      var segment := segments[i];
      var current := segment.speaker.value;
      var header := "";
      if i == 0 || Some(current) != previous {
        header := HeaderLine(current, clock(origin + segment.start));
      }
      var body := DropFirst(segment.text) + " ";
      OpensBlockLabelled(segments, i, previous);
      RenderStep(segments, i, origin, clock, header, body);
      text := text + (header + body);
      previous := Some(current);
      i := i + 1;
      // Stated at the new `i` so that the invariant is checked against this
      // term rather than re-derived from the loop body.
      assert text == Printed(segments, i, origin, clock);
    }
    assert Steps(segments, origin, clock)[..i] == Steps(segments, origin, clock);
  }

  /** The number of places where the speaker changes from one segment to the
      next. */
  function SpeakerChanges(segments: seq<Segment>): nat {
    if |segments| <= 1 then 0
    else
      SpeakerChanges(segments[..|segments| - 1])
      + (if SpeakerOf(segments[|segments| - 1]) != SpeakerOf(segments[|segments| - 2]) then 1 else 0)
  }

  /** The segments cut into maximal runs of one speaker: the blocks of the
      display. */
  function Blocks(segments: seq<Segment>): (blocks: seq<seq<Segment>>)
    ensures blocks == [] <==> segments == []
    ensures forall j | 0 <= j < |blocks| :: blocks[j] != []
    ensures segments != [] ==> Last(Last(blocks)) == Last(segments)
  {
    if segments == [] then []
    else
      var init := Blocks(segments[..|segments| - 1]);
      var x := Last(segments);
      if |segments| > 1 && SpeakerOf(x) == SpeakerOf(segments[|segments| - 2]) then
        init[..|init| - 1] + [Last(init) + [x]]
      else
        init + [[x]]
  }

  function Last<T>(s: seq<T>): T
    requires s != []
  {
    s[|s| - 1]
  }

  /** A non-empty sequence is its front followed by its last element. */
  lemma SnocLast<T>(s: seq<T>)
    requires s != []
    ensures s == s[..|s| - 1] + [Last(s)]
  {
  }

  lemma FlattenSnoc<T>(xss: seq<seq<T>>, ys: seq<T>)
    ensures Flatten(xss + [ys]) == Flatten(xss) + ys
  {
    assert (xss + [ys])[..|xss|] == xss;
  }

  /** Adding a segment to the run before it extends the last block; otherwise
      it starts a new one. */
  lemma BlocksSnoc(segments: seq<Segment>)
    requires segments != []
    ensures var init := Blocks(segments[..|segments| - 1]); var x := Last(segments);
      if OpensBlock(segments, |segments| - 1) then Blocks(segments) == init + [[x]]
      else init != [] && Blocks(segments) == init[..|init| - 1] + [Last(init) + [x]]
  {
  }

  /** Appending an element to a sequence, as a new last group or at the end
      of the last group, appends it to the concatenation. */
  lemma FlattenGrow<T>(xs: seq<T>, groups: seq<seq<T>>, grown: seq<seq<T>>)
    requires xs != [] && Flatten(groups) == xs[..|xs| - 1]
    requires || grown == groups + [[Last(xs)]]
             || (groups != [] && grown == groups[..|groups| - 1] + [Last(groups) + [Last(xs)]])
    ensures Flatten(grown) == xs
  {
    var x := Last(xs);
    SnocLast(xs);
    if grown == groups + [[x]] {
      FlattenSnoc(groups, [x]);
    } else {
      var front := groups[..|groups| - 1];
      var last := Last(groups);
      SnocLast(groups);
      FlattenSnoc(front, last);
      FlattenSnoc(front, last + [x]);
    }
  }

  /** Concatenating the blocks gives back the segments. */
  lemma {:induction false} BlocksFlatten(segments: seq<Segment>)
    ensures Flatten(Blocks(segments)) == segments
    decreases |segments|
  {
    if segments != [] {
      BlocksFlatten(segments[..|segments| - 1]);
      BlocksSnoc(segments);
      FlattenGrow(segments, Blocks(segments[..|segments| - 1]), Blocks(segments));
    }
  }

  /** Every segment of `block` has the speaker of its first segment. */
  predicate OneSpeaker(block: seq<Segment>)
    requires block != []
  {
    forall k | 0 <= k < |block| :: SpeakerOf(block[k]) == SpeakerOf(block[0])
  }

  /** Within each block every segment has the block's speaker, and
      neighbouring blocks have different speakers. */
  predicate Runs(blocks: seq<seq<Segment>>) {
    && (forall j | 0 <= j < |blocks| :: blocks[j] != [] && OneSpeaker(blocks[j]))
    && (forall j | 0 < j < |blocks| :: SpeakerOf(blocks[j][0]) != SpeakerOf(blocks[j - 1][0]))
  }

  /** A segment that follows `prev`, the last segment of the last block, keeps
      the blocks runs whether it starts a block or joins the last one. */
  lemma RunsGrow(blocks: seq<seq<Segment>>, grown: seq<seq<Segment>>, prev: Segment, x: Segment)
    requires blocks != [] && Runs(blocks) && Last(Last(blocks)) == prev
    requires || (SpeakerOf(x) != SpeakerOf(prev) && grown == blocks + [[x]])
             || (SpeakerOf(x) == SpeakerOf(prev) && grown == blocks[..|blocks| - 1] + [Last(blocks) + [x]])
    ensures Runs(grown)
  {
    var m := |blocks| - 1;
    var last := blocks[m];
    assert OneSpeaker(last);
    assert last[|last| - 1] == prev;
    if SpeakerOf(x) == SpeakerOf(prev) {
      assert grown[m] == last + [x];
      forall j | 0 <= j < |grown|
        ensures grown[j] != [] && OneSpeaker(grown[j])
      {
        if j < m {
          assert grown[j] == blocks[j];
        }
      }
      forall j | 0 < j < |grown|
        ensures SpeakerOf(grown[j][0]) != SpeakerOf(grown[j - 1][0])
      {
        assert grown[j - 1] == blocks[j - 1];
        assert grown[j][0] == blocks[j][0];
      }
    } else {
      forall j | 0 <= j < |grown|
        ensures grown[j] != [] && OneSpeaker(grown[j])
      {
        if j <= m {
          assert grown[j] == blocks[j];
        }
      }
      forall j | 0 < j < |grown|
        ensures SpeakerOf(grown[j][0]) != SpeakerOf(grown[j - 1][0])
      {
        assert grown[j - 1] == blocks[j - 1];
        if j <= m {
          assert grown[j] == blocks[j];
        }
      }
    }
  }

  /** The blocks are runs: maximal stretches of one speaker. */
  lemma {:induction false} BlocksRuns(segments: seq<Segment>)
    ensures Runs(Blocks(segments))
    decreases |segments|
  {
    if |segments| > 1 {
      var p := segments[..|segments| - 1];
      BlocksRuns(p);
      BlocksSnoc(segments);
      RunsGrow(Blocks(p), Blocks(segments), segments[|segments| - 2], Last(segments));
    }
  }

  /** There is one block more than there are speaker changes. */
  lemma {:induction false} BlocksCount(segments: seq<Segment>)
    requires segments != []
    ensures |Blocks(segments)| == 1 + SpeakerChanges(segments)
    decreases |segments|
  {
    if |segments| > 1 {
      BlocksCount(segments[..|segments| - 1]);
    }
  }

  /** The bodies of a run of segments, in order. */
  function Bodies(block: seq<Segment>): seq<Piece> {
    if block == [] then [] else Bodies(block[..|block| - 1]) + [BodyOf(Last(block))]
  }

  /** A block as displayed: one header for its first segment, then the body
      of every segment. */
  function BlockPieces(block: seq<Segment>, origin: real, clock: Strftime): seq<Piece>
    requires block != []
  {
    [HeaderOf(block[0], origin, clock)] + Bodies(block)
  }

  /** Blocks displayed one after the other. */
  function Grouped(blocks: seq<seq<Segment>>, origin: real, clock: Strftime): seq<Piece>
    requires forall j | 0 <= j < |blocks| :: blocks[j] != []
  {
    if blocks == [] then []
    else Grouped(blocks[..|blocks| - 1], origin, clock) + BlockPieces(Last(blocks), origin, clock)
  }

  /** The first `n` iterations of the display loop over `segments` are those
      over its first `n` segments. */
  lemma StepsPrefix(segments: seq<Segment>, n: nat, origin: real, clock: Strftime)
    requires n <= |segments|
    ensures Steps(segments, origin, clock)[..n] == Steps(segments[..n], origin, clock)
  {
    var p := segments[..n];
    forall i | 0 <= i < n
      ensures StepPieces(segments, i, origin, clock) == StepPieces(p, i, origin, clock)
    {
      assert segments[i] == p[i];
      if i > 0 {
        assert segments[i - 1] == p[i - 1];
      }
    }
  }

  /** The display of `segments` is that of all but its last segment followed
      by what the last iteration appends. */
  lemma DisplaySnoc(segments: seq<Segment>, origin: real, clock: Strftime)
    requires segments != []
    ensures Display(segments, origin, clock)
         == Display(segments[..|segments| - 1], origin, clock) + StepPieces(segments, |segments| - 1, origin, clock)
  {
    var n := |segments|;
    var steps := Steps(segments, origin, clock);
    StepsPrefix(segments, n - 1, origin, clock);
    assert steps[..n - 1] == steps[..|steps| - 1];
  }

  /** A new block shows a header and the body of its segment. */
  lemma GroupedNewBlock(blocks: seq<seq<Segment>>, x: Segment, origin: real, clock: Strftime)
    requires forall j | 0 <= j < |blocks| :: blocks[j] != []
    ensures Grouped(blocks + [[x]], origin, clock) == Grouped(blocks, origin, clock) + [HeaderOf(x, origin, clock), BodyOf(x)]
  {
    var b := blocks + [[x]];
    assert b[..|b| - 1] == blocks;
    assert Bodies([x]) == [BodyOf(x)] by { assert [x][..0] == []; }
  }

  /** A segment added to the last block shows only its body. */
  lemma GroupedExtend(blocks: seq<seq<Segment>>, x: Segment, origin: real, clock: Strftime)
    requires blocks != [] && forall j | 0 <= j < |blocks| :: blocks[j] != []
    ensures var m := |blocks| - 1;
      Grouped(blocks[..m] + [blocks[m] + [x]], origin, clock) == Grouped(blocks, origin, clock) + [BodyOf(x)]
  {
    var m := |blocks| - 1;
    var last := blocks[m];
    var b := blocks[..m] + [last + [x]];
    assert b[..|b| - 1] == blocks[..m];
    assert (last + [x])[..|last|] == last;
    assert Bodies(last + [x]) == Bodies(last) + [BodyOf(x)];
    assert (last + [x])[0] == last[0];
  }

  /** Grouping `segments` shows what grouping all but its last segment shows,
      followed by what the last iteration of the display loop appends. */
  lemma GroupedSnoc(segments: seq<Segment>, origin: real, clock: Strftime)
    requires segments != []
    ensures Grouped(Blocks(segments), origin, clock)
         == Grouped(Blocks(segments[..|segments| - 1]), origin, clock) + StepPieces(segments, |segments| - 1, origin, clock)
  {
    var n := |segments|;
    var init := Blocks(segments[..n - 1]);
    var x := Last(segments);
    BlocksSnoc(segments);
    if OpensBlock(segments, n - 1) {
      assert StepPieces(segments, n - 1, origin, clock) == [HeaderOf(x, origin, clock), BodyOf(x)];
      GroupedNewBlock(init, x, origin, clock);
    } else {
      assert StepPieces(segments, n - 1, origin, clock) == [BodyOf(x)];
      GroupedExtend(init, x, origin, clock);
    }
  }

  /** The display loop prints the segments block by block: a header for each
      run of one speaker, followed by the bodies of the run's segments. */
  lemma {:induction false} DisplayGrouped(segments: seq<Segment>, origin: real, clock: Strftime)
    ensures Display(segments, origin, clock) == Grouped(Blocks(segments), origin, clock)
    decreases |segments|
  {
    if segments != [] {
      DisplayGrouped(segments[..|segments| - 1], origin, clock);
      DisplaySnoc(segments, origin, clock);
      GroupedSnoc(segments, origin, clock);
    }
  }

  /** The header pieces of a display, in order. */
  function HeadersOf(pieces: seq<Piece>): seq<Piece> {
    if pieces == [] then []
    else HeadersOf(pieces[..|pieces| - 1]) + (if Last(pieces).Header? then [Last(pieces)] else [])
  }

  /** The body texts of a display, in order. */
  function BodiesOf(pieces: seq<Piece>): seq<string> {
    if pieces == [] then []
    else BodiesOf(pieces[..|pieces| - 1]) + (if Last(pieces).Body? then [Last(pieces).text] else [])
  }

  lemma {:induction false} HeadersBodiesAppend(a: seq<Piece>, b: seq<Piece>)
    ensures HeadersOf(a + b) == HeadersOf(a) + HeadersOf(b)
    ensures BodiesOf(a + b) == BodiesOf(a) + BodiesOf(b)
    decreases |b|
  {
    if b == [] {
      assert a + b == a;
    } else {
      var c := b[..|b| - 1];
      assert (a + b)[..|a + b| - 1] == a + c;
      HeadersBodiesAppend(a, c);
    }
  }

  /** The text every segment of `segments` contributes, in order: its raw
      text without the first character, then a space. */
  function BodyTexts(segments: seq<Segment>): (texts: seq<string>)
    ensures |texts| == |segments|
  {
    seq(|segments|, i requires 0 <= i < |segments| => DropFirst(segments[i].text) + " ")
  }

  lemma BodyTextsAppend(a: seq<Segment>, b: seq<Segment>)
    ensures BodyTexts(a + b) == BodyTexts(a) + BodyTexts(b)
  {
  }

  /** The pieces of a block's bodies are bodies, one per segment. */
  lemma {:induction false} BodiesPieces(block: seq<Segment>)
    ensures HeadersOf(Bodies(block)) == []
    ensures BodiesOf(Bodies(block)) == BodyTexts(block)
    decreases |block|
  {
    if block != [] {
      var p := block[..|block| - 1];
      var body := BodyOf(Last(block));
      BodiesPieces(p);
      HeadersBodiesAppend(Bodies(p), [body]);
      assert HeadersOf([body]) == [] && BodiesOf([body]) == [body.text] by {
        assert [body][..0] == [];
      }
      SnocLast(block);
      BodyTextsAppend(p, [Last(block)]);
    }
  }

  /** The header of every block, in order. */
  function FirstHeaders(blocks: seq<seq<Segment>>, origin: real, clock: Strftime): seq<Piece>
    requires forall j | 0 <= j < |blocks| :: blocks[j] != []
  {
    seq(|blocks|, j requires 0 <= j < |blocks| => HeaderOf(blocks[j][0], origin, clock))
  }

  lemma FirstHeadersSnoc(blocks: seq<seq<Segment>>, origin: real, clock: Strftime)
    requires blocks != [] && forall j | 0 <= j < |blocks| :: blocks[j] != []
    ensures FirstHeaders(blocks, origin, clock)
         == FirstHeaders(blocks[..|blocks| - 1], origin, clock) + [HeaderOf(Last(blocks)[0], origin, clock)]
  {
  }

  /** Grouped blocks show one header per block, for the block's first
      segment. */
  lemma {:induction false} GroupedHeaders(blocks: seq<seq<Segment>>, origin: real, clock: Strftime)
    requires forall j | 0 <= j < |blocks| :: blocks[j] != []
    ensures HeadersOf(Grouped(blocks, origin, clock)) == FirstHeaders(blocks, origin, clock)
    decreases |blocks|
  {
    if blocks != [] {
      var front := blocks[..|blocks| - 1];
      var block := Last(blocks);
      GroupedHeaders(front, origin, clock);
      BlockHeaders(block, origin, clock);
      HeadersBodiesAppend(Grouped(front, origin, clock), BlockPieces(block, origin, clock));
      FirstHeadersSnoc(blocks, origin, clock);
    }
  }

  /** A block shows exactly one header, and the bodies of its segments. */
  lemma BlockHeaders(block: seq<Segment>, origin: real, clock: Strftime)
    requires block != []
    ensures HeadersOf(BlockPieces(block, origin, clock)) == [HeaderOf(block[0], origin, clock)]
    ensures BodiesOf(BlockPieces(block, origin, clock)) == BodyTexts(block)
  {
    var header := HeaderOf(block[0], origin, clock);
    HeadersBodiesAppend([header], Bodies(block));
    assert [header][..0] == [];
    BodiesPieces(block);
  }

  /** Grouped blocks show the bodies of all their segments, in order. */
  lemma {:induction false} GroupedBodies(blocks: seq<seq<Segment>>, origin: real, clock: Strftime)
    requires forall j | 0 <= j < |blocks| :: blocks[j] != []
    ensures BodiesOf(Grouped(blocks, origin, clock)) == BodyTexts(Flatten(blocks))
    decreases |blocks|
  {
    if blocks != [] {
      var front := blocks[..|blocks| - 1];
      var block := Last(blocks);
      SnocLast(blocks);
      calc {
        BodiesOf(Grouped(blocks, origin, clock));
        BodiesOf(Grouped(front, origin, clock) + BlockPieces(block, origin, clock));
        { HeadersBodiesAppend(Grouped(front, origin, clock), BlockPieces(block, origin, clock)); }
        BodiesOf(Grouped(front, origin, clock)) + BodiesOf(BlockPieces(block, origin, clock));
        { GroupedBodies(front, origin, clock); BlockHeaders(block, origin, clock); }
        BodyTexts(Flatten(front)) + BodyTexts(block);
        { BodyTextsAppend(Flatten(front), block); }
        BodyTexts(Flatten(front) + block);
        { FlattenSnoc(front, block); }
        BodyTexts(Flatten(blocks));
      }
    }
  }

  /** The display shows one header per run of one speaker, that is one more
      than the number of speaker changes, each for the run's first segment. */
  lemma DisplayHeaders(segments: seq<Segment>, origin: real, clock: Strftime)
    ensures HeadersOf(Display(segments, origin, clock)) == FirstHeaders(Blocks(segments), origin, clock)
    ensures |HeadersOf(Display(segments, origin, clock))| == if segments == [] then 0 else 1 + SpeakerChanges(segments)
  {
    DisplayGrouped(segments, origin, clock);
    GroupedHeaders(Blocks(segments), origin, clock);
    if segments != [] {
      BlocksCount(segments);
    }
  }

  /** Every segment contributes its raw text without the first character and
      a space, in segment order. */
  lemma DisplayBodies(segments: seq<Segment>, origin: real, clock: Strftime)
    ensures BodiesOf(Display(segments, origin, clock)) == BodyTexts(segments)
  {
    DisplayGrouped(segments, origin, clock);
    GroupedBodies(Blocks(segments), origin, clock);
    BlocksFlatten(segments);
  }

  /** The records of the labelled segments, stated on Whisper's segments and
      the cluster ids. */
  lemma LabelledRecords(whisperSegments: seq<Segment>, labels: seq<nat>, origin: real, records: seq<Record>)
    requires |labels| == |whisperSegments|
    requires var labelled := WithSpeakers(whisperSegments, labels);
      && |records| == |labelled|
      && forall i | 0 <= i < |labelled| ::
           && records[i].time == origin + labelled[i].start
           && records[i].speaker == labelled[i].speaker.value
           && records[i].text == Strip(labelled[i].text)
    ensures forall i | 0 <= i < |whisperSegments| ::
      && records[i].time == origin + whisperSegments[i].start
      && records[i].speaker == SpeakerName(labels[i])
      && records[i].text == Strip(whisperSegments[i].text)
  {
  }

  /** `transcribe_and_diarize`, given what Whisper transcribed, the duration
      of the audio file and, when there is speech, the cluster id of every
      segment. The Whisper model is picked from the language and size; with
      no segments there is no speech and nothing else happens; otherwise each
      segment is cropped to the file, labelled with its speaker, recorded and
      displayed. */
  method TranscribeAndDiarize(language: string, modelSize: string, whisperSegments: seq<Segment>,
                              duration: real, labels: seq<nat>, origin: real)
    returns (modelName: string, windows: seq<Window>, outcome: Outcome)
    requires whisperSegments != [] ==> |labels| == |whisperSegments|
    ensures modelName == WhisperModelName(language, modelSize)
    ensures outcome == NoSpeech <==> whisperSegments == []
    ensures |windows| == |whisperSegments|
    ensures forall i | 0 <= i < |windows| :: windows[i] == CropWindow(whisperSegments[i], duration)
    ensures outcome.Transcribed? ==>
      && |outcome.records| == |whisperSegments|
      && forall i | 0 <= i < |whisperSegments| ::
           && outcome.records[i].time == origin + whisperSegments[i].start
           && outcome.records[i].speaker == SpeakerName(labels[i])
           && outcome.records[i].text == Strip(whisperSegments[i].text)
    ensures outcome.Transcribed? ==>
      outcome.formatted == Render(Display(WithSpeakers(whisperSegments, labels), origin, HhMmSs))
  {
    modelName := WhisperModelName(language, modelSize);
    if whisperSegments == [] {
      windows := [];
      outcome := NoSpeech;
      return;
    }
    windows := CropWindows(whisperSegments, duration);
    var segments := new Segment[|whisperSegments|](i requires 0 <= i < |whisperSegments| => whisperSegments[i]);
    assert segments[..] == whisperSegments;
    AssignSpeakers(segments, labels);
    var labelled := segments[..];
    var records := BuildRecords(labelled, origin);
    LabelledRecords(whisperSegments, labels, origin, records);
    var formatted := FormatTranscript(labelled, origin, HhMmSs);
    outcome := Transcribed(records, formatted);
  }
}
