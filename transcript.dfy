/**
 * The per-segment render loops of both scripts: each segment becomes one
 * `[start - end] ...` line of the .txt output and one numbered cue of the
 * .srt output. The speaker script first aligns segments with speaker labels
 * by position; the plain script has no speaker field.
 */
module Transcript {
  import opened Wrappers
  import opened PyStr
  import opened Timestamp
  import opened Speakers

  /** One transcription segment; `start` and `end` in whole milliseconds. */
  datatype Segment = Segment(start: nat, end: nat, text: string)

  /** A segment joined with the speaker label it was given. */
  datatype AlignedSegment = AlignedSegment(segment: Segment, speaker: int)

  /** The .txt and .srt contents rendered for one file. */
  datatype Rendered = Rendered(txt: string, srt: string)

  // ---------------------------------------------------------------------------
  // Accumulation with +=
  // ---------------------------------------------------------------------------

  /** The string `""` followed by every part in order, as repeated `+=` builds it. */
  function Concat(parts: seq<string>): string
  {
    if parts == [] then "" else Concat(parts[..|parts| - 1]) + parts[|parts| - 1]
  }

  lemma ConcatSnoc(parts: seq<string>, last: string)
    ensures Concat(parts + [last]) == Concat(parts) + last
  {
    assert (parts + [last])[..|parts|] == parts;
  }

  lemma {:induction false} ConcatAppend(a: seq<string>, b: seq<string>)
    ensures Concat(a + b) == Concat(a) + Concat(b)
    decreases |b|
  {
    if b != [] {
      var init := b[..|b| - 1];
      assert a + b == (a + init) + [b[|b| - 1]];
      ConcatSnoc(a + init, b[|b| - 1]);
      ConcatAppend(a, init);
      ConcatSnoc(init, b[|b| - 1]);
      assert b == init + [b[|b| - 1]];
    } else {
      assert a + b == a;
    }
  }

  // ---------------------------------------------------------------------------
  // Segment-to-speaker alignment (speaker script)
  // ---------------------------------------------------------------------------

  /**
   * Segment `i` takes the label at `min(i, len(labels) - 1)`. The lookup
   * raises only when there is a segment but no label at all.
   */
  function Align(segments: seq<Segment>, labels: seq<int>): (r: Option<seq<AlignedSegment>>)
    ensures r.None? <==> |segments| > 0 && |labels| == 0
    ensures r.Some? ==> |r.value| == |segments|
    ensures r.Some? ==> forall i :: 0 <= i < |segments| ==>
      && r.value[i].segment == segments[i]
      && (i < |labels| ==> r.value[i].speaker == labels[i])
      && (i >= |labels| ==> r.value[i].speaker == labels[|labels| - 1])
  {
    if |segments| > 0 && |labels| == 0 then None
    else Some(seq(|segments|, i requires 0 <= i < |segments| =>
                AlignedSegment(segments[i], SegmentLabel(labels, i).value)))
  }

  /** Aligning one more segment appends it, paired with its positional label. */
  lemma AlignSnoc(segments: seq<Segment>, labels: seq<int>, i: nat)
    requires i < |segments| && |labels| > 0
    ensures Align(segments[..i + 1], labels)
         == Some(Align(segments[..i], labels).value + [AlignedSegment(segments[i], SegmentLabel(labels, i).value)])
  {
    var longer := Align(segments[..i + 1], labels).value;
    var shorter := Align(segments[..i], labels).value;
    var next := AlignedSegment(segments[i], SegmentLabel(labels, i).value);
    forall k | 0 <= k < i + 1
      ensures longer[k] == (shorter + [next])[k]
    {
      if k < i {
        assert segments[..i + 1][k] == segments[..i][k];
      }
    }
    assert |longer| == |shorter + [next]|;
    assert longer == shorter + [next];
  }

  // ---------------------------------------------------------------------------
  // One segment's output, as the f-strings of the two scripts write it
  // ---------------------------------------------------------------------------

  function SpeakerTxtLine(a: AlignedSegment): string
  {
    "[" + FormatTimestampSrt(a.segment.start) + " - " + FormatTimestampSrt(a.segment.end) + "] "
      + SpeakerName(a.speaker) + ": " + Strip(a.segment.text) + "\n"
  }

  function SpeakerCue(counter: nat, a: AlignedSegment): string
  {
    NatToString(counter) + "\n"
      + FormatTimestampSrt(a.segment.start) + " --> " + FormatTimestampSrt(a.segment.end) + "\n"
      + SpeakerName(a.speaker) + ": " + Strip(a.segment.text) + "\n\n"
  }

  function PlainTxtLine(s: Segment): string
  {
    "[" + FormatTimestampSrt(s.start) + " - " + FormatTimestampSrt(s.end) + "]: " + Strip(s.text) + "\n"
  }

  function PlainCue(counter: nat, s: Segment): string
  {
    NatToString(counter) + "\n"
      + FormatTimestampSrt(s.start) + " --> " + FormatTimestampSrt(s.end) + "\n"
      + Strip(s.text) + "\n\n"
  }

  // ---------------------------------------------------------------------------
  // Whole-file outputs
  // ---------------------------------------------------------------------------

  /** One rendered line per item, in order. */
  function LineList<T>(items: seq<T>, render: T -> string): (lines: seq<string>)
    ensures |lines| == |items|
  {
    if items == [] then []
    else LineList(items[..|items| - 1], render) + [render(items[|items| - 1])]
  }

  /** One rendered cue per item, in order, the cue of item `k` numbered `first + k`. */
  function CueList<T>(items: seq<T>, first: nat, render: (nat, T) -> string): (cues: seq<string>)
    ensures |cues| == |items|
  {
    if items == [] then []
    else CueList(items[..|items| - 1], first, render) + [render(first + |items| - 1, items[|items| - 1])]
  }

  /** `s[..i + 1]` is `s[..i]` with `s[i]` appended. */
  lemma SliceSnoc<T>(s: seq<T>, i: nat)
    requires i < |s|
    ensures s[..i + 1] == s[..i] + [s[i]]
  {
  }

  lemma LineListSnoc<T>(items: seq<T>, next: T, render: T -> string)
    ensures LineList(items + [next], render) == LineList(items, render) + [render(next)]
  {
    assert (items + [next])[..|items|] == items;
  }

  lemma CueListSnoc<T>(items: seq<T>, first: nat, next: T, render: (nat, T) -> string)
    ensures CueList(items + [next], first, render) == CueList(items, first, render) + [render(first + |items|, next)]
  {
    assert (items + [next])[..|items|] == items;
  }

  /** Line `i` is item `i` rendered. */
  lemma {:induction false} LineListAt<T>(items: seq<T>, render: T -> string, i: nat)
    requires i < |items|
    ensures LineList(items, render)[i] == render(items[i])
    decreases |items|
  {
    var init := items[..|items| - 1];
    if i < |init| {
      LineListAt(init, render, i);
    }
  }

  /** Cue `i` is item `i` rendered with number `first + i`. */
  lemma {:induction false} CueListAt<T>(items: seq<T>, first: nat, render: (nat, T) -> string, i: nat)
    requires i < |items|
    ensures CueList(items, first, render)[i] == render(first + i, items[i])
    decreases |items|
  {
    var init := items[..|items| - 1];
    if i < |init| {
      CueListAt(init, first, render, i);
    }
  }

  lemma {:induction false} LineListAppend<T>(a: seq<T>, b: seq<T>, render: T -> string)
    ensures LineList(a + b, render) == LineList(a, render) + LineList(b, render)
    decreases |b|
  {
    if b == [] {
      assert a + b == a;
    } else {
      var init := b[..|b| - 1];
      assert (a + b)[..|a + b| - 1] == a + init;
      assert (a + b)[|a + b| - 1] == b[|b| - 1];
      LineListAppend(a, init, render);
    }
  }

  /** The numbering runs on: the cues of `a + b` are `a`'s, then `b`'s from `first + |a|`. */
  lemma {:induction false} CueListAppend<T>(a: seq<T>, b: seq<T>, first: nat, render: (nat, T) -> string)
    ensures CueList(a + b, first, render) == CueList(a, first, render) + CueList(b, first + |a|, render)
    decreases |b|
  {
    if b == [] {
      assert a + b == a;
    } else {
      var init := b[..|b| - 1];
      assert (a + b)[..|a + b| - 1] == a + init;
      assert (a + b)[|a + b| - 1] == b[|b| - 1];
      CueListAppend(a, init, first, render);
    }
  }

  /** The .txt and .srt contents for segments already paired with their speakers. */
  function RenderAligned(aligned: seq<AlignedSegment>): Rendered
  {
    Rendered(Concat(LineList(aligned, SpeakerTxtLine)), Concat(CueList(aligned, 1, SpeakerCue)))
  }

  /** What the speaker script's loop leaves in `final_text` and `srt_content`. */
  function SpeakerRendering(segments: seq<Segment>, labels: seq<int>): Result<Rendered>
  {
    match Align(segments, labels)
    case None => Failure(EMPTY_LABELS_ERROR)
    case Some(aligned) => Success(RenderAligned(aligned))
  }

  /** One more segment appends its line to the .txt and its cue, numbered next, to the .srt. */
  lemma RenderAlignedSnoc(aligned: seq<AlignedSegment>, next: AlignedSegment)
    ensures RenderAligned(aligned + [next])
         == Rendered(RenderAligned(aligned).txt + SpeakerTxtLine(next),
                     RenderAligned(aligned).srt + SpeakerCue(|aligned| + 1, next))
  {
    LineListSnoc(aligned, next, SpeakerTxtLine);
    CueListSnoc(aligned, 1, next, SpeakerCue);
    ConcatSnoc(LineList(aligned, SpeakerTxtLine), SpeakerTxtLine(next));
    ConcatSnoc(CueList(aligned, 1, SpeakerCue), SpeakerCue(|aligned| + 1, next));
  }

  /** What the plain script's loop leaves in `final_text` and `srt_content`. */
  function PlainRendering(segments: seq<Segment>): Rendered
  {
    Rendered(Concat(LineList(segments, PlainTxtLine)), Concat(CueList(segments, 1, PlainCue)))
  }

  /** One more segment appends its line to the .txt and its cue, numbered next, to the .srt. */
  lemma PlainRenderingSnoc(segments: seq<Segment>, next: Segment)
    ensures PlainRendering(segments + [next])
         == Rendered(PlainRendering(segments).txt + PlainTxtLine(next),
                     PlainRendering(segments).srt + PlainCue(|segments| + 1, next))
  {
    LineListSnoc(segments, next, PlainTxtLine);
    CueListSnoc(segments, 1, next, PlainCue);
    ConcatSnoc(LineList(segments, PlainTxtLine), PlainTxtLine(next));
    ConcatSnoc(CueList(segments, 1, PlainCue), PlainCue(|segments| + 1, next));
  }

  // ---------------------------------------------------------------------------
  // The render loops
  // ---------------------------------------------------------------------------

  /**
   * The body of the speaker script's segment loop for one segment: format
   * both times, strip the text, name the speaker, and build the .txt line and
   * the numbered .srt cue.
   */
  method SpeakerSegmentOutput(segment: Segment, speakerLabel: int, srtCounter: nat) returns (line: string, cue: string)
    ensures line == SpeakerTxtLine(AlignedSegment(segment, speakerLabel))
    ensures cue == SpeakerCue(srtCounter, AlignedSegment(segment, speakerLabel))
    ensures LineTimes(line) == Some((segment.start, segment.end))
    ensures CueHeader(cue) == Some((srtCounter, segment.start, segment.end))
  {
    var startSrt := FormatTimestampSrt(segment.start);
    var endSrt := FormatTimestampSrt(segment.end);
    var text := Strip(segment.text);
    var speaker := SpeakerName(speakerLabel);
    line := "[" + startSrt + " - " + endSrt + "] " + speaker + ": " + text + "\n";
    cue := NatToString(srtCounter) + "\n" + startSrt + " --> " + endSrt + "\n" + speaker + ": " + text + "\n\n";
    SpeakerTxtLineTimes(AlignedSegment(segment, speakerLabel));
    SpeakerCueHeader(srtCounter, AlignedSegment(segment, speakerLabel));
  }

  /**
   * The speaker script's segment loop: for each segment in order, look up its
   * label by position, append its line and its cue, advance the cue counter.
   */
  method RenderWithSpeakers(segments: seq<Segment>, speakerLabels: seq<int>) returns (r: Result<Rendered>)
    ensures r == SpeakerRendering(segments, speakerLabels)
    ensures r.Failure? <==> |segments| > 0 && |speakerLabels| == 0
  {
    var finalText := "";
    var srtContent := "";
    var srtCounter: nat := 1;
    ghost var aligned: seq<AlignedSegment> := [];
    var i := 0;
    while i < |segments|
      invariant 0 <= i <= |segments|
      invariant i > 0 ==> |speakerLabels| > 0
      invariant srtCounter == i + 1
      invariant Align(segments[..i], speakerLabels) == Some(aligned)
      invariant Rendered(finalText, srtContent) == RenderAligned(aligned)
    {
      var speakerIdx := SegmentLabel(speakerLabels, i);
      if speakerIdx.None? {
        return Failure(EMPTY_LABELS_ERROR);
      }
      var line, cue := SpeakerSegmentOutput(segments[i], speakerIdx.value, srtCounter);
      ghost var next := AlignedSegment(segments[i], speakerIdx.value);
      AlignSnoc(segments, speakerLabels, i);
      RenderAlignedSnoc(aligned, next);
      finalText := finalText + line;
      srtContent := srtContent + cue;
      srtCounter := srtCounter + 1;
      aligned := aligned + [next];
      i := i + 1;
    }
    assert segments[..i] == segments;
    r := Success(Rendered(finalText, srtContent));
  }

  /** The plain script's loop body for one segment: the same, without a speaker field. */
  method PlainSegmentOutput(segment: Segment, srtCounter: nat) returns (line: string, cue: string)
    ensures line == PlainTxtLine(segment)
    ensures cue == PlainCue(srtCounter, segment)
    ensures LineTimes(line) == Some((segment.start, segment.end))
    ensures CueHeader(cue) == Some((srtCounter, segment.start, segment.end))
  {
    var startSrt := FormatTimestampSrt(segment.start);
    var endSrt := FormatTimestampSrt(segment.end);
    var text := Strip(segment.text);
    line := "[" + startSrt + " - " + endSrt + "]: " + text + "\n";
    cue := NatToString(srtCounter) + "\n" + startSrt + " --> " + endSrt + "\n" + text + "\n\n";
    PlainTxtLineTimes(segment);
    PlainCueHeader(srtCounter, segment);
  }

  /** The plain script's segment loop. */
  method RenderPlain(segments: seq<Segment>) returns (r: Rendered)
    ensures r == PlainRendering(segments)
  {
    var finalText := "";
    var srtContent := "";
    var srtCounter: nat := 1;
    var i := 0;
    while i < |segments|
      invariant 0 <= i <= |segments|
      invariant srtCounter == i + 1
      invariant Rendered(finalText, srtContent) == PlainRendering(segments[..i])
    {
      var line, cue := PlainSegmentOutput(segments[i], srtCounter);
      SliceSnoc(segments, i);
      PlainRenderingSnoc(segments[..i], segments[i]);
      finalText := finalText + line;
      srtContent := srtContent + cue;
      srtCounter := srtCounter + 1;
      i := i + 1;
    }
    assert segments[..i] == segments;
    r := Rendered(finalText, srtContent);
  }

  // ---------------------------------------------------------------------------
  // Reading a line or a cue back
  // ---------------------------------------------------------------------------

  /** The start and end time of a `[start - end]...` line. */
  function LineTimes(line: string): Option<(nat, nat)>
  {
    var afterBracket :- DropPrefix(line, "[");
    var startRest :- SplitFirst(afterBracket, ' ');
    var afterDash :- DropPrefix(startRest.1, "- ");
    var endRest :- SplitFirst(afterDash, ']');
    var start :- ParseTimestampSrt(startRest.0);
    var end :- ParseTimestampSrt(endRest.0);
    Some((start, end))
  }

  /** The start and end time of a cue's timing line `start --> end\n...`. */
  function CueTimes(timing: string): Option<(nat, nat)>
  {
    var startRest :- SplitFirst(timing, ' ');
    var afterArrow :- DropPrefix(startRest.1, "--> ");
    var endRest :- SplitFirst(afterArrow, '\n');
    var start :- ParseTimestampSrt(startRest.0);
    var end :- ParseTimestampSrt(endRest.0);
    Some((start, end))
  }

  /** The number, start and end time heading a cue `n\nstart --> end\n...`. */
  function CueHeader(cue: string): Option<(nat, nat, nat)>
  {
    var numberRest :- SplitFirst(cue, '\n');
    var number :- ParseNat(numberRest.0);
    var times :- CueTimes(numberRest.1);
    Some((number, times.0, times.1))
  }

  /** Any line `"[" + a + " - " + b + "]" + rest` reads back as the times `a` and `b` spell. */
  lemma LineTimesOfParts(a: string, b: string, rest: string, start: nat, end: nat)
    requires ' ' !in a && ']' !in b
    requires ParseTimestampSrt(a) == Some(start) && ParseTimestampSrt(b) == Some(end)
    ensures LineTimes("[" + a + " - " + b + "]" + rest) == Some((start, end))
  {
    var afterDash := b + [']'] + rest;
    var afterStart := "- " + afterDash;
    var afterBracket := a + [' '] + afterStart;
    assert " - " + b + "]" + rest == [' '] + afterStart;
    assert "[" + a + " - " + b + "]" + rest == "[" + afterBracket;
    DropPrefixOfJoin("[", afterBracket);
    SplitFirstOfJoin(a, ' ', afterStart);
    DropPrefixOfJoin("- ", afterDash);
    SplitFirstOfJoin(b, ']', rest);
  }

  /** Any line `"[" + start + " - " + end + "]" + rest` reads back as its two times. */
  lemma LineTimesOf(s: Segment, rest: string)
    ensures LineTimes("[" + FormatTimestampSrt(s.start) + " - " + FormatTimestampSrt(s.end) + "]" + rest)
         == Some((s.start, s.end))
  {
    FormatAlphabet(s.start, ' ');
    FormatAlphabet(s.end, ']');
    ParseFormatRoundTrip(s.start);
    ParseFormatRoundTrip(s.end);
    LineTimesOfParts(FormatTimestampSrt(s.start), FormatTimestampSrt(s.end), rest, s.start, s.end);
  }

  lemma CueTimesOfParts(a: string, b: string, rest: string, start: nat, end: nat)
    requires ' ' !in a && '\n' !in b
    requires ParseTimestampSrt(a) == Some(start) && ParseTimestampSrt(b) == Some(end)
    ensures CueTimes(a + " --> " + b + "\n" + rest) == Some((start, end))
  {
    var afterArrow := b + ['\n'] + rest;
    var afterStart := "--> " + afterArrow;
    assert a + " --> " + b + "\n" + rest == a + [' '] + afterStart;
    SplitFirstOfJoin(a, ' ', afterStart);
    DropPrefixOfJoin("--> ", afterArrow);
    SplitFirstOfJoin(b, '\n', rest);
  }

  /** Any cue `n + "\n" + a + " --> " + b + "\n" + rest` reads back as its header. */
  lemma CueHeaderOfParts(n: string, a: string, b: string, rest: string, counter: nat, start: nat, end: nat)
    requires '\n' !in n && ' ' !in a && '\n' !in b
    requires ParseNat(n) == Some(counter)
    requires ParseTimestampSrt(a) == Some(start) && ParseTimestampSrt(b) == Some(end)
    ensures CueHeader(n + "\n" + a + " --> " + b + "\n" + rest) == Some((counter, start, end))
  {
    var timing := a + " --> " + b + "\n" + rest;
    assert n + "\n" + a + " --> " + b + "\n" + rest == n + ['\n'] + timing;
    SplitFirstOfJoin(n, '\n', timing);
    CueTimesOfParts(a, b, rest, start, end);
  }

  /** Any cue `counter + "\n" + start + " --> " + end + "\n" + rest` reads back as its header. */
  lemma CueHeaderOf(counter: nat, s: Segment, rest: string)
    ensures CueHeader(NatToString(counter) + "\n" + FormatTimestampSrt(s.start) + " --> "
                        + FormatTimestampSrt(s.end) + "\n" + rest)
         == Some((counter, s.start, s.end))
  {
    NoSeparatorInDigits(NatToString(counter), '\n');
    DigitsValueOfNatToString(counter);
    FormatAlphabet(s.start, ' ');
    FormatAlphabet(s.end, '\n');
    ParseFormatRoundTrip(s.start);
    ParseFormatRoundTrip(s.end);
    CueHeaderOfParts(NatToString(counter), FormatTimestampSrt(s.start), FormatTimestampSrt(s.end), rest,
                     counter, s.start, s.end);
  }

  lemma SpeakerLineShape(a: string, b: string, speaker: string, text: string)
    ensures "[" + a + " - " + b + "] " + speaker + ": " + text + "\n"
         == "[" + a + " - " + b + "]" + (" " + speaker + ": " + text + "\n")
  {
  }

  lemma PlainLineShape(a: string, b: string, text: string)
    ensures "[" + a + " - " + b + "]: " + text + "\n" == "[" + a + " - " + b + "]" + (": " + text + "\n")
  {
  }

  lemma CueShape(n: string, a: string, b: string, body: string)
    ensures n + "\n" + a + " --> " + b + "\n" + body + "\n\n" == n + "\n" + a + " --> " + b + "\n" + (body + "\n\n")
  {
  }

  lemma SpeakerCueShape(n: string, a: string, b: string, speaker: string, text: string)
    ensures n + "\n" + a + " --> " + b + "\n" + speaker + ": " + text + "\n\n"
         == n + "\n" + a + " --> " + b + "\n" + (speaker + ": " + text + "\n\n")
  {
  }

  /** A speaker .txt line reads back as its segment's two times. */
  lemma SpeakerTxtLineTimes(a: AlignedSegment)
    ensures LineTimes(SpeakerTxtLine(a)) == Some((a.segment.start, a.segment.end))
  {
    var s := a.segment;
    var start, end := FormatTimestampSrt(s.start), FormatTimestampSrt(s.end);
    var rest := " " + SpeakerName(a.speaker) + ": " + Strip(s.text) + "\n";
    SpeakerLineShape(start, end, SpeakerName(a.speaker), Strip(s.text));
    LineTimesOf(s, rest);
  }

  /** A plain .txt line reads back as its segment's two times. */
  lemma PlainTxtLineTimes(s: Segment)
    ensures LineTimes(PlainTxtLine(s)) == Some((s.start, s.end))
  {
    var start, end := FormatTimestampSrt(s.start), FormatTimestampSrt(s.end);
    var rest := ": " + Strip(s.text) + "\n";
    PlainLineShape(start, end, Strip(s.text));
    LineTimesOf(s, rest);
  }

  /** A speaker cue reads back as its number and its segment's two times. */
  lemma SpeakerCueHeader(counter: nat, a: AlignedSegment)
    ensures CueHeader(SpeakerCue(counter, a)) == Some((counter, a.segment.start, a.segment.end))
  {
    var s := a.segment;
    var start, end := FormatTimestampSrt(s.start), FormatTimestampSrt(s.end);
    var rest := SpeakerName(a.speaker) + ": " + Strip(s.text) + "\n\n";
    SpeakerCueShape(NatToString(counter), start, end, SpeakerName(a.speaker), Strip(s.text));
    CueHeaderOf(counter, s, rest);
  }

  /** A plain cue reads back as its number and its segment's two times. */
  lemma PlainCueHeader(counter: nat, s: Segment)
    ensures CueHeader(PlainCue(counter, s)) == Some((counter, s.start, s.end))
  {
    var start, end := FormatTimestampSrt(s.start), FormatTimestampSrt(s.end);
    var rest := Strip(s.text) + "\n\n";
    CueShape(NatToString(counter), start, end, Strip(s.text));
    CueHeaderOf(counter, s, rest);
  }

  /** Line `i` of the speaker .txt output carries segment `i`'s two times. */
  lemma SpeakerLinesCarryTimes(aligned: seq<AlignedSegment>)
    ensures forall i :: 0 <= i < |aligned| ==>
      LineTimes(LineList(aligned, SpeakerTxtLine)[i]) == Some((aligned[i].segment.start, aligned[i].segment.end))
  {
    forall i | 0 <= i < |aligned|
      ensures LineTimes(LineList(aligned, SpeakerTxtLine)[i]) == Some((aligned[i].segment.start, aligned[i].segment.end))
    {
      LineListAt(aligned, SpeakerTxtLine, i);
      SpeakerTxtLineTimes(aligned[i]);
    }
  }

  /** Line `i` of the plain .txt output carries segment `i`'s two times. */
  lemma PlainLinesCarryTimes(segments: seq<Segment>)
    ensures forall i :: 0 <= i < |segments| ==>
      LineTimes(LineList(segments, PlainTxtLine)[i]) == Some((segments[i].start, segments[i].end))
  {
    forall i | 0 <= i < |segments|
      ensures LineTimes(LineList(segments, PlainTxtLine)[i]) == Some((segments[i].start, segments[i].end))
    {
      LineListAt(segments, PlainTxtLine, i);
      PlainTxtLineTimes(segments[i]);
    }
  }

  /** Cue `i` of the speaker .srt output is numbered `i + 1` and carries segment `i`'s times. */
  lemma SpeakerCuesNumbered(aligned: seq<AlignedSegment>)
    ensures forall i :: 0 <= i < |aligned| ==>
      CueHeader(CueList(aligned, 1, SpeakerCue)[i]) == Some((i + 1, aligned[i].segment.start, aligned[i].segment.end))
  {
    forall i | 0 <= i < |aligned|
      ensures CueHeader(CueList(aligned, 1, SpeakerCue)[i]) == Some((i + 1, aligned[i].segment.start, aligned[i].segment.end))
    {
      CueListAt(aligned, 1, SpeakerCue, i);
      SpeakerCueHeader(1 + i, aligned[i]);
    }
  }

  /** Cue `i` of the plain .srt output is numbered `i + 1` and carries segment `i`'s times. */
  lemma PlainCuesNumbered(segments: seq<Segment>)
    ensures forall i :: 0 <= i < |segments| ==>
      CueHeader(CueList(segments, 1, PlainCue)[i]) == Some((i + 1, segments[i].start, segments[i].end))
  {
    forall i | 0 <= i < |segments|
      ensures CueHeader(CueList(segments, 1, PlainCue)[i]) == Some((i + 1, segments[i].start, segments[i].end))
    {
      PlainCueAt(segments, i);
    }
  }

  lemma PlainCueAt(segments: seq<Segment>, i: nat)
    requires i < |segments|
    ensures CueHeader(CueList(segments, 1, PlainCue)[i]) == Some((i + 1, segments[i].start, segments[i].end))
  {
    CueListAt(segments, 1, PlainCue, i);
    PlainCueHeader(1 + i, segments[i]);
  }

  /**
   * The counter never restarts: the speaker script's output for `a + b` is
   * that for `a` followed by `b`'s lines and `b`'s cues numbered on from `1 + |a|`.
   */
  lemma SpeakerRenderingAppend(a: seq<AlignedSegment>, b: seq<AlignedSegment>)
    ensures Concat(LineList(a + b, SpeakerTxtLine)) == Concat(LineList(a, SpeakerTxtLine)) + Concat(LineList(b, SpeakerTxtLine))
    ensures Concat(CueList(a + b, 1, SpeakerCue)) == Concat(CueList(a, 1, SpeakerCue)) + Concat(CueList(b, 1 + |a|, SpeakerCue))
  {
    LineListAppend(a, b, SpeakerTxtLine);
    CueListAppend(a, b, 1, SpeakerCue);
    ConcatAppend(LineList(a, SpeakerTxtLine), LineList(b, SpeakerTxtLine));
    ConcatAppend(CueList(a, 1, SpeakerCue), CueList(b, 1 + |a|, SpeakerCue));
  }

  /** The same for the plain script. */
  lemma PlainRenderingAppend(a: seq<Segment>, b: seq<Segment>)
    ensures PlainRendering(a + b).txt == PlainRendering(a).txt + PlainRendering(b).txt
    ensures PlainRendering(a + b).srt == PlainRendering(a).srt + Concat(CueList(b, 1 + |a|, PlainCue))
  {
    LineListAppend(a, b, PlainTxtLine);
    CueListAppend(a, b, 1, PlainCue);
    ConcatAppend(LineList(a, PlainTxtLine), LineList(b, PlainTxtLine));
    ConcatAppend(CueList(a, 1, PlainCue), CueList(b, 1 + |a|, PlainCue));
  }
}
