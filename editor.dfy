/** The lyric list of the editor page (src/pages/Editor.jsx): turning parsed
    input into timed lines, the per-line edits of the timing editor, the
    bulk text replacement that keeps timestamps, the SubRip (SRT) export,
    and the padding of the preview-image slots to three. */
module Editor {
  import opened TextUtil
  import Preview

  type Lyric = Preview.Lyric

  // ---------------------------------------------------------------------
  // Normalising parsed input (handleLyricsParsed)
  // ---------------------------------------------------------------------

  /** One structured item (from an LRC or SRT import); `end` may be absent. */
  datatype ParsedItem = ParsedItem(text: string, start: real, end: Option<real>)

  /** What a parser hands to the editor: objects, or plain strings (the
      comma-split input). An empty list of either kind takes the string
      path, as `parsedInput.length > 0 && typeof parsedInput[0] === 'object'`
      does. */
  datatype ParsedInput = Structured(items: seq<ParsedItem>) | Plain(texts: seq<string>)

  function InputLength(input: ParsedInput): nat
  {
    match input
    case Structured(items) => |items|
    case Plain(texts) => |texts|
  }

  /** The end of item `i`: its own end when given, otherwise the next item's
      start, or two seconds after its own start for the last item. */
  function DefaultEnd(items: seq<ParsedItem>, i: nat): real
    requires i < |items|
  {
    match items[i].end
    case Some(e) => e
    case None => if i + 1 < |items| then items[i + 1].start else items[i].start + 2.0
  }

  /** `handleLyricsParsed`: the lines the editor stores for parsed input. */
  function Normalize(input: ParsedInput): (r: seq<Lyric>)
    ensures |r| == InputLength(input)
    ensures forall i :: 0 <= i < |r| ==> r[i].id == i
  {
    match input
    case Structured(items) =>
      seq(|items|, i requires 0 <= i < |items| =>
        Preview.Lyric(i, items[i].text, items[i].start, DefaultEnd(items, i)))
    case Plain(texts) =>
      seq(|texts|, i requires 0 <= i < |texts| => Preview.Lyric(i, Trim(texts[i]), 0.0, 0.0))
  }

  /** Structured input keeps text and start, keeps an explicit end, and
      otherwise ends each line where the next starts (the last one two
      seconds after its start). */
  lemma NormalizeStructured(items: seq<ParsedItem>, i: nat)
    requires i < |items|
    ensures var r := Normalize(Structured(items));
            && r[i].text == items[i].text && r[i].start == items[i].start
            && (items[i].end.Some? ==> r[i].end == items[i].end.value)
            && (items[i].end.None? && i + 1 < |items| ==> r[i].end == items[i + 1].start)
            && (items[i].end.None? && i + 1 == |items| ==> r[i].end == items[i].start + 2.0)
  {
  }

  /** Plain strings become trimmed, untimed lines. */
  lemma NormalizePlain(texts: seq<string>, i: nat)
    requires i < |texts|
    ensures var r := Normalize(Plain(texts));
            r[i].text == Trim(texts[i]) && r[i].start == 0.0 && r[i].end == 0.0
  {
  }

  /** Imported lines without explicit ends and with non-decreasing starts
      form a gap-free timeline of well-formed lines: each ends where the next
      begins, and none ends before it starts. */
  lemma {:induction false} NormalizedTimelineContiguous(items: seq<ParsedItem>)
    requires forall i :: 0 <= i < |items| ==> items[i].end.None?
    requires forall i :: 0 <= i < |items| - 1 ==> items[i].start <= items[i + 1].start
    ensures var r := Normalize(Structured(items));
            && (forall i :: 0 <= i < |r| - 1 ==> r[i].end == r[i + 1].start)
            && (forall i :: 0 <= i < |r| ==> r[i].start <= r[i].end)
  {
    var r := Normalize(Structured(items));
    forall i | 0 <= i < |r| - 1 ensures r[i].end == r[i + 1].start {
      NormalizeStructured(items, i);
      NormalizeStructured(items, i + 1);
    }
    forall i | 0 <= i < |r| ensures r[i].start <= r[i].end {
      NormalizeStructured(items, i);
    }
  }

  // ---------------------------------------------------------------------
  // Editing one line (updateLyric)
  // ---------------------------------------------------------------------

  /** The edits the timing editor makes: remove a line, or set a field. */
  datatype Edit = Remove | SetText(text: string) | SetStart(start: real) | SetEnd(end: real)

  /** `prev.filter((_, i) => i !== index)` */
  function RemoveAt(prev: seq<Lyric>, index: int): (r: seq<Lyric>)
    ensures 0 <= index < |prev| ==> |r| == |prev| - 1
    ensures !(0 <= index < |prev|) ==> r == prev
    ensures 0 <= index < |prev| ==>
              (forall i :: 0 <= i < index ==> r[i] == prev[i]) &&
              (forall i :: index <= i < |r| ==> r[i] == prev[i + 1])
  {
    if 0 <= index < |prev| then prev[..index] + prev[index + 1..] else prev
  }

  /** Line `line` with one field replaced. */
  function SetField(line: Lyric, edit: Edit): Lyric
    requires !edit.Remove?
  {
    match edit
    case SetText(t) => line.(text := t)
    case SetStart(s) => line.(start := s)
    case SetEnd(e) => line.(end := e)
  }

  /** The new list after `updateLyric(index, field, value)`. */
  function UpdateLyricSpec(prev: seq<Lyric>, index: int, edit: Edit): seq<Lyric>
    requires !edit.Remove? ==> 0 <= index < |prev|
  {
    if edit.Remove? then RemoveAt(prev, index)
    else
      var next := prev[index := SetField(prev[index], edit)];
      if edit.SetEnd? && index < |prev| - 1 then next[index + 1 := next[index + 1].(start := edit.end)]
      else next
  }

  /** A field edit changes only that field of line `index`, plus the start
      of the following line when the end moves; nothing else changes. */
  lemma UpdateFieldFrame(prev: seq<Lyric>, index: int, edit: Edit)
    requires !edit.Remove? && 0 <= index < |prev|
    ensures var r := UpdateLyricSpec(prev, index, edit);
            && |r| == |prev|
            && r[index] == SetField(prev[index], edit)
            && (forall i :: 0 <= i < |r| && i != index && i != index + 1 ==> r[i] == prev[i])
            && (index + 1 < |r| && edit.SetEnd? ==> r[index + 1] == prev[index + 1].(start := edit.end))
            && (index + 1 < |r| && !edit.SetEnd? ==> r[index + 1] == prev[index + 1])
  {
  }

  /** Moving a line's end keeps the two lines adjacent: the next line now
      starts exactly where this one ends. */
  lemma EndEditKeepsNeighbourAdjacent(prev: seq<Lyric>, index: int, e: real)
    requires 0 <= index < |prev| - 1
    ensures var r := UpdateLyricSpec(prev, index, SetEnd(e));
            r[index].end == e && r[index + 1].start == e
  {
  }

  // ---------------------------------------------------------------------
  // Bulk text replacement (updateAllLyricsText)
  // ---------------------------------------------------------------------

  /** The non-blank lines of the text area. */
  function TextLines(text: string): seq<string>
  {
    DropBlank(Split(text, '\n'))
  }

  /** Lyric `k` after the replacement: its text becomes line `k` of the text,
      trimmed, when that line exists; otherwise the lyric is unchanged. */
  function LineAfter(prev: seq<Lyric>, lines: seq<string>, k: nat): Lyric
    requires k < |prev|
  {
    if k < |lines| then prev[k].(text := Trim(lines[k])) else prev[k]
  }

  /** Line `k` of the text, trimmed, becomes the text of lyric `k` when that
      lyric exists; timings and the other lyrics stay. */
  function ReplaceTexts(prev: seq<Lyric>, lines: seq<string>): (r: seq<Lyric>)
    ensures |r| == |prev|
    ensures forall k :: 0 <= k < |r| ==>
              (r[k].start == prev[k].start && r[k].end == prev[k].end && r[k].id == prev[k].id)
    ensures forall k :: 0 <= k < |r| && k < |lines| ==> r[k].text == Trim(lines[k])
    ensures forall k :: |lines| <= k < |r| ==> r[k] == prev[k]
  {
    seq(|prev|, k requires 0 <= k < |prev| => LineAfter(prev, lines, k))
  }

  /** A list agreeing with the replacement at every index is the replacement. */
  lemma ReplaceTextsPointwise(prev: seq<Lyric>, lines: seq<string>, u: seq<Lyric>)
    requires |u| == |prev|
    requires forall k :: 0 <= k < |u| ==> u[k] == LineAfter(prev, lines, k)
    ensures u == ReplaceTexts(prev, lines)
  {
    var r := ReplaceTexts(prev, lines);
    assert forall k :: 0 <= k < |r| ==> r[k] == LineAfter(prev, lines, k);
  }

  /** One more line replaces the text of one more lyric, when there is one. */
  lemma ReplaceTextsStep(prev: seq<Lyric>, lines: seq<string>, index: nat)
    requires index < |lines|
    ensures ReplaceTexts(prev, lines[..index + 1])
            == if index < |prev|
               then ReplaceTexts(prev, lines[..index])[index := prev[index].(text := Trim(lines[index]))]
               else ReplaceTexts(prev, lines[..index])
  {
    var before, after := lines[..index], lines[..index + 1];
    var u := if index < |prev|
             then ReplaceTexts(prev, before)[index := prev[index].(text := Trim(lines[index]))]
             else ReplaceTexts(prev, before);
    forall k | 0 <= k < |u| ensures u[k] == LineAfter(prev, after, k) {
      if k < index {
        assert before[k] == after[k];
      }
    }
    ReplaceTextsPointwise(prev, after, u);
  }

  /** The functional update inside `updateAllLyricsText`: copy the list, then
      walk the lines and overwrite the text of each existing lyric. */
  method ApplyTextLines(prev: seq<Lyric>, lines: seq<string>) returns (updated: seq<Lyric>)
    ensures updated == ReplaceTexts(prev, lines)
  {
    updated := prev;
    var index := 0;
    assert updated == ReplaceTexts(prev, lines[..0]);
    while index < |lines|
      invariant 0 <= index <= |lines|
      invariant updated == ReplaceTexts(prev, lines[..index])
    {
      ReplaceTextsStep(prev, lines, index);
      if index < |updated| {
        updated := updated[index := updated[index].(text := Trim(lines[index]))];
      }
      index := index + 1;
    }
    assert lines[..index] == lines;
  }

  /** Blank lines in the text area are skipped, so an empty line does not
      shift the texts of later lyrics. */
  lemma BlankLinesSkipped(text: string)
    ensures forall i :: 0 <= i < |TextLines(text)| ==> !IsBlank(TextLines(text)[i])
    ensures |TextLines(text)| <= Count(text, '\n') + 1
  {
  }

  // ---------------------------------------------------------------------
  // SRT export (downloadLyricsSRT)
  // ---------------------------------------------------------------------

  /** One cue's data, with times in whole milliseconds; a negative time
      typed into a timing field stays negative. */
  datatype SrtCue = SrtCue(text: string, startMs: int, endMs: int)

  /** JavaScript's `a % n` for a positive `n`: the remainder takes the sign
      of `a`. */
  function TruncRem(a: int, n: int): (r: int)
    requires n > 0
    ensures -n < r < n
    ensures a >= 0 ==> r == a % n
    ensures a < 0 ==> r <= 0
  {
    if a >= 0 then a % n else -((-a) % n)
  }

  /** `formatSRTTime` over whole milliseconds: each field is `Math.floor`
      of a quotient (Dafny's `/` floors for a positive divisor) of
      JavaScript remainders, printed by `toString().padStart`. */
  function FormatSrtTime(ms: int): string
  {
    var hours := ms / 3600000;
    var minutes := TruncRem(ms, 3600000) / 60000;
    var secs := TruncRem(ms, 60000) / 1000;
    var millis := TruncRem(ms, 1000);
    Field(hours, 2) + ":" + Field(minutes, 2) + ":" + Field(secs, 2) + "," + Field(millis, 3)
  }

  /** `n.toString().padStart(width, '0')`: a natural number reads back
      from its digits; a negative one keeps its sign, and the zeros go in
      front of it. */
  function Field(n: int, width: nat): (r: string)
    ensures |r| >= width
    ensures AllDigits(r) <==> n >= 0
    ensures n >= 0 ==> DigitsValue(r) == n
  {
    var r := PadStart(IntToString(n), width, '0');
    FieldDigits(n, width);
    r
  }

  lemma FieldDigits(n: int, width: nat)
    ensures AllDigits(PadStart(IntToString(n), width, '0')) <==> n >= 0
    ensures n >= 0 ==> AllDigits(PadStart(IntToString(n), width, '0'))
                       && DigitsValue(PadStart(IntToString(n), width, '0')) == n
  {
    var s := IntToString(n);
    var r := PadStart(s, width, '0');
    if n >= 0 {
      PaddedNatValue(n, width);
    } else {
      assert r[|r| - |s|] == s[0] == '-';
    }
  }

  /** Minutes and seconds print as exactly two digits, milliseconds as three. */
  lemma FieldWidth(n: nat, width: nat)
    requires width == 2 || width == 3
    requires width == 2 ==> n < 100
    requires width == 3 ==> n < 1000
    ensures |Field(n, width)| == width
  {
    NumeralLength(n);
  }

  lemma {:induction false} NumeralLength(n: nat)
    ensures n < 100 ==> |NatToString(n)| <= 2
    ensures n < 1000 ==> |NatToString(n)| <= 3
  {
    if n >= 10 {
      NumeralLength(n / 10);
    }
  }

  /** Reads an `HH:MM:SS,mmm` time back (any digit counts are accepted). */
  function ParseSrtTime(s: string): Option<int>
  {
    var parts := Split(s, ':');
    if |parts| != 3 then None
    else
      var tail := Split(parts[2], ',');
      if |tail| != 2 then None
      else if !(AllDigits(parts[0]) && AllDigits(parts[1]) && AllDigits(tail[0]) && AllDigits(tail[1])) then None
      else Some(SrtTimeValue(DigitsValue(parts[0]), DigitsValue(parts[1]),
                             DigitsValue(tail[0]), DigitsValue(tail[1])))
  }

  /** The time in milliseconds denoted by hours, minutes, seconds and
      milliseconds fields. */
  function SrtTimeValue(h: int, m: int, s: int, f: int): int
  {
    h * 3600000 + m * 60000 + s * 1000 + f
  }

  /** The printed fields are in range: minutes and seconds below 60 and
      milliseconds below 1000, and together they add back up to the time. */
  lemma TimeFields(ms: nat)
    ensures (ms % 3600000) / 60000 < 60 && (ms % 60000) / 1000 < 60 && ms % 1000 < 1000
    ensures ms == SrtTimeValue(ms / 3600000, (ms % 3600000) / 60000, (ms % 60000) / 1000, ms % 1000)
  {
    var h, r1 := ms / 3600000, ms % 3600000;
    var m, r2 := r1 / 60000, r1 % 60000;
    DivModUnique(ms, 3600000, h, r1);
    DivModUnique(r1, 60000, m, r2);
    DivModUnique(ms, 60000, h * 60 + m, r2);
    var s, f := r2 / 1000, r2 % 1000;
    DivModUnique(r2, 1000, s, f);
    DivModUnique(ms, 1000, (h * 60 + m) * 60 + s, f);
  }

  /** Quotient and remainder are the only such pair. */
  lemma DivModUnique(a: int, n: int, q: int, r: int)
    requires n > 0 && 0 <= r < n && a == q * n + r
    ensures a / n == q && a % n == r
  {
    var q0, r0 := a / n, a % n;
    assert a == q0 * n + r0 && 0 <= r0 < n;
    MulBounds(q - q0, n);
    assert (q - q0) * n == q * n - q0 * n;
  }

  /** A non-zero multiple of a positive `n` is at least `n` away from 0. */
  lemma MulBounds(d: int, n: int)
    requires n > 0
    ensures d >= 1 ==> d * n >= n
    ensures d <= -1 ==> d * n <= -n
  {
  }

  /** Reading a formatted time gives the time back. */
  lemma SrtTimeRoundTrip(ms: nat)
    ensures ParseSrtTime(FormatSrtTime(ms)) == Some(ms)
  {
    var hours := ms / 3600000;
    var minutes := (ms % 3600000) / 60000;
    var secs := (ms % 60000) / 1000;
    var millis := ms % 1000;
    assert TruncRem(ms, 3600000) == ms % 3600000 && TruncRem(ms, 60000) == ms % 60000
           && TruncRem(ms, 1000) == millis;
    var h, m, sc, f := Field(hours, 2), Field(minutes, 2), Field(secs, 2), Field(millis, 3);
    assert FormatSrtTime(ms) == h + ":" + m + ":" + sc + "," + f;
    ParseOfFields(h, m, sc, f);
    TimeFields(ms);
  }
  /** `t` is laid out as `H:MM:SS,mmm` with an `n`-digit hours field. */
  predicate SrtTimeShape(t: string, n: nat)
  {
    |t| == n + 10 && AllDigits(t[..n])
    && t[n] == ':' && AllDigits(t[n + 1..n + 3])
    && t[n + 3] == ':' && AllDigits(t[n + 4..n + 6])
    && t[n + 6] == ',' && AllDigits(t[n + 7..])
  }

  /** A non-negative time prints as `H:MM:SS,mmm`: an hours field of at
      least two digits, then two, two and three digits. */
  lemma SrtTimeWidths(ms: nat)
    ensures |Field(ms / 3600000, 2)| >= 2
    ensures SrtTimeShape(FormatSrtTime(ms), |Field(ms / 3600000, 2)|)
  {
    var h := Field(ms / 3600000, 2);
    var m, sc, f := SrtFieldsOf(ms);
    DigitFieldsLayout(FormatSrtTime(ms), h, m, sc, f);
  }

  lemma DigitFieldsLayout(t: string, h: string, m: string, sc: string, f: string)
    requires t == h + ":" + m + ":" + sc + "," + f
    requires AllDigits(h)
    requires |m| == 2 && |sc| == 2 && |f| == 3 && AllDigits(m) && AllDigits(sc) && AllDigits(f)
    ensures SrtTimeShape(t, |h|)
  {
    FieldsLayout(h, m, sc, f);
  }

  /** The fields of a non-negative time: digit strings of widths 2, 2 and 3
      after the hours. */
  lemma SrtFieldsOf(ms: nat) returns (m: string, sc: string, f: string)
    ensures FormatSrtTime(ms) == Field(ms / 3600000, 2) + ":" + m + ":" + sc + "," + f
    ensures |m| == 2 && |sc| == 2 && |f| == 3
    ensures AllDigits(m) && AllDigits(sc) && AllDigits(f)
  {
    var minutes := (ms % 3600000) / 60000;
    var secs := (ms % 60000) / 1000;
    var millis := ms % 1000;
    assert TruncRem(ms, 3600000) == ms % 3600000 && TruncRem(ms, 60000) == ms % 60000
           && TruncRem(ms, 1000) == millis;
    m, sc, f := Field(minutes, 2), Field(secs, 2), Field(millis, 3);
    TimeFields(ms);
    FieldWidth(minutes, 2);
    FieldWidth(secs, 2);
    FieldWidth(millis, 3);
  }

  /** Where the four fields of `H:M:S,F` sit, for fields of widths 2, 2 and 3
      after the hours. */
  lemma FieldsLayout(h: string, m: string, sc: string, f: string)
    requires |m| == 2 && |sc| == 2 && |f| == 3
    ensures var t := h + ":" + m + ":" + sc + "," + f;
            var n := |h|;
            |t| == n + 10 && t[..n] == h && t[n] == ':' && t[n + 1..n + 3] == m
            && t[n + 3] == ':' && t[n + 4..n + 6] == sc && t[n + 6] == ',' && t[n + 7..] == f
  {
  }


  /** A negative time prints every field negative. */
  lemma NegativeTimePrinted()
    ensures FormatSrtTime(-500) == "-1:-1:-1,-500"
  {
    FieldOfMinusOne();
    FieldOfMinusFiveHundred();
    NegativeQuotients();
  }

  /** `padStart` puts its zeros in front of the sign. */
  lemma NegativeMillisPadded()
    ensures FormatSrtTime(-5) == "-1:-1:-1,0-5"
  {
    FieldOfMinusOne();
    FieldOfMinusFive();
    NegativeQuotients();
  }

  lemma FieldOfMinusOne()
    ensures Field(-1, 2) == "-1"
  {
    assert NatToString(1) == "1";
  }

  lemma FieldOfMinusFiveHundred()
    ensures Field(-500, 3) == "-500"
  {
    assert NatToString(5) == "5";
    assert NatToString(50) == NatToString(5) + "0";
    assert NatToString(500) == NatToString(50) + "0";
  }

  lemma FieldOfMinusFive()
    ensures Field(-5, 3) == "0-5"
  {
    assert IntToString(-5) == "-5" by {
      assert NatToString(5) == "5";
    }
    assert PadStart("-5", 3, '0') == ['0'] + "-5";
  }

  lemma NegativeQuotients()
    ensures -500 / 3600000 == -1 && TruncRem(-500, 3600000) / 60000 == -1
    ensures TruncRem(-500, 60000) / 1000 == -1 && TruncRem(-500, 1000) == -500
    ensures -5 / 3600000 == -1 && TruncRem(-5, 3600000) / 60000 == -1
    ensures TruncRem(-5, 60000) / 1000 == -1 && TruncRem(-5, 1000) == -5
  {
  }

  /** Four digit strings laid out as `H:M:S,F` parse field by field. */
  lemma ParseOfFields(h: string, m: string, sc: string, f: string)
    requires AllDigits(h) && AllDigits(m) && AllDigits(sc) && AllDigits(f)
    ensures ParseSrtTime(h + ":" + m + ":" + sc + "," + f)
            == Some(SrtTimeValue(DigitsValue(h), DigitsValue(m), DigitsValue(sc), DigitsValue(f)))
  {
    var tail := sc + "," + f;
    var str := h + ":" + m + ":" + sc + "," + f;
    assert str == (h + [':'] + m) + [':'] + tail;
    TimeLayout(h, m, sc, f);
    ParseSplit(str, h, m, tail, sc, f);
  }

  /** A string whose colon- and comma-split pieces are digit strings parses
      to the value those pieces denote. */
  lemma ParseSplit(str: string, h: string, m: string, tail: string, sc: string, f: string)
    requires AllDigits(h) && AllDigits(m) && AllDigits(sc) && AllDigits(f)
    requires Split(str, ':') == [h, m, tail] && Split(tail, ',') == [sc, f]
    ensures ParseSrtTime(str)
            == Some(SrtTimeValue(DigitsValue(h), DigitsValue(m), DigitsValue(sc), DigitsValue(f)))
  {
    var parts := Split(str, ':');
    assert parts[0] == h && parts[1] == m && parts[2] == tail;
    var t := Split(parts[2], ',');
    assert t[0] == sc && t[1] == f;
  }

  /** How an `H:M:S,F` string splits at colons and then at the comma. */
  lemma TimeLayout(h: string, m: string, sc: string, f: string)
    requires AllDigits(h) && AllDigits(m) && AllDigits(sc) && AllDigits(f)
    ensures Split(h + [':'] + m + [':'] + (sc + [','] + f), ':') == [h, m, sc + [','] + f]
    ensures Split(sc + [','] + f, ',') == [sc, f]
  {
    var tail := sc + [','] + f;
    DigitsNoSeparator(sc);
    DigitsNoSeparator(f);
    SplitFields(sc, f, ',');
    assert ':' !in tail by {
      forall i | 0 <= i < |tail| ensures tail[i] != ':' {
        if i < |sc| { assert tail[i] == sc[i]; }
        else if i > |sc| { assert tail[i] == f[i - |sc| - 1]; }
      }
    }
    DigitsNoSeparator(h);
    DigitsNoSeparator(m);
    SplitFields(h, m, ':');
    SplitAround(h + [':'] + m, tail, ':');
    SplitNoSeparator(tail, ':');
  }

  lemma DigitsNoSeparator(s: string)
    requires AllDigits(s)
    ensures ':' !in s && ',' !in s && '\n' !in s
  {
  }

  /** The timing line of a cue. */
  function TimingLine(c: SrtCue): string
  {
    FormatSrtTime(c.startMs) + " --> " + FormatSrtTime(c.endMs)
  }

  /** The block of the cue numbered `number`: number, timing, text and a
      closing line break. */
  function CueBlock(number: nat, c: SrtCue): string
  {
    NatToString(number) + "\n" + TimingLine(c) + "\n" + c.text + "\n"
  }

  /** The blocks of `cues`, numbered from `first`. */
  function CueBlocks(cues: seq<SrtCue>, first: nat): (r: seq<string>)
    ensures |r| == |cues|
  {
    if cues == [] then [] else [CueBlock(first, cues[0])] + CueBlocks(cues[1..], first + 1)
  }

  /** `srtContent`: the blocks numbered from 1, joined by line breaks. */
  function SrtContent(cues: seq<SrtCue>): string
  {
    Join(CueBlocks(cues, 1), '\n')
  }

  /** The cue of a lyric: times in whole milliseconds, rounded down. */
  function CueOf(l: Lyric): (c: SrtCue)
    ensures c.text == l.text
    ensures c.startMs as real <= l.start * 1000.0 < c.startMs as real + 1.0
    ensures c.endMs as real <= l.end * 1000.0 < c.endMs as real + 1.0
  {
    SrtCue(l.text, (l.start * 1000.0).Floor, (l.end * 1000.0).Floor)
  }

  /** The SRT document of a list of lyrics. */
  function SrtOfLyrics(lyrics: seq<Lyric>): string
  {
    SrtContent(seq(|lyrics|, i requires 0 <= i < |lyrics| => CueOf(lyrics[i])))
  }

  /** The four lines of the cue numbered `number`. */
  function CueGroup(number: nat, c: SrtCue): (r: seq<string>)
    ensures |r| == 4
  {
    [NatToString(number), TimingLine(c), c.text, ""]
  }

  /** `f` applied to each element and its number, counting from `first`. */
  function Numbered<C, T>(xs: seq<C>, first: nat, f: (nat, C) -> T): (r: seq<T>)
    ensures |r| == |xs|
    decreases |xs|
  {
    if xs == [] then [] else [f(first, xs[0])] + Numbered(xs[1..], first + 1, f)
  }

  /** Element `k` of a numbered list is `f` of element `k` and `first + k`. */
  lemma {:induction false} NumberedAt<C, T>(xs: seq<C>, first: nat, f: (nat, C) -> T, k: nat)
    requires k < |xs|
    ensures Numbered(xs, first, f)[k] == f(first + k, xs[k])
    decreases |xs|
  {
    if k > 0 {
      NumberedAt(xs[1..], first + 1, f, k - 1);
      assert xs[1..][k - 1] == xs[k];
      assert first + 1 + (k - 1) == first + k;
    }
  }

  /** The groups of the cues, numbered from `first`. */
  function CueGroups(cues: seq<SrtCue>, first: nat): seq<seq<string>>
  {
    Numbered(cues, first, CueGroup)
  }

  /** The lines of the cues, four per cue, numbered from `first`. */
  function CueLines(cues: seq<SrtCue>, first: nat): seq<string>
  {
    Flatten(CueGroups(cues, first))
  }

  /** The concatenation of a list of lists. */
  function Flatten<T>(gs: seq<seq<T>>): seq<T>
  {
    if gs == [] then [] else gs[0] + Flatten(gs[1..])
  }

  /** In a concatenation of four-element groups, group `k` sits at `4k`. */
  lemma {:induction false} FlattenAt<T>(gs: seq<seq<T>>, k: nat)
    requires forall i :: 0 <= i < |gs| ==> |gs[i]| == 4
    requires k < |gs|
    ensures |Flatten(gs)| == 4 * |gs|
    ensures Flatten(gs)[4 * k..4 * k + 4] == gs[k]
  {
    FlattenLength(gs);
    if k > 0 {
      FlattenAt(gs[1..], k - 1);
      var j := 4 * (k - 1);
      assert Flatten(gs)[j + 4..j + 8] == Flatten(gs[1..])[j..j + 4];
    }
  }

  lemma {:induction false} FlattenLength<T>(gs: seq<seq<T>>)
    requires forall i :: 0 <= i < |gs| ==> |gs[i]| == 4
    ensures |Flatten(gs)| == 4 * |gs|
  {
    if gs != [] {
      FlattenLength(gs[1..]);
    }
  }

  predicate SingleLineTexts(cues: seq<SrtCue>)
  {
    forall i :: 0 <= i < |cues| ==> '\n' !in cues[i].text
  }

  lemma TimingLineSingle(c: SrtCue)
    ensures '\n' !in TimingLine(c)
  {
    FormattedTimeSingle(c.startMs);
    FormattedTimeSingle(c.endMs);
    ArrowSingle(FormatSrtTime(c.startMs), FormatSrtTime(c.endMs));
  }

  lemma ArrowSingle(a: string, b: string)
    requires '\n' !in a && '\n' !in b
    ensures '\n' !in a + " --> " + b
  {
    var t := a + " --> " + b;
    forall i | 0 <= i < |t| ensures t[i] != '\n' {
      if i < |a| { assert t[i] == a[i]; }
      else if i >= |a| + 5 { assert t[i] == b[i - |a| - 5]; }
    }
  }

  lemma FormattedTimeSingle(ms: int)
    ensures '\n' !in FormatSrtTime(ms)
  {
    var hours := ms / 3600000;
    var minutes := TruncRem(ms, 3600000) / 60000;
    var secs := TruncRem(ms, 60000) / 1000;
    var millis := TruncRem(ms, 1000);
    var h, m, sc, f := Field(hours, 2), Field(minutes, 2), Field(secs, 2), Field(millis, 3);
    FieldSingle(hours, 2);
    FieldSingle(minutes, 2);
    FieldSingle(secs, 2);
    FieldSingle(millis, 3);
    FieldsSingle(h, m, sc, f);
  }

  lemma FieldsSingle(h: string, m: string, sc: string, f: string)
    requires '\n' !in h && '\n' !in m && '\n' !in sc && '\n' !in f
    ensures '\n' !in h + ":" + m + ":" + sc + "," + f
  {
    var t := h + ":" + m + ":" + sc + "," + f;
    forall i | 0 <= i < |t| ensures t[i] != '\n' {
      var a, b, c := |h| + 1, |h| + 1 + |m| + 1, |h| + 1 + |m| + 1 + |sc| + 1;
      if i < |h| { assert t[i] == h[i]; }
      else if a <= i < a + |m| { assert t[i] == m[i - a]; }
      else if b <= i < b + |sc| { assert t[i] == sc[i - b]; }
      else if c <= i { assert t[i] == f[i - c]; }
    }
  }

  /** A printed field is zeros, an optional sign and digits: no line break. */
  lemma FieldSingle(n: int, width: nat)
    ensures '\n' !in Field(n, width)
  {
    var s := IntToString(n);
    var r := Field(n, width);
    assert '\n' !in s by {
      if n >= 0 {
        DigitsNoSeparator(s);
      } else {
        var d := NatToString(-n);
        DigitsNoSeparator(d);
        assert s == "-" + d;
      }
    }
    forall i | 0 <= i < |r| ensures r[i] != '\n' {
      if i >= |r| - |s| {
        assert r[i] == s[i - (|r| - |s|)];
      }
    }
  }

  /** One block splits into its number, timing line, text and an empty rest. */
  lemma CueBlockLines(number: nat, c: SrtCue)
    requires '\n' !in c.text
    ensures Split(CueBlock(number, c), '\n') == CueGroup(number, c)
  {
    DigitsNoSeparator(NatToString(number));
    TimingLineSingle(c);
    ThreeLines(NatToString(number), TimingLine(c), c.text);
  }

  /** Three lines, each closed by a line break, split into the three and an
      empty rest. */
  lemma ThreeLines(n: string, t: string, x: string)
    requires '\n' !in n && '\n' !in t && '\n' !in x
    ensures Split(n + "\n" + t + "\n" + x + "\n", '\n') == [n, t, x, ""]
  {
    var head := (n + ['\n'] + t) + ['\n'] + x;
    assert n + "\n" + t + "\n" + x + "\n" == head + ['\n'] + "";
    SplitFields(n, t, '\n');
    SplitAround(n + ['\n'] + t, x, '\n');
    SplitNoSeparator(x, '\n');
    SplitAround(head, "", '\n');
  }

  /** Split into lines, the blocks of a cue list are the cues' four lines each. */
  lemma {:induction false} CueBlocksLines(cues: seq<SrtCue>, first: nat)
    requires |cues| > 0 && SingleLineTexts(cues)
    ensures Split(Join(CueBlocks(cues, first), '\n'), '\n') == CueLines(cues, first)
  {
    CueBlockLines(first, cues[0]);
    CueLinesCons(cues, first);
    var blocks := CueBlocks(cues, first);
    if |cues| == 1 {
      assert Join(blocks, '\n') == CueBlock(first, cues[0]);
      assert CueLines(cues[1..], first + 1) == [];
    } else {
      CueBlocksLines(cues[1..], first + 1);
      assert blocks[1..] == CueBlocks(cues[1..], first + 1);
      SplitAround(CueBlock(first, cues[0]), Join(blocks[1..], '\n'), '\n');
    }
  }

  /** An SRT export has one four-line cue per lyric, numbered from 1: line
      `4k` is `k + 1`, line `4k + 1` the timing, line `4k + 2` the text. */
  lemma SrtCueLayout(cues: seq<SrtCue>, k: nat)
    requires SingleLineTexts(cues) && k < |cues|
    ensures |Split(SrtContent(cues), '\n')| == 4 * |cues|
    ensures Split(SrtContent(cues), '\n')[4 * k..4 * k + 4]
            == [NatToString(k + 1), TimingLine(cues[k]), cues[k].text, ""]
  {
    CueBlocksLines(cues, 1);
    CueLinesAt(cues, 1, k);
    var n := k + 1;
    assert 1 + k == n;
    assert CueGroup(n, cues[k]) == [NatToString(n), TimingLine(cues[k]), cues[k].text, ""];
  }
  /** The exported file of the lyrics (`srtContent`): four lines per lyric,
      numbered from 1, with the lyric's floored times and its text. */
  lemma SrtExportLayout(lyrics: seq<Lyric>, k: nat)
    requires forall i :: 0 <= i < |lyrics| ==> '\n' !in lyrics[i].text
    requires k < |lyrics|
    ensures |Split(SrtOfLyrics(lyrics), '\n')| == 4 * |lyrics|
    ensures Split(SrtOfLyrics(lyrics), '\n')[4 * k..4 * k + 4]
            == [NatToString(k + 1), TimingLine(CueOf(lyrics[k])), lyrics[k].text, ""]
  {
    var cues := seq(|lyrics|, i requires 0 <= i < |lyrics| => CueOf(lyrics[i]));
    assert SingleLineTexts(cues);
    SrtCueLayout(cues, k);
  }


  /** The lines of a non-empty cue list: the first cue's group, then the rest
      numbered from the next number. */
  lemma CueLinesCons(cues: seq<SrtCue>, first: nat)
    requires |cues| > 0
    ensures CueLines(cues, first) == CueGroup(first, cues[0]) + CueLines(cues[1..], first + 1)
  {
    var gs, tail := CueGroups(cues, first), CueGroups(cues[1..], first + 1);
    assert gs == [CueGroup(first, cues[0])] + tail;
    assert gs[0] == CueGroup(first, cues[0]) && gs[1..] == tail;
  }

  /** Lines `4k` to `4k + 3` are the group of cue `k`, numbered `first + k`. */
  lemma CueLinesAt(cues: seq<SrtCue>, first: nat, k: nat)
    requires k < |cues|
    ensures |CueLines(cues, first)| == 4 * |cues|
    ensures CueLines(cues, first)[4 * k..4 * k + 4] == CueGroup(first + k, cues[k])
  {
    var gs := CueGroups(cues, first);
    forall i | 0 <= i < |gs| ensures |gs[i]| == 4 {
      NumberedAt(cues, first, CueGroup, i);
    }
    NumberedAt(cues, first, CueGroup, k);
    FlattenAt(gs, k);
  }

  // ---------------------------------------------------------------------
  // Preview-image slots
  // ---------------------------------------------------------------------

  /** `const urls = x || []; while (urls.length < 3) urls.push(null);` */
  method PadPreviewUrls(given: Option<seq<Option<string>>>) returns (urls: seq<Option<string>>)
    ensures |urls| == if given.Some? && |given.value| > 3 then |given.value| else 3
    ensures given.Some? ==> urls[..|given.value|] == given.value
    ensures forall i :: (if given.Some? then |given.value| else 0) <= i < |urls| ==> urls[i] == None
  {
    urls := if given.Some? then given.value else [];
    ghost var original := urls;
    while |urls| < 3
      invariant |original| <= |urls|
      invariant |original| < 3 ==> |urls| <= 3
      invariant |original| >= 3 ==> urls == original
      invariant urls[..|original|] == original
      invariant forall i :: |original| <= i < |urls| ==> urls[i] == None
    {
      urls := urls + [None];
    }
  }

  // ---------------------------------------------------------------------
  // The editor's lyric state
  // ---------------------------------------------------------------------

  /** The `lyrics` state of the editor page. */
  class LyricsEditor {
    var lyrics: seq<Lyric>

    constructor ()
      ensures lyrics == []
    {
      lyrics := [];
    }

    method HandleLyricsParsed(input: ParsedInput)
      modifies this
      ensures lyrics == Normalize(input)
    {
      lyrics := Normalize(input);
    }

    method UpdateLyric(index: int, edit: Edit)
      requires !edit.Remove? ==> 0 <= index < |lyrics|
      modifies this
      ensures lyrics == UpdateLyricSpec(old(lyrics), index, edit)
    {
      if edit.Remove? {
        lyrics := RemoveAt(lyrics, index);
        return;
      }
      var newLyrics := lyrics;
      newLyrics := newLyrics[index := SetField(newLyrics[index], edit)];
      if edit.SetEnd? && index < |newLyrics| - 1 {
        newLyrics := newLyrics[index + 1 := newLyrics[index + 1].(start := edit.end)];
      }
      lyrics := newLyrics;
    }

    method UpdateAllLyricsText(text: string)
      modifies this
      ensures lyrics == ReplaceTexts(old(lyrics), TextLines(text))
    {
      var lines := TextLines(text);
      lyrics := ApplyTextLines(lyrics, lines);
    }
  }
}
