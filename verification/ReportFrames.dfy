/**
 The report as a whole and its framing for the UART (smart_helmet.c: SmartHelmet_ReportStart,
 shSendReportLines): eleven CR-LF terminated lines, each sent as one frame of at most 39 bytes.
 */
module ReportFrames {
  import opened CArithmetic
  import opened ReportText

  const FRAME_TEXT: nat := 37

  // ---- The report ---------------------------------------------------------------

  datatype PulseWord = Unknown | Absent | Rising | Falling | Stable

  datatype Option<T> = None | Some(value: T)

  /** What a report is built from; a sensor that did not answer is None. */
  datatype Readings = Readings(
    moving: bool, restart: bool, fall: bool, pulse: PulseWord,
    body: Option<int>, ambient: Option<int>, humidity: Option<int>, voc: Option<nat>,
    coRatio: nat, nh3Ratio: nat, no2Ratio: nat)
  {
    predicate Valid() {
      && (body.Some? ==> IsI16(body.value)) && (ambient.Some? ==> IsI16(ambient.value))
      && (humidity.Some? ==> IsI16(humidity.value)) && (voc.Some? ==> IsU16(voc.value))
    }
  }

  function PulseText(p: PulseWord): string {
    match p
    case Unknown => "unknown"
    case Absent => "none"
    case Rising => "rising"
    case Falling => "falling"
    case Stable => "stable"
  }

  function CoPpm(ratio: nat): (ppm: nat)
    ensures ppm <= 1000
  {
    if ratio >= 80 then 1 else if ratio >= 40 then 10 else if ratio >= 20 then 40
    else if ratio >= 10 then 120 else if ratio >= 5 then 400 else 1000
  }

  function Nh3Ppm(ratio: nat): (ppm: nat)
    ensures ppm <= 500
  {
    if ratio >= 80 then 1 else if ratio >= 40 then 15 else if ratio >= 20 then 60
    else if ratio >= 10 then 180 else 500
  }

  function No2PpmX100(ratio: nat): (ppm: nat)
    ensures ppm <= 1000
  {
    if ratio <= 120 then 5 else if ratio <= 200 then 25 else if ratio <= 400 then 100
    else if ratio <= 800 then 400 else 1000
  }

  function YesNo(b: bool): string { if b then "yes" else "no" }

  /** A reading in hundredths with its unit, or "na". */
  function Measured(v: Option<int>, u: string): string {
    match v
    case None => "na"
    case Some(x) => Hundredths(x) + u
  }

  function Voc(v: Option<nat>): string {
    match v
    case None => "na"
    case Some(x) => Decimal(x) + "ppb"
  }

  const LINE_COUNT: nat := 11

  /** The lines of the report, without their terminators. */
  function LineAt(r: Readings, i: nat): string
    requires i < LINE_COUNT
  {
    if i == 0 then "motion:" + (if r.moving then "moving" else "still")
    else if i == 1 then "restart:" + YesNo(r.restart)
    else if i == 2 then "fall:" + YesNo(r.fall)
    else if i == 3 then "pulse:" + PulseText(r.pulse)
    else if i == 4 then "body:" + Measured(r.body, "C")
    else if i == 5 then "amb:" + Measured(r.ambient, "C")
    else if i == 6 then "rh:" + Measured(r.humidity, "%")
    else if i == 7 then "voc:" + Voc(r.voc)
    else if i == 8 then "co:" + (Decimal(CoPpm(r.coRatio)) + "ppm")
    else if i == 9 then "nh3:" + (Decimal(Nh3Ppm(r.nh3Ratio)) + "ppm")
    else "no2:" + (Hundredths(No2PpmX100(r.no2Ratio)) + "ppm")
  }

  function Lines(r: Readings): (ls: seq<string>)
    ensures |ls| == LINE_COUNT && forall i :: 0 <= i < LINE_COUNT ==> ls[i] == LineAt(r, i)
  {
    seq(LINE_COUNT, i requires 0 <= i < LINE_COUNT => LineAt(r, i))
  }

  const CRLF := "\r\n"

  /** Each line followed by CR LF. */
  function Joined(lines: seq<string>): string {
    if lines == [] then "" else Joined(lines[..|lines| - 1]) + lines[|lines| - 1] + CRLF
  }

  predicate Plain(s: string) { forall i :: 0 <= i < |s| ==> s[i] != '\r' && s[i] != '\n' }

  lemma DecimalPlain(v: nat)
    ensures Plain(Decimal(v))
  {
    assert forall i :: 0 <= i < |Decimal(v)| ==> IsDigit(Decimal(v)[i]);
  }

  lemma HundredthsPlain(v: int)
    requires IsI16(v)
    ensures Plain(Hundredths(v)) && |Hundredths(v)| <= 7
  {
    var mag := Abs(v);
    DecimalLength(mag / 100, 3);
    DecimalPlain(mag / 100);
    DecimalPlain((mag / 10) % 10);
    DecimalPlain(mag % 10);
    hide Decimal;
    assert Plain(Fraction(mag));
    hide Fraction;
  }

  lemma MeasuredPlain(v: Option<int>, u: string)
    requires (v.Some? ==> IsI16(v.value)) && Plain(u) && |u| == 1
    ensures Plain(Measured(v, u)) && |Measured(v, u)| <= 8
  {
    if v.Some? {
      HundredthsPlain(v.value);
      hide Hundredths;
    }
  }

  lemma CountPlain(v: nat, digits: nat, u: string)
    requires v < Pow10(digits) && digits >= 1 && Plain(u) && |u| == 3
    ensures Plain(Decimal(v) + u) && |Decimal(v) + u| <= digits + 3
  {
    DecimalPlain(v);
    DecimalLength(v, digits);
    hide Decimal;
  }

  /** Longest text of each line. */
  function Width(i: nat): nat {
    if i == 0 then 13 else if i == 1 then 11 else if i == 2 then 8 else if i == 3 then 13
    else if i == 4 then 13 else if i == 5 then 12 else if i == 6 then 11 else if i == 7 then 12
    else if i == 8 then 10 else if i == 9 then 10 else 12
  }

  lemma ValuesPlain(r: Readings)
    requires r.Valid()
    ensures Plain(Measured(r.body, "C")) && |Measured(r.body, "C")| <= 8
    ensures Plain(Measured(r.ambient, "C")) && |Measured(r.ambient, "C")| <= 8
    ensures Plain(Measured(r.humidity, "%")) && |Measured(r.humidity, "%")| <= 8
    ensures Plain(Voc(r.voc)) && |Voc(r.voc)| <= 8
    ensures Plain(Decimal(CoPpm(r.coRatio)) + "ppm") && |Decimal(CoPpm(r.coRatio)) + "ppm"| <= 7
    ensures Plain(Decimal(Nh3Ppm(r.nh3Ratio)) + "ppm") && |Decimal(Nh3Ppm(r.nh3Ratio)) + "ppm"| <= 6
    ensures Plain(Hundredths(No2PpmX100(r.no2Ratio)) + "ppm") && |Hundredths(No2PpmX100(r.no2Ratio)) + "ppm"| <= 8
  {
    hide Decimal, Hundredths, Measured, CoPpm, Nh3Ppm, No2PpmX100;
    MeasuredPlain(r.body, "C");
    MeasuredPlain(r.ambient, "C");
    MeasuredPlain(r.humidity, "%");
    if r.voc.Some? {
      CountPlain(r.voc.value, 5, "ppb");
    }
    CountPlain(CoPpm(r.coRatio), 4, "ppm");
    CountPlain(Nh3Ppm(r.nh3Ratio), 3, "ppm");
    No2Width(r.no2Ratio);
  }

  lemma No2Width(ratio: nat)
    ensures Plain(Hundredths(No2PpmX100(ratio)) + "ppm") && |Hundredths(No2PpmX100(ratio)) + "ppm"| <= 8
  {
    var v := No2PpmX100(ratio);
    HundredthsPlain(v);
    DecimalLength(v / 100, 2);
    hide Decimal, Fraction;
  }

  lemma LabelPlain(tag: string, value: string)
    requires tag != "" && Plain(tag) && Plain(value)
    ensures tag + value != "" && Plain(tag + value)
  {
  }

  lemma WordsPlain(r: Readings, i: nat)
    requires i < 4
    ensures LineAt(r, i) != "" && Plain(LineAt(r, i)) && |LineAt(r, i)| <= Width(i)
  {
    if i == 0 {
      LabelPlain("motion:", if r.moving then "moving" else "still");
    } else if i == 1 {
      LabelPlain("restart:", YesNo(r.restart));
    } else if i == 2 {
      LabelPlain("fall:", YesNo(r.fall));
    } else {
      LabelPlain("pulse:", PulseText(r.pulse));
    }
  }

  lemma NumbersPlain(r: Readings, i: nat)
    requires r.Valid() && 4 <= i < LINE_COUNT
    ensures LineAt(r, i) != "" && Plain(LineAt(r, i)) && |LineAt(r, i)| <= Width(i)
  {
    ValuesPlain(r);
    hide Decimal, Hundredths, Measured, Voc, CoPpm, Nh3Ppm, No2PpmX100;
    if i == 4 {
      LabelPlain("body:", Measured(r.body, "C"));
    } else if i == 5 {
      LabelPlain("amb:", Measured(r.ambient, "C"));
    } else if i == 6 {
      LabelPlain("rh:", Measured(r.humidity, "%"));
    } else if i == 7 {
      LabelPlain("voc:", Voc(r.voc));
    } else if i == 8 {
      LabelPlain("co:", Decimal(CoPpm(r.coRatio)) + "ppm");
    } else if i == 9 {
      LabelPlain("nh3:", Decimal(Nh3Ppm(r.nh3Ratio)) + "ppm");
    } else {
      LabelPlain("no2:", Hundredths(No2PpmX100(r.no2Ratio)) + "ppm");
    }
  }

  lemma LinesPlain(r: Readings, i: nat)
    requires r.Valid() && i < LINE_COUNT
    ensures Lines(r)[i] != "" && Plain(Lines(r)[i]) && |Lines(r)[i]| <= Width(i) <= FRAME_TEXT
  {
    hide LineAt;
    if i < 4 {
      WordsPlain(r, i);
    } else {
      NumbersPlain(r, i);
    }
  }

  // ---- Splitting into frames -------------------------------------------------------

  predicate IsBreak(c: char) { c == '\r' || c == '\n' }

  /** The first index at or after `i` whose character is not a line break. */
  function SkipBreaks(s: string, i: nat): (j: nat)
    requires i <= |s|
    ensures i <= j <= |s| && (forall k :: i <= k < j ==> IsBreak(s[k])) && (j < |s| ==> !IsBreak(s[j]))
    decreases |s| - i
  {
    if i < |s| && IsBreak(s[i]) then SkipBreaks(s, i + 1) else i
  }

  /** The first index at or after `i` that is a line break. */
  function LineEnd(s: string, i: nat): (j: nat)
    requires i <= |s|
    ensures i <= j <= |s| && (forall k :: i <= k < j ==> !IsBreak(s[k])) && (j < |s| ==> IsBreak(s[j]))
    decreases |s| - i
  {
    if i < |s| && !IsBreak(s[i]) then LineEnd(s, i + 1) else i
  }

  /** The frame of one line: its first 37 characters and CR LF. */
  function Frame(line: string): (f: string)
    ensures |f| <= 39
  {
    (if |line| <= FRAME_TEXT then line else line[..FRAME_TEXT]) + CRLF
  }

  /** The frames of a text: one for each non-empty line, in order. */
  function Frames(s: string, i: nat): seq<string>
    requires i <= |s|
    decreases |s| - i
  {
    var a := SkipBreaks(s, i);
    if a == |s| then [] else [Frame(s[a..LineEnd(s, a)])] + Frames(s, LineEnd(s, a))
  }

  /** Copy one line into a frame and step over what did not fit. */
  method CopyLine(line: string, start: nat) returns (frame: string, i: nat)
    requires start <= |line|
    ensures i == LineEnd(line, start)
    ensures frame + CRLF == Frame(line[start..i]) && (frame == "" <==> i == start)
  {
    i := start;
    frame := "";
    ghost var end := LineEnd(line, start);
    while i < |line| && !IsBreak(line[i]) && |frame| + 3 < 40
      invariant start <= i <= end && LineEnd(line, i) == end && frame == line[start..i] && |frame| <= FRAME_TEXT
    {
      frame := frame + [line[i]];
      i := i + 1;
    }
    assert frame == line[start..end][..|frame|];
    while i < |line| && !IsBreak(line[i])
      invariant start <= i <= end && LineEnd(line, i) == end
      invariant i > start + |frame| ==> |frame| == FRAME_TEXT
    {
      i := i + 1;
    }
    assert line[start..end][..|line[start..end]|] == line[start..end];
  }

  method SkipLineBreaks(line: string, start: nat) returns (i: nat)
    requires start <= |line|
    ensures i == SkipBreaks(line, start)
  {
    i := start;
    while i < |line| && IsBreak(line[i])
      invariant start <= i <= |line| && SkipBreaks(line, i) == SkipBreaks(line, start)
    {
      i := i + 1;
    }
  }

  /**
   shSendReportLines. The UART refuses the frame with index `refusedAt` and accepts the earlier
   ones; a larger index means that every send succeeds. `ok` is what is noted about the report.
   */
  method SendLines(line: string, refusedAt: nat) returns (sent: seq<string>, ok: bool)
    ensures ok <==> refusedAt >= |Frames(line, 0)|
    ensures sent == if ok then Frames(line, 0) else Frames(line, 0)[..refusedAt]
  {
    hide Frame, LineEnd, SkipBreaks;
    var n := |line|;
    var i := 0;
    sent := [];
    while i < n
      invariant 0 <= i <= n && |sent| <= refusedAt
      invariant Frames(line, 0) == sent + Frames(line, i)
      decreases n - i
    {
      ghost var i0 := i;
      i := SkipLineBreaks(line, i);
      ghost var a := i;
      var frame;
      frame, i := CopyLine(line, i);
      if frame == "" {
        continue;
      }
      FramesStep(line, i0);
      if |sent| == refusedAt {
        assert Frames(line, 0)[..refusedAt] == sent;
        return sent, false;
      }
      sent := sent + [frame + ['\r'] + ['\n']];
      assert frame + ['\r'] + ['\n'] == frame + CRLF;
    }
    ok := true;
  }

  lemma FramesStep(line: string, i: nat)
    requires i <= |line| && SkipBreaks(line, i) < |line|
    ensures var a := SkipBreaks(line, i);
            LineEnd(line, a) > a && Frames(line, i) == [Frame(line[a..LineEnd(line, a)])] + Frames(line, LineEnd(line, a))
  {
  }

  /** Concatenation of what went out. */
  function Flatten(fs: seq<string>): string {
    if fs == [] then "" else Flatten(fs[..|fs| - 1]) + fs[|fs| - 1]
  }

  function FramesOf(lines: seq<string>): (fs: seq<string>)
    ensures |fs| == |lines| && forall i :: 0 <= i < |fs| ==> fs[i] == lines[i] + CRLF
  {
    seq(|lines|, i requires 0 <= i < |lines| => lines[i] + CRLF)
  }

  /** Non-empty lines without breaks that fit a frame. */
  ghost predicate Framable(lines: seq<string>) {
    forall i :: 0 <= i < |lines| ==> lines[i] != "" && Plain(lines[i]) && |lines[i]| <= FRAME_TEXT
  }

  /** Splitting from a position inside the text only looks at what follows it. */
  lemma {:induction false} LineEndFrom(s: string, t: string, u: string, i: nat)
    requires i <= |t| && (forall k :: i <= k < |t| ==> !IsBreak(t[k])) && u != "" && IsBreak(u[0])
    ensures LineEnd(s + t + u, |s| + i) == |s| + |t|
    decreases |t| - i
  {
    var w := s + t + u;
    if i < |t| {
      assert w[|s| + i] == t[i];
      LineEndFrom(s, t, u, i + 1);
    } else {
      assert w[|s| + i] == u[0];
    }
  }

  /** The text of the lines from index `k` on, split where line `k` begins. */
  function Tail(lines: seq<string>, k: nat): string
    requires k <= |lines|
    decreases |lines| - k
  {
    if k == |lines| then "" else lines[k] + CRLF + Tail(lines, k + 1)
  }

  lemma {:induction false} JoinedSplit(lines: seq<string>, k: nat)
    requires k <= |lines|
    ensures Joined(lines) == Joined(lines[..k]) + Tail(lines, k)
    decreases |lines| - k
  {
    if k == |lines| {
      assert lines[..k] == lines;
      assert Joined(lines) + "" == Joined(lines);
    } else {
      JoinedSplit(lines, k + 1);
      assert lines[..k + 1][..k] == lines[..k];
      assert Joined(lines[..k]) + lines[k] + CRLF + Tail(lines, k + 1)
             == Joined(lines[..k]) + (lines[k] + CRLF + Tail(lines, k + 1));
    }
  }

  /** The splitter standing in front of line `k`, or at the terminator before it. */
  ghost predicate Before(lines: seq<string>, k: nat, i: nat)
    requires k <= |lines|
  {
    i == |Joined(lines[..k])| || (k > 0 && i + 2 == |Joined(lines[..k])|)
  }

  /** It finds line `k` next, and nothing after the last one. */
  lemma NextLine(lines: seq<string>, k: nat, i: nat)
    requires Framable(lines) && k <= |lines| && Before(lines, k, i)
    ensures var s, start := Joined(lines), |Joined(lines[..k])|;
            && i <= start <= |s| && SkipBreaks(s, i) == start
            && (k == |lines| ==> start == |s|)
            && (k < |lines| ==> start < |s| && LineEnd(s, start) == start + |lines[k]| <= |s|
                                && s[start..start + |lines[k]|] == lines[k]
                                && Before(lines, k + 1, start + |lines[k]|))
  {
    var s := Joined(lines);
    var before, start := Joined(lines[..k]), |Joined(lines[..k])|;
    JoinedSplit(lines, k);
    if k < |lines| {
      var after := CRLF + Tail(lines, k + 1);
      assert s == before + lines[k] + after;
      LineEndFrom(before, lines[k], after, 0);
      assert s[start] == lines[k][0];
      assert lines[..k + 1][..k] == lines[..k];
    } else {
      assert lines[..k] == lines;
    }
    if i != start {
      EndsWithBreak(lines, k);
      assert s[i] == before[i] && s[i + 1] == before[i + 1];
      assert SkipBreaks(s, i) == SkipBreaks(s, i + 1) == SkipBreaks(s, i + 2);
    }
  }

  ghost function FramesTail(lines: seq<string>, k: nat): seq<string>
    requires k <= |lines|
    decreases |lines| - k
  {
    if k == |lines| then [] else [lines[k] + CRLF] + FramesTail(lines, k + 1)
  }

  lemma {:induction false} FramesTailOf(lines: seq<string>, k: nat)
    requires k <= |lines|
    ensures FramesTail(lines, k) == FramesOf(lines)[k..]
    decreases |lines| - k
  {
    if k < |lines| {
      FramesTailOf(lines, k + 1);
    }
  }

  lemma ShortFrame(line: string)
    ensures |line| <= FRAME_TEXT ==> Frame(line) == line + CRLF
  {
  }

  lemma {:induction false} FramesFrom(lines: seq<string>, k: nat, i: nat)
    requires Framable(lines) && k <= |lines| && i <= |Joined(lines)| && Before(lines, k, i)
    ensures Frames(Joined(lines), i) == FramesTail(lines, k)
    decreases |lines| - k
  {
    hide Joined, Before, SkipBreaks, LineEnd, Frame;
    NextLine(lines, k, i);
    if k < |lines| {
      var start := |Joined(lines[..k])|;
      FramesStep(Joined(lines), i);
      ShortFrame(lines[k]);
      hide Frames, Framable;
      FramesFrom(lines, k + 1, start + |lines[k]|);
    }
  }

  lemma EndsWithBreak(lines: seq<string>, k: nat)
    requires 0 < k <= |lines|
    ensures var j := Joined(lines[..k]); |j| >= 2 && j[|j| - 2] == '\r' && j[|j| - 1] == '\n'
  {
  }

  /** Framable lines come out one frame each, and the frames concatenate to the text. */
  lemma FramingIsFaithful(lines: seq<string>)
    requires Framable(lines)
    ensures Frames(Joined(lines), 0) == FramesOf(lines)
    ensures Flatten(Frames(Joined(lines), 0)) == Joined(lines)
  {
    assert lines[..0] == [];
    FramesFrom(lines, 0, 0);
    FramesTailOf(lines, 0);
    FlattenFrames(lines);
  }

  lemma {:induction false} FlattenFrames(lines: seq<string>)
    ensures Flatten(FramesOf(lines)) == Joined(lines)
  {
    if lines != [] {
      var n := |lines| - 1;
      FlattenFrames(lines[..n]);
      assert FramesOf(lines)[..n] == FramesOf(lines[..n]);
    }
  }

  // ---- The whole report --------------------------------------------------------------

  function Report(r: Readings): string { Joined(Lines(r)) }

  /** Sum of the first `k` widths with their terminators. */
  function WidthSum(k: nat): nat {
    if k == 0 then 0 else WidthSum(k - 1) + Width(k - 1) + 2
  }

  lemma {:induction false} ReportLength(r: Readings, k: nat)
    requires r.Valid() && k <= LINE_COUNT
    ensures |Joined(Lines(r)[..k])| <= WidthSum(k)
  {
    hide Lines, Width;
    if k > 0 {
      ReportLength(r, k - 1);
      LinesPlain(r, k - 1);
      assert Lines(r)[..k][..k - 1] == Lines(r)[..k - 1];
    }
  }

  /**
   For all readings the report fits the 192-byte buffer with room to spare, and when every send
   succeeds the frames put together are exactly the report.
   */
  lemma ReportSurvivesFraming(r: Readings)
    requires r.Valid()
    ensures |Report(r)| <= 147 < LINE_MAX
    ensures Flatten(Frames(Report(r), 0)) == Report(r) && |Frames(Report(r), 0)| == LINE_COUNT
  {
    assert WidthSum(5) == 68;
    assert WidthSum(11) == 147;
    hide Lines, Width;
    forall i: nat | i < LINE_COUNT
      ensures Lines(r)[i] != "" && Plain(Lines(r)[i]) && |Lines(r)[i]| <= FRAME_TEXT
    {
      LinesPlain(r, i);
    }
    ReportLength(r, LINE_COUNT);
    assert Lines(r)[..LINE_COUNT] == Lines(r);
    FramingIsFaithful(Lines(r));
  }

  // ---- Building it in the buffer --------------------------------------------------------

  /** The report up to line `k`, not yet terminated. */
  function Text(r: Readings, k: nat): string
    requires k < LINE_COUNT
  {
    Joined(Lines(r)[..k]) + LineAt(r, k)
  }

  lemma TextStep(r: Readings, k: nat)
    requires r.Valid() && k < LINE_COUNT
    ensures |Text(r, k)| + 2 <= 147
    ensures k + 1 < LINE_COUNT ==> Text(r, k) + (CRLF + LineAt(r, k + 1)) == Text(r, k + 1)
    ensures k + 1 == LINE_COUNT ==> Text(r, k) + CRLF == Report(r)
    ensures k == 0 ==> Text(r, k) == LineAt(r, 0)
  {
    hide LineAt;
    assert Lines(r)[..k + 1][..k] == Lines(r)[..k];
    assert Joined(Lines(r)[..k + 1]) == Text(r, k) + CRLF;
    assert Lines(r)[..LINE_COUNT] == Lines(r);
    ReportLength(r, k + 1);
    WidthsFit(k + 1);
  }

  lemma {:induction false} WidthsFit(k: nat)
    requires k <= LINE_COUNT
    ensures WidthSum(k) <= 147
    decreases LINE_COUNT - k
  {
    if k < LINE_COUNT {
      WidthsFit(k + 1);
    } else {
      assert WidthSum(5) == 68;
    }
  }

  /** A label and a word, when both fit. */
  method AppendWord(dst: array<char>, n: nat, tag: string, word: string) returns (m: nat)
    requires dst.Length == LINE_MAX && n + |tag| + |word| < LINE_MAX
    modifies dst
    ensures m < LINE_MAX && dst[..m] == old(dst[..n]) + (tag + word)
  {
    m := Append(dst, n, LINE_MAX, tag);
    m := Append(dst, m, LINE_MAX, word);
  }

  method AppendMeasured(dst: array<char>, n: nat, tag: string, v: Option<int>, u: string) returns (m: nat)
    requires dst.Length == LINE_MAX && n + |tag| + |Measured(v, u)| < LINE_MAX && (v.Some? ==> IsI16(v.value))
    modifies dst
    ensures m < LINE_MAX && dst[..m] == old(dst[..n]) + (tag + Measured(v, u))
  {
    hide Hundredths;
    m := Append(dst, n, LINE_MAX, tag);
    if v.None? {
      m := Append(dst, m, LINE_MAX, "na");
    } else {
      m := AppendX100(dst, m, LINE_MAX, v.value);
      m := Append(dst, m, LINE_MAX, u);
    }
  }

  method AppendCount(dst: array<char>, n: nat, tag: string, v: nat, u: string) returns (m: nat)
    requires dst.Length == LINE_MAX && n + |tag| + |Decimal(v) + u| < LINE_MAX && v <= 0xffff
    modifies dst
    ensures m < LINE_MAX && dst[..m] == old(dst[..n]) + (tag + (Decimal(v) + u))
  {
    hide Decimal;
    m := Append(dst, n, LINE_MAX, tag);
    m := AppendU(dst, m, LINE_MAX, v);
    m := Append(dst, m, LINE_MAX, u);
  }

  /** Appending the next line, its separator included, to what is there. */
  lemma NextPiece(r: Readings, k: nat, tag: string, value: string)
    requires r.Valid() && k + 1 < LINE_COUNT && LineAt(r, k + 1) == tag + value
    ensures |Text(r, k)| + |CRLF + tag| + |value| < LINE_MAX
    ensures Text(r, k) + ((CRLF + tag) + value) == Text(r, k + 1)
  {
    hide LineAt;
    TextStep(r, k);
    TextStep(r, k + 1);
    assert (CRLF + tag) + value == CRLF + (tag + value);
  }

  method BuildMotion(dst: array<char>, r: Readings) returns (n: nat)
    requires dst.Length == LINE_MAX && r.Valid()
    modifies dst
    ensures n < LINE_MAX && dst[..n] == Text(r, 0)
  {
    TextStep(r, 0);
    hide Text;
    n := AppendWord(dst, 0, "motion:", if r.moving then "moving" else "still");
  }

  method BuildWords(dst: array<char>, r: Readings) returns (n: nat)
    requires dst.Length == LINE_MAX && r.Valid()
    modifies dst
    ensures n < LINE_MAX && dst[..n] == Text(r, 3)
  {
    n := BuildMotion(dst, r);
    NextPiece(r, 0, "restart:", YesNo(r.restart));
    NextPiece(r, 1, "fall:", YesNo(r.fall));
    NextPiece(r, 2, "pulse:", PulseText(r.pulse));
    hide Text, YesNo, PulseText;
    n := AppendWord(dst, n, CRLF + "restart:", YesNo(r.restart));
    n := AppendWord(dst, n, CRLF + "fall:", YesNo(r.fall));
    n := AppendWord(dst, n, CRLF + "pulse:", PulseText(r.pulse));
  }

  method BuildClimate(dst: array<char>, n0: nat, r: Readings) returns (n: nat)
    requires dst.Length == LINE_MAX && r.Valid() && n0 < LINE_MAX && dst[..n0] == Text(r, 3)
    modifies dst
    ensures n < LINE_MAX && dst[..n] == Text(r, 6)
  {
    NextPiece(r, 3, "body:", Measured(r.body, "C"));
    NextPiece(r, 4, "amb:", Measured(r.ambient, "C"));
    NextPiece(r, 5, "rh:", Measured(r.humidity, "%"));
    hide Text, Measured;
    n := AppendMeasured(dst, n0, CRLF + "body:", r.body, "C");
    n := AppendMeasured(dst, n, CRLF + "amb:", r.ambient, "C");
    n := AppendMeasured(dst, n, CRLF + "rh:", r.humidity, "%");
  }

  method BuildVoc(dst: array<char>, n0: nat, r: Readings) returns (n: nat)
    requires dst.Length == LINE_MAX && r.Valid() && n0 < LINE_MAX && dst[..n0] == Text(r, 6)
    modifies dst
    ensures n < LINE_MAX && dst[..n] == Text(r, 7)
  {
    NextPiece(r, 6, "voc:", Voc(r.voc));
    hide Text, Decimal;
    if r.voc.None? {
      n := AppendWord(dst, n0, CRLF + "voc:", "na");
    } else {
      n := AppendCount(dst, n0, CRLF + "voc:", r.voc.value, "ppb");
    }
  }

  method BuildGases(dst: array<char>, n0: nat, r: Readings) returns (n: nat)
    requires dst.Length == LINE_MAX && r.Valid() && n0 < LINE_MAX && dst[..n0] == Text(r, 7)
    modifies dst
    ensures n < LINE_MAX && dst[..n] == Text(r, 9)
  {
    NextPiece(r, 7, "co:", Decimal(CoPpm(r.coRatio)) + "ppm");
    NextPiece(r, 8, "nh3:", Decimal(Nh3Ppm(r.nh3Ratio)) + "ppm");
    hide Text, Decimal, CoPpm, Nh3Ppm;
    n := AppendCount(dst, n0, CRLF + "co:", CoPpm(r.coRatio), "ppm");
    n := AppendCount(dst, n, CRLF + "nh3:", Nh3Ppm(r.nh3Ratio), "ppm");
  }

  method BuildNo2(dst: array<char>, n0: nat, r: Readings) returns (n: nat)
    requires dst.Length == LINE_MAX && r.Valid() && n0 < LINE_MAX && dst[..n0] == Text(r, 9)
    modifies dst
    ensures n < LINE_MAX && dst[..n] == Report(r)
  {
    NextPiece(r, 9, "no2:", Hundredths(No2PpmX100(r.no2Ratio)) + "ppm");
    TextStep(r, 10);
    hide Text, Report, Hundredths, No2PpmX100;
    n := AppendMeasured(dst, n0, CRLF + "no2:", Some(No2PpmX100(r.no2Ratio)), "ppm");
    n := Append(dst, n, LINE_MAX, CRLF);
  }

  /** SmartHelmet_ReportStart builds exactly the report, terminators included, without truncation. */
  method BuildReport(dst: array<char>, r: Readings) returns (n: nat)
    requires dst.Length == LINE_MAX && r.Valid()
    modifies dst
    ensures n < LINE_MAX && dst[..n] == Report(r)
  {
    n := BuildWords(dst, r);
    n := BuildClimate(dst, n, r);
    n := BuildVoc(dst, n, r);
    n := BuildGases(dst, n, r);
    n := BuildNo2(dst, n, r);
  }
}
