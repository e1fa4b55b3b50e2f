/**
 Wi-SUN progress seen at message boundaries (smart_helmet_uart.c). One message of the module task is a timer, a
 report tick, or a drain of however many chunks the stream holds. A message may take the machine
 through DONE and straight back to re-entry; here it is said exactly when that happens, how
 many timer firings it can cost, and that a peer can repeat it for ever.
 */
module WisunProgress {
  import opened CArithmetic
  import opened TextSearch
  import opened WisunLink

  // ---- The line assembler as a function of the text -------------------------------------

  /** The unfinished line after one more byte. */
  function TailByte(line: string, c: char): string {
    if c == '\n' then "" else if c == '\r' then line
    else (if |line| >= LINE_BUF then "" else line) + [c]
  }

  function Tail(line: string, data: string): string {
    if data == "" then line else TailByte(Tail(line, data[..|data| - 1]), data[|data| - 1])
  }

  /** The byte completes a line that complains about a command. */
  predicate Completes(line: string, c: char) {
    (c == '\n' || (c != '\r' && |line| >= LINE_BUF)) && ContainsFold(line, "cmd too long")
  }

  /** Some line completed by the chunk says "cmd too long". */
  predicate TooLongIn(line: string, data: string) {
    data != ""
    && (TooLongIn(line, data[..|data| - 1]) || Completes(Tail(line, data[..|data| - 1]), data[|data| - 1]))
  }

  // ---- What the text of a chunk does ------------------------------------------------------

  /** All of the machine that decides where a chunk leads. */
  datatype View = View(step: Step, toReset: bool, line: string, retry: nat, lastRejoin: nat)

  function ViewOf(l: Link): View { View(l.step, l.leaveToReset, l.line, l.retry, l.join.lastRejoin) }

  predicate SendFailed(data: string) { ContainsFold(data, "send fail") }

  /** Too soon after the last rejoin. */
  predicate Limited(lastRejoin: nat, now: nat) {
    lastRejoin != 0 && (now - lastRejoin) % 0x1_0000_0000 < REJOIN_MS
  }

  /** The verdict on the last send: a failure rejoins unless limited or re-entering, a confirmation ends re-entry. */
  function Noted(v: View, data: string, now: nat): View {
    if SendFailed(data) then
      if Reentering(v.step) || Limited(v.lastRejoin, now) then v
      else v.(step := Leave, toReset := false, lastRejoin := now)
    else if Confirms(data) then v.(retry := 0, step := if Reentering(v.step) then Done else v.step)
    else v
  }

  /** The lines completed: a complaint re-enters from DONE while a retry is left. */
  function Lined(v: View, data: string): View {
    (if (v.step == Done || v.step == Idle) && v.retry < REENTRIES && TooLongIn(v.line, data)
     then v.(step := Leave, toReset := false, retry := v.retry + 1) else v).(line := Tail(v.line, data))
  }

  function AfterChunk(v: View, data: string, now: nat): View { Lined(Noted(v, data, now), data) }

  lemma ByteLined(v: View, w: View, m: Link, before: bool, c: char)
    requires ViewOf(m) == w
    requires w == (if (v.step == Done || v.step == Idle) && v.retry < REENTRIES && before
                   then v.(step := Leave, toReset := false, retry := v.retry + 1) else v).(line := w.line)
    ensures ViewOf(LineByte(m, c)) ==
            (if (v.step == Done || v.step == Idle) && v.retry < REENTRIES && (before || Completes(w.line, c))
             then v.(step := Leave, toReset := false, retry := v.retry + 1) else v).(line := TailByte(w.line, c))
  {
    hide ContainsFold;
  }

  /** The line assembler on the machine does to the view what the completed lines say. */
  lemma {:induction false} LinesExactly(l: Link, data: string)
    ensures ViewOf(LinePush(l, data)) == Lined(ViewOf(l), data)
  {
    if data != "" {
      var n := |data| - 1;
      hide ContainsFold, LineByte, ViewOf, Completes, TailByte;
      LinesExactly(l, data[..n]);
      ByteLined(ViewOf(l), ViewOf(LinePush(l, data[..n])), LinePush(l, data[..n]), TooLongIn(l.line, data[..n]), data[n]);
      SameLine(l);
    }
  }

  lemma SameLine(l: Link)
    ensures ViewOf(l).line == l.line
  {
  }

  lemma NotedExactly(l: Link, data: string, now: nat)
    ensures ViewOf(NoteRx(l, data, now)) == Noted(ViewOf(l), data, now)
  {
    hide ContainsFold;
  }

  /** The view after a chunk is a function of the view before it and the text: nothing else matters. */
  lemma ChunkExactly(l: Link, data: string, now: nat)
    ensures ViewOf(OnReceive(l, data, now)) == AfterChunk(ViewOf(l), data, now)
  {
    var l1 := Buffered(l, data);
    assert ViewOf(l1) == ViewOf(l);
    NotedExactly(l1, data, now);
    var l2 := NoteRx(l1, data, now);
    LinesExactly(l2, data);
    SettledView(LinePush(l2, data));
    hide Buffered, NoteRx, LinePush, Settled, Noted, Lined, ViewOf;
  }

  lemma SettledView(l: Link)
    ensures ViewOf(Settled(l)) == ViewOf(l)
  {
    hide ContainsFold;
  }

  /** From DONE a chunk leaves it by an unlimited "send fail", or by a complaining line with a retry left. */
  lemma LeavesDoneExactly(v: View, data: string, now: nat)
    requires v.step == Done
    ensures AfterChunk(v, data, now).step != Done <==>
            || (SendFailed(data) && !Limited(v.lastRejoin, now))
            || (TooLongIn(v.line, data) && (Confirms(data) || v.retry < REENTRIES))
  {
    hide ContainsFold, TooLongIn, Tail;
  }

  /** From re-entry a chunk ends in DONE by a confirmation without a complaining line. */
  lemma EntersDoneExactly(v: View, data: string, now: nat)
    requires Reentering(v.step)
    ensures AfterChunk(v, data, now).step == Done <==> Confirms(data) && !TooLongIn(v.line, data)
  {
    hide ContainsFold, TooLongIn, Tail;
  }

  // ---- Drains ---------------------------------------------------------------------------------

  datatype Chunk = Chunk(data: string, now: nat)

  /** The view after a drain. */
  function AfterDrain(v: View, cs: seq<Chunk>): View {
    if cs == [] then v
    else AfterChunk(AfterDrain(v, cs[..|cs| - 1]), cs[|cs| - 1].data, cs[|cs| - 1].now)
  }

  /** Some chunk of the drain confirms during re-entry, which is how a drain reaches DONE. */
  predicate Reaches(v: View, cs: seq<Chunk>) {
    cs != [] && (Reaches(v, cs[..|cs| - 1])
                 || (Reentering(AfterDrain(v, cs[..|cs| - 1]).step) && Confirms(cs[|cs| - 1].data)))
  }

  function Chunks(cs: seq<Chunk>): (es: seq<Event>)
    ensures |es| == |cs|
  {
    seq(|cs|, i requires 0 <= i < |cs| => Received(cs[i].data, cs[i].now))
  }

  lemma ChunksSnoc(l: Link, cs: seq<Chunk>)
    requires cs != []
    ensures var n := |cs| - 1;
            && Chunks(cs)[..n] == Chunks(cs[..n]) && Chunks(cs)[n] == Received(cs[n].data, cs[n].now)
            && Run(l, Chunks(cs)) == OnReceive(Run(l, Chunks(cs[..n])), cs[n].data, cs[n].now)
            && Timeouts(Chunks(cs)) == Timeouts(Chunks(cs[..n]))
  {
    hide OnReceive;
    var n := |cs| - 1;
    assert Chunks(cs)[..n] == Chunks(cs[..n]);
  }

  /** Where a drain ends, for any number of chunks and any bytes, is decided by the view and the text alone. */
  lemma {:induction false} DrainExactly(l: Link, cs: seq<Chunk>)
    ensures ViewOf(Run(l, Chunks(cs))) == AfterDrain(ViewOf(l), cs)
  {
    if cs != [] {
      var n := |cs| - 1;
      DrainExactly(l, cs[..n]);
      ChunksSnoc(l, cs);
      hide OnReceive, AfterChunk, Run, Chunks, ViewOf;
      ChunkExactly(Run(l, Chunks(cs[..n])), cs[n].data, cs[n].now);
    }
  }

  /** A view on its way: not at rest, and not in DONE before the drain has reached it. */
  predicate Under(v: View, reached: bool) {
    && v.step != Idle
    && (reached ==> v.step == Done || (v.step == Leave && !v.toReset))
    && (!reached ==> v.step != Done)
  }

  lemma {:induction false} DrainUnder(v: View, cs: seq<Chunk>)
    requires Under(v, false)
    ensures Under(AfterDrain(v, cs), Reaches(v, cs))
  {
    hide ContainsFold, TooLongIn, Tail, Confirms, SendFailed, Limited;
    if cs != [] {
      DrainUnder(v, cs[..|cs| - 1]);
      ChunkUnder(AfterDrain(v, cs[..|cs| - 1]), Reaches(v, cs[..|cs| - 1]), cs[|cs| - 1].data, cs[|cs| - 1].now);
    }
  }

  lemma ChunkUnder(v: View, reached: bool, data: string, now: nat)
    requires Under(v, reached)
    ensures Under(AfterChunk(v, data, now), reached || (Reentering(v.step) && Confirms(data)))
  {
    hide ContainsFold, TooLongIn, Tail, Limited;
  }

  /** A drain that never reaches DONE costs no progress. */
  lemma {:induction false} DrainKeeps(l: Link, cs: seq<Chunk>)
    requires Inv(l) && Waiting(l.step)
    ensures Inv(Run(l, Chunks(cs)))
    ensures !Reaches(ViewOf(l), cs) ==> Progress(l, Run(l, Chunks(cs)), 0)
  {
    hide Inv, Remaining, OnReceive, AfterChunk, Chunks, ViewOf, Confirms;
    if cs == [] {
      assert Run(l, Chunks(cs)) == l by { NoChunks(l); }
    } else {
      var n := |cs| - 1;
      DrainKeeps(l, cs[..n]);
      ChunksSnoc(l, cs);
      var m := Run(l, Chunks(cs[..n]));
      hide Run;
      DrainExactly(l, cs[..n]);
      ViewPhase(m);
      ReceiveKeeps(m, cs[n].data, cs[n].now);
    }
  }

  lemma NoChunks(l: Link)
    ensures Run(l, Chunks([])) == l
  {
    assert Chunks([]) == [];
  }

  lemma ViewPhase(l: Link)
    ensures ViewOf(l).step == l.step
    ensures ViewOf(l).toReset == l.leaveToReset && ViewOf(l).line == l.line && ViewOf(l).retry == l.retry
  {
  }

  // ---- Messages -------------------------------------------------------------------------------

  /** LINK_CHECK; RX_POLL or MORE_DATA with the chunks they drain; REPORT_TICK. */
  datatype Message =
    | Check(sensorsReady: bool, sendOk: bool, now: nat)
    | Drain(chunks: seq<Chunk>)
    | Tick(sensorsReady: bool, sendOk: bool, now: nat)

  function Events(m: Message): seq<Event> {
    match m
    case Check(ready, ok, now) => [Timeout(ready, ok, now)]
    case Drain(cs) => Chunks(cs)
    case Tick(ready, ok, now) => [ReportTick(ready, ok, now)]
  }

  /** A timer is delivered only while pending, bytes only through an open port. */
  predicate Possible(l: Link, m: Message) {
    match m
    case Check(_, _, _) => l.timers.link
    case Drain(_) => l.port.open
    case Tick(_, _, _) => l.timers.report
  }

  function Deliver(l: Link, m: Message): Link { Run(l, Events(m)) }

  /** Too soon after the last rejoin. */
  predicate RateLimited(l: Link, now: nat) { Limited(l.join.lastRejoin, now) }

  /** The write of this report, or the twelfth unconfirmed one in a row, asks for a rejoin. */
  predicate AsksRejoin(l: Link, sendOk: bool) {
    !sendOk || (l.join.okWait && l.join.missedOk + 1 >= MISSED_MAX)
  }

  /** The message takes a machine on its way through DONE. */
  predicate PassesDone(l: Link, m: Message) {
    match m
    case Check(_, _, _) => l.step == Pass && !(Rejected(l) && l.retry < REENTRIES)
    case Drain(cs) => Reaches(ViewOf(l), cs)
    case Tick(_, _, _) => false
  }

  /**
   The message passes DONE and does not end there: the report that opens passthrough asks for a rejoin that is not
   rate-limited, or the text drained after the confirmation leaves DONE again.
   */
  predicate Bounces(l: Link, m: Message) {
    PassesDone(l, m) &&
    match m
    case Check(ready, ok, now) =>
      (WisunLink.Entered(l) || !Rejected(l)) && ready && AsksRejoin(l, ok) && !RateLimited(l, now)
    case Drain(cs) => AfterDrain(ViewOf(l), cs).step != Done
    case Tick(_, _, _) => false
  }

  lemma PassBounces(l: Link, ready: bool, ok: bool, now: nat)
    requires l.step == Pass && !(Rejected(l) && l.retry < REENTRIES)
    ensures var z := OnTimeout(l, ready, ok, now);
            && (z.step == Done <==> !Bounces(l, Check(ready, ok, now)))
            && (Bounces(l, Check(ready, ok, now)) ==> z.step == Leave && !z.leaveToReset && z.retry == l.retry)
  {
    var l' := l.(timers := l.timers.(link := false));
    assert Rejected(l') == Rejected(l) && WisunLink.Entered(l') == WisunLink.Entered(l);
    hide Rejected, WisunLink.Entered;
    var d := l'.(step := Done, passthrough := true, status := l'.status.(online := false));
    FirstReport(d, ready, ok, now);
    hide Report;
  }

  /** The report that opens passthrough. */
  lemma FirstReport(d: Link, ready: bool, ok: bool, now: nat)
    requires d.step == Done && d.passthrough
    ensures var z := Report(d, ready, ok, now);
            && (ready && AsksRejoin(d, ok) && !RateLimited(d, now) ==> z.step == Leave && !z.leaveToReset && z.retry == d.retry)
            && (!(ready && AsksRejoin(d, ok) && !RateLimited(d, now)) ==> z.step == Done)
  {
  }

  lemma OneEvent(l: Link, e: Event)
    ensures Run(l, [e]) == Next(l, e)
  {
    assert [e][..0] == [];
  }

  /** What a message does to a machine that waits for DONE. */
  ghost predicate Moves(l: Link, m: Message, z: Link) {
    && Inv(z)
    && (z.step == Done <==> PassesDone(l, m) && !Bounces(l, m))
    && (z.step != Done ==> Waiting(z.step))
    && (Bounces(l, m) ==> Remaining(z) <= 9)
    && (!PassesDone(l, m) ==> Remaining(z) <= Remaining(l) - if m.Check? then 1 else 0)
  }

  lemma CheckMoves(l: Link, ready: bool, ok: bool, now: nat)
    requires Inv(l) && Waiting(l.step)
    ensures Moves(l, Check(ready, ok, now), OnTimeout(l, ready, ok, now))
  {
    TimeoutKeeps(l, ready, ok, now);
    var z := OnTimeout(l, ready, ok, now);
    ReentryBound(z);
    if l.step == Pass && !(Rejected(l) && l.retry < REENTRIES) {
      hide OnTimeout, Rejected, WisunLink.Entered, Inv, Remaining, AsksRejoin, RateLimited;
      PassBounces(l, ready, ok, now);
    } else {
      NotThrough(l, ready, ok, now);
      hide OnTimeout, Rejected, Inv, Remaining;
    }
  }

  /** A firing outside PASS, or one that re-enters, ends in a waiting step. */
  lemma NotThrough(l: Link, ready: bool, ok: bool, now: nat)
    requires Inv(l) && Waiting(l.step) && !(l.step == Pass && !(Rejected(l) && l.retry < REENTRIES))
    ensures OnTimeout(l, ready, ok, now).step != Done && !VisitsDone(l, Timeout(ready, ok, now))
  {
    SameReply(l, l.(timers := l.timers.(link := false)));
    hide Rejected, ReplyOk, AtCommand, Plan, Inv, Report, WisunLink.Entered;
  }

  lemma ReentryBound(l: Link)
    requires Inv(l)
    ensures Reentering(l.step) && !l.leaveToReset ==> Remaining(l) <= 9
  {
  }

  lemma DrainMoves(l: Link, cs: seq<Chunk>)
    requires Inv(l) && Waiting(l.step)
    ensures Moves(l, Drain(cs), Run(l, Chunks(cs)))
  {
    hide Inv, Remaining, Chunks, AfterDrain, Reaches, ViewOf;
    var z := Run(l, Chunks(cs));
    hide Run;
    DrainKeeps(l, cs);
    DrainExactly(l, cs);
    ViewPhase(l);
    ViewPhase(z);
    DrainUnder(ViewOf(l), cs);
    ReentryBound(z);
  }

  lemma TickMoves(l: Link, ready: bool, ok: bool, now: nat)
    requires Inv(l) && Waiting(l.step)
    ensures Moves(l, Tick(ready, ok, now), Report(l, ready, ok, now))
  {
    ReportKeeps(l, ready, ok, now);
    hide Inv, Remaining, Report;
  }

  /**
   A message that passes DONE ends there exactly when it does not bounce, and one that does not pass it never ends
   there; a bounce leaves at most nine firings to go, and every other message keeps the count going down.
   */
  lemma BoundaryExactly(l: Link, m: Message)
    requires Inv(l) && Waiting(l.step)
    ensures Moves(l, m, Deliver(l, m))
  {
    hide Moves, OnTimeout, OnReceive, Report, Chunks;
    match m
    case Check(ready, ok, now) =>
      OneEvent(l, Timeout(ready, ok, now));
      CheckMoves(l, ready, ok, now);
    case Drain(cs) =>
      DrainMoves(l, cs);
    case Tick(ready, ok, now) =>
      OneEvent(l, ReportTick(ready, ok, now));
      TickMoves(l, ready, ok, now);
  }

  // ---- Whole runs ----------------------------------------------------------------------------

  function DeliverAll(l: Link, ms: seq<Message>): Link {
    if ms == [] then l else Deliver(DeliverAll(l, ms[..|ms| - 1]), ms[|ms| - 1])
  }

  /** How many timers of the bring-up have fired. */
  ghost function Checks(ms: seq<Message>): nat {
    if ms == [] then 0 else Checks(ms[..|ms| - 1]) + if ms[|ms| - 1].Check? then 1 else 0
  }

  /** How many messages of the run bounce. */
  ghost function BouncesIn(l: Link, ms: seq<Message>): nat {
    if ms == [] then 0
    else BouncesIn(l, ms[..|ms| - 1]) + if Bounces(DeliverAll(l, ms[..|ms| - 1]), ms[|ms| - 1]) then 1 else 0
  }

  /** After no message of the run is the machine in DONE. */
  ghost predicate NeverAtDone(l: Link, ms: seq<Message>) {
    forall n :: 0 <= n <= |ms| ==> DeliverAll(l, ms[..n]).step != Done
  }

  lemma NeverAtDonePrefix(l: Link, ms: seq<Message>)
    requires ms != [] && NeverAtDone(l, ms)
    ensures NeverAtDone(l, ms[..|ms| - 1]) && DeliverAll(l, ms).step != Done
  {
    hide DeliverAll;
    var m := |ms| - 1;
    forall n | 0 <= n <= m
      ensures DeliverAll(l, ms[..m][..n]).step != Done
    {
      assert ms[..m][..n] == ms[..n];
    }
    assert ms[..|ms|] == ms;
  }

  /** Each bounce costs at most nine further firings. */
  lemma {:induction false} FiringsWithBounces(l: Link, ms: seq<Message>)
    requires Inv(l) && Waiting(l.step) && NeverAtDone(l, ms)
    ensures Inv(DeliverAll(l, ms)) && Waiting(DeliverAll(l, ms).step)
    ensures Checks(ms) + Remaining(DeliverAll(l, ms)) <= Remaining(l) + 9 * BouncesIn(l, ms)
  {
    if ms != [] {
      var m := |ms| - 1;
      NeverAtDonePrefix(l, ms);
      FiringsWithBounces(l, ms[..m]);
      var s := DeliverAll(l, ms[..m]);
      BoundaryExactly(s, ms[m]);
      RemainingPositive(s);
      hide Deliver, Remaining, Inv, PassesDone, Bounces;
    }
  }

  /**
   Progress at message boundaries: once more than 37 timers have fired since the verification was
   started, and nine more for every bounce, some message has ended in DONE; without a bounce 38 firings suffice.
   Until then the timer is pending.
   */
  lemma DoneAtBoundary(l: Link, ms: seq<Message>)
    requires |l.line| <= LINE_BUF
    ensures var s := StartVerify(l);
            && (Checks(ms) > 37 + 9 * BouncesIn(s, ms) ==> !NeverAtDone(s, ms))
            && (NeverAtDone(s, ms) ==> DeliverAll(s, ms).timers.link && DeliverAll(s, ms).step != Done)
  {
    hide Deliver, Remaining, Bounces;
    StartKeeps(l);
    var s := StartVerify(l);
    if NeverAtDone(s, ms) {
      FiringsWithBounces(s, ms);
      RemainingPositive(DeliverAll(s, ms));
    }
  }

  lemma {:induction false} DeliverAllKeeps(l: Link, ms: seq<Message>)
    requires Inv(l)
    ensures Inv(DeliverAll(l, ms))
  {
    hide Inv;
    if ms != [] {
      DeliverAllKeeps(l, ms[..|ms| - 1]);
      RunKeeps(DeliverAll(l, ms[..|ms| - 1]), Events(ms[|ms| - 1]));
      hide Events, Run;
    }
  }

  lemma NeverAtDoneNow(l: Link)
    ensures NeverAtDone(l, []) <==> l.step != Done
  {
    var none: seq<Message> := [];
    assert none[..0] == none && DeliverAll(l, none) == l;
  }

  lemma DeliverSnoc(l: Link, ms: seq<Message>, m: Message)
    ensures DeliverAll(l, ms + [m]) == Deliver(DeliverAll(l, ms), m)
    ensures Checks(ms + [m]) == Checks(ms) + if m.Check? then 1 else 0
  {
    hide Deliver;
    assert (ms + [m])[..|ms|] == ms;
  }

  lemma NeverAtDoneSnoc(l: Link, ms: seq<Message>, m: Message)
    ensures NeverAtDone(l, ms + [m]) <==> NeverAtDone(l, ms) && DeliverAll(l, ms + [m]).step != Done
  {
    hide DeliverAll;
    var z := ms + [m];
    assert z[..|z|] == z;
    forall n | 0 <= n <= |ms|
      ensures z[..n] == ms[..n]
    {
    }
    if NeverAtDone(l, z) {
      forall n | 0 <= n <= |ms|
        ensures DeliverAll(l, ms[..n]).step != Done
      {
        assert z[..n] == ms[..n];
      }
    }
  }

  // ---- A peer that bounces the machine for ever ------------------------------------------------

  const OK_LINE: string := "send ok\n"
  const COMPLAINT: string := "cmd too long\n"

  /** The peer's two lines, arriving in one chunk or in two. */
  function Pester(split: bool): Message {
    Drain(if split then [Chunk(OK_LINE, 0), Chunk(COMPLAINT, 0)] else [Chunk(OK_LINE + COMPLAINT, 0)])
  }

  /** Leaving, reaching PASS, and being bounced by the peer. */
  function Rounds(n: nat, split: bool): seq<Message> {
    if n == 0 then [Pester(split)]
    else Rounds(n - 1, split) + [Check(false, false, 0)] + [Check(false, false, 0)] + [Pester(split)]
  }

  ghost predicate Plain(s: string) {
    forall i :: 0 <= i < |s| ==> s[i] != '\n' && s[i] != '\r'
  }

  lemma {:induction false} TailPlain(line: string, a: string, s: string)
    requires Plain(s) && |Tail(line, a)| + |s| <= LINE_BUF
    ensures Tail(line, a + s) == Tail(line, a) + s
  {
    if s == "" {
      assert a + s == a;
    } else {
      var m := |s| - 1;
      TailPlain(line, a, s[..m]);
      assert (a + s)[..|a + s| - 1] == a + s[..m];
      assert Tail(line, a) + s == Tail(line, a) + s[..m] + [s[m]];
    }
  }

  /** Only the first byte of the peer's text is an s. */
  lemma OkLineConfirms(rest: string)
    requires forall i :: 0 <= i < |rest| ==> rest[i] != 's' && rest[i] != 'S'
    ensures Confirms(OK_LINE + rest)
  {
    var data := OK_LINE + rest;
    assert MatchesAt(data, "send ok", 0);
    forall i: nat | i <= |data|
      ensures !MatchesAt(data, "send fail", i)
    {
      if i == 0 {
        assert data[5] == 'o' && "send fail"[5] == 'f';
      } else if i + 9 <= |data| {
        assert data[i] != 's' && data[i] != 'S';
        assert "send fail"[0] == 's';
      }
    }
  }

  lemma ComplaintSaysNothing()
    ensures !Confirms(COMPLAINT) && !SendFailed(COMPLAINT)
  {
    forall i: nat | i <= |COMPLAINT|
      ensures !MatchesAt(COMPLAINT, "send ok", i) && !MatchesAt(COMPLAINT, "send fail", i)
    {
      if i < |COMPLAINT| {
        assert COMPLAINT[i] != 's' && COMPLAINT[i] != 'S';
        assert "send ok"[0] == 's' && "send fail"[0] == 's';
      }
    }
  }

  lemma ContainsItself(s: string)
    requires s != ""
    ensures ContainsFold(s, s)
  {
    assert MatchesAt(s, s, 0);
  }

  lemma EndOfLine(line: string, s: string)
    ensures Tail(line, s + "\n") == ""
    ensures ContainsFold(Tail(line, s), "cmd too long") ==> TooLongIn(line, s + "\n")
  {
    hide ContainsFold;
    assert (s + "\n")[..|s|] == s && |s + "\n"| == |s| + 1;
  }

  lemma Complains(line: string)
    requires line == "" || line == OK_LINE
    ensures var s := if line == "" then COMPLAINT else OK_LINE + COMPLAINT;
            TooLongIn("", s) && Tail("", s) == "" && Tail("", OK_LINE) == ""
  {
    hide Tail, TooLongIn, ContainsFold;
    var first, second := "send ok", "cmd too long";
    EndOfLine("", first);
    assert OK_LINE == first + "\n" && COMPLAINT == second + "\n";
    ContainsItself(second);
    NoText();
    if line == "" {
      TailPlain("", "", second);
      assert "" + second == second;
      EndOfLine("", second);
    } else {
      TailPlain("", first + "\n", second);
      var both := first + "\n" + second;
      assert Tail("", both) == second;
      EndOfLine("", both);
      assert OK_LINE + COMPLAINT == both + "\n";
    }
  }

  lemma NoText()
    ensures Tail("", "") == ""
  {
  }

  lemma NoComplaintYet()
    ensures !TooLongIn("", OK_LINE)
  {
    var first := "send ok";
    assert OK_LINE == first + "\n";
    hide ContainsFold;
    PlainCompletesNothing(first);
    assert (first + "\n")[..|first|] == first;
    NoText();
    TailPlain("", "", first);
    assert "" + first == first;
    TooShort(first);
    hide TooLongIn, Tail;
    assert TooLongIn("", first + "\n") ==> TooLongIn("", first) || Completes(Tail("", first), '\n') by {
      LastByte("", first);
    }
  }

  lemma LastByte(line: string, s: string)
    ensures TooLongIn(line, s + "\n") ==> TooLongIn(line, s) || Completes(Tail(line, s), '\n')
  {
    hide Completes, Tail;
    assert (s + "\n")[..|s|] == s;
  }

  lemma TooShort(s: string)
    requires |s| < 12
    ensures !ContainsFold(s, "cmd too long")
  {
  }

  lemma {:induction false} PlainCompletesNothing(s: string)
    requires Plain(s) && |s| <= LINE_BUF
    ensures !TooLongIn("", s) && Tail("", s) == s
  {
    if s != "" {
      var m := |s| - 1;
      PlainCompletesNothing(s[..m]);
      assert s == s[..m] + [s[m]];
      hide ContainsFold;
    }
  }

  /** Where every round starts and ends. */
  ghost predicate Pestered(l: Link) {
    Inv(l) && l.step == Leave && !l.leaveToReset && l.line == "" && l.port.open
  }

  lemma PesterTurnsBack(v: View, split: bool)
    requires Reentering(v.step) && v.line == ""
    ensures Reaches(v, Pester(split).chunks)
    ensures AfterDrain(v, Pester(split).chunks) == View(Leave, false, "", 1, v.lastRejoin)
  {
    hide ContainsFold, TooLongIn, Tail, Confirms, SendFailed, Limited, AfterDrain, Reaches;
    if split {
      NoComplaintYet();
      ComplaintSaysNothing();
      Complains("");
      OkLineAlone();
      ConfirmedIsNoFailure(OK_LINE);
      TurnsBackInTwo(v, OK_LINE, COMPLAINT);
    } else {
      Complains(OK_LINE);
      OkLineConfirms(COMPLAINT);
      ConfirmedIsNoFailure(OK_LINE + COMPLAINT);
      TurnsBackInOne(v, OK_LINE + COMPLAINT);
    }
  }

  lemma TurnsBackInOne(v: View, both: string)
    requires Reentering(v.step) && v.line == ""
    requires Confirms(both) && !SendFailed(both) && TooLongIn("", both) && Tail("", both) == ""
    ensures var cs := [Chunk(both, 0)];
            Reaches(v, cs) && AfterDrain(v, cs) == View(Leave, false, "", 1, v.lastRejoin)
  {
    hide ContainsFold, TooLongIn, Tail, Confirms, SendFailed, Limited;
    var cs := [Chunk(both, 0)];
    assert cs[..0] == [];
  }

  lemma TurnsBackInTwo(v: View, ok: string, complaint: string)
    requires Reentering(v.step) && v.line == ""
    requires Confirms(ok) && !SendFailed(ok) && !TooLongIn("", ok) && Tail("", ok) == ""
    requires !Confirms(complaint) && !SendFailed(complaint) && TooLongIn("", complaint) && Tail("", complaint) == ""
    ensures var cs := [Chunk(ok, 0), Chunk(complaint, 0)];
            Reaches(v, cs) && AfterDrain(v, cs) == View(Leave, false, "", 1, v.lastRejoin)
  {
    hide ContainsFold, TooLongIn, Tail, Confirms, SendFailed, Limited;
    var cs := [Chunk(ok, 0), Chunk(complaint, 0)];
    assert cs[..1] == [Chunk(ok, 0)] && cs[..1][..0] == [];
    assert AfterDrain(v, cs[..1]) == AfterChunk(v, ok, 0);
    assert AfterChunk(v, ok, 0) == v.(step := Done, retry := 0);
    assert Reaches(v, cs[..1]);
  }

  lemma OkLineAlone()
    ensures Confirms(OK_LINE)
  {
    hide Confirms;
    OkLineConfirms("");
    assert OK_LINE + "" == OK_LINE;
  }

  lemma ConfirmedIsNoFailure(data: string)
    ensures Confirms(data) ==> !SendFailed(data)
  {
  }

  // ---- The port stays open -----------------------------------------------------------------

  lemma {:induction false} LinesKeepPort(l: Link, data: string)
    ensures LinePush(l, data).port.open == l.port.open
  {
    hide ContainsFold;
    if data != "" {
      LinesKeepPort(l, data[..|data| - 1]);
    }
  }

  lemma ChunkKeepsPort(l: Link, data: string, now: nat)
    ensures OnReceive(l, data, now).port.open == l.port.open
  {
    var l1 := NoteRx(Buffered(l, data), data, now);
    assert l1.port.open == l.port.open;
    LinesKeepPort(l1, data);
    hide ContainsFold, LinePush;
  }

  lemma {:induction false} DrainKeepsPort(l: Link, cs: seq<Chunk>)
    ensures Run(l, Chunks(cs)).port.open == l.port.open
  {
    if cs == [] {
      NoChunks(l);
    } else {
      DrainKeepsPort(l, cs[..|cs| - 1]);
      ChunksSnoc(l, cs);
      hide OnReceive, Run, Chunks;
      ChunkKeepsPort(Run(l, Chunks(cs[..|cs| - 1])), cs[|cs| - 1].data, cs[|cs| - 1].now);
    }
  }

  /** Whatever the view, the peer's two lines bounce a re-entering machine. */
  lemma PesterBounces(l: Link, split: bool)
    requires Inv(l) && Reentering(l.step) && l.line == "" && l.port.open
    ensures Possible(l, Pester(split)) && Bounces(l, Pester(split)) && Pestered(Deliver(l, Pester(split)))
  {
    hide Inv, Remaining, AfterDrain, Reaches, ViewOf, Chunks;
    var cs := Pester(split).chunks;
    ViewPhase(l);
    PesterTurnsBack(ViewOf(l), split);
    DrainExactly(l, cs);
    DrainKeeps(l, cs);
    DrainKeepsPort(l, cs);
    ViewPhase(Run(l, Chunks(cs)));
    hide Run, Pester;
  }

  /** Two firings take a leaving machine to PASS. */
  lemma TwoFirings(l: Link)
    requires Pestered(l)
    ensures var c := Check(false, false, 0); var a := Deliver(l, c); var b := Deliver(a, c);
            && Possible(l, c) && a.step == Dest && Possible(a, c) && b.step == Pass
            && Inv(b) && b.line == "" && b.port.open
  {
    var c, t := Check(false, false, 0), Timeout(false, false, 0);
    OneEvent(l, t);
    var a := Next(l, t);
    assert a.step == Dest && a.line == "" && a.port.open;
    NextKeeps(l, t);
    OneEvent(a, t);
    var b := Next(a, t);
    assert b.step == Pass && b.line == "" && b.port.open;
    NextKeeps(a, t);
    hide Next, Run;
  }

  /** Every message of the run can be delivered when its turn comes. */
  ghost predicate AllPossible(l: Link, ms: seq<Message>) {
    forall i :: 0 <= i < |ms| ==> Possible(DeliverAll(l, ms[..i]), ms[i])
  }

  lemma AllPossibleSnoc(l: Link, ms: seq<Message>, m: Message)
    requires AllPossible(l, ms) && Possible(DeliverAll(l, ms), m)
    ensures AllPossible(l, ms + [m])
  {
    hide DeliverAll, Possible;
    var z := ms + [m];
    forall i | 0 <= i < |z|
      ensures Possible(DeliverAll(l, z[..i]), z[i])
    {
      assert z[..i] == ms[..i];
      assert i == |ms| ==> ms[..i] == ms;
    }
  }

  /** A run that can go on, with its end and its firings. */
  ghost predicate Standing(l: Link, ms: seq<Message>, n: nat, bounces: nat) {
    AllPossible(l, ms) && NeverAtDone(l, ms) && Checks(ms) == n && BouncesIn(l, ms) == bounces
  }

  lemma StandingSnoc(l: Link, ms: seq<Message>, m: Message, n: nat, k: nat)
    requires Standing(l, ms, n, k) && Possible(DeliverAll(l, ms), m) && Deliver(DeliverAll(l, ms), m).step != Done
    ensures Standing(l, ms + [m], n + (if m.Check? then 1 else 0), k + if Bounces(DeliverAll(l, ms), m) then 1 else 0)
    ensures DeliverAll(l, ms + [m]) == Deliver(DeliverAll(l, ms), m)
  {
    hide DeliverAll, Deliver, Possible, Bounces, AllPossible, NeverAtDone, Checks, BouncesIn;
    AllPossibleSnoc(l, ms, m);
    DeliverSnoc(l, ms, m);
    NeverAtDoneSnoc(l, ms, m);
    BouncesSnoc(l, ms, m);
  }

  lemma BouncesSnoc(l: Link, ms: seq<Message>, m: Message)
    ensures BouncesIn(l, ms + [m]) == BouncesIn(l, ms) + if Bounces(DeliverAll(l, ms), m) then 1 else 0
  {
    hide DeliverAll, Bounces;
    assert (ms + [m])[..|ms|] == ms;
  }

  /**
   The peer keeps the machine out of DONE at every message boundary through any number of firings, whether its two lines
   come in one chunk or are drained as two; every message of the run is possible, and one in three bounces.
   */
  lemma {:induction false} PesteredForEver(l: Link, n: nat, split: bool)
    requires l.line == "" && l.port.open
    ensures var s := StartVerify(l);
            Standing(s, Rounds(n, split), 2 * n, n + 1) && Pestered(DeliverAll(s, Rounds(n, split)))
  {
    hide StartVerify, DeliverAll, Standing, Pester, Pestered;
    var s := StartVerify(l);
    if n == 0 {
      Leaving(l);
      FirstPester(s, split);
    } else {
      PesteredForEver(l, n - 1, split);
      OneRound(s, Rounds(n - 1, split), split, 2 * (n - 1), n);
    }
  }

  lemma Leaving(l: Link)
    requires l.line == "" && l.port.open
    ensures var s := StartVerify(l); Inv(s) && s.step == Leave && s.line == "" && s.port.open
  {
    StartKeeps(l);
    hide Inv;
  }

  lemma FirstPester(s: Link, split: bool)
    requires Inv(s) && s.step == Leave && s.line == "" && s.port.open
    ensures Standing(s, Rounds(0, split), 0, 1) && Pestered(DeliverAll(s, Rounds(0, split)))
  {
    var none: seq<Message> := [];
    NeverAtDoneNow(s);
    assert Standing(s, none, 0, 0) && DeliverAll(s, none) == s;
    hide Deliver, DeliverAll, Inv, Possible, Bounces, Standing, Pester;
    PesterBounces(s, split);
    StandingSnoc(s, none, Pester(split), 0, 0);
    assert none + [Pester(split)] == Rounds(0, split);
  }

  lemma OneRound(s: Link, ms: seq<Message>, split: bool, n: nat, k: nat)
    requires Standing(s, ms, n, k) && Pestered(DeliverAll(s, ms))
    ensures var z := ms + [Check(false, false, 0)] + [Check(false, false, 0)] + [Pester(split)];
            Standing(s, z, n + 2, k + 1) && Pestered(DeliverAll(s, z))
  {
    hide Deliver, DeliverAll, Inv, Possible, Standing, Pester, PassesDone;
    var c, p := Check(false, false, 0), Pester(split);
    var x := DeliverAll(s, ms);
    TwoFirings(x);
    NoBounce(x);
    NoBounce(Deliver(x, c));
    StandingSnoc(s, ms, c, n, k);
    StandingSnoc(s, ms + [c], c, n + 1, k);
    PesterBounces(Deliver(Deliver(x, c), c), split);
    IsDrain(split);
    StandingSnoc(s, ms + [c] + [c], p, n + 2, k);
  }

  lemma IsDrain(split: bool)
    ensures Pester(split).Drain?
  {
  }

  lemma NoBounce(l: Link)
    requires l.step == Leave || l.step == Dest
    ensures !Bounces(l, Check(false, false, 0))
  {
  }

  /** The other way back: the report that opens passthrough cannot be written. */
  lemma FailedReportBounces(l: Link, now: nat)
    requires l.step == Pass && !Rejected(l) && l.join.lastRejoin == 0
    ensures Bounces(l, Check(true, false, now)) && Deliver(l, Check(true, false, now)).step == Leave
  {
    hide Rejected, WisunLink.Entered, OnTimeout;
    PassBounces(l, true, false, now);
    OneEvent(l, Timeout(true, false, now));
  }
}
