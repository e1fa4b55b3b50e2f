/**
 The Wi-SUN bring-up and passthrough protocol (smart_helmet_uart.c): a machine driven by one
 timer (LINK_CHECK) against a peer that may send any bytes at any time.
 */
module WisunLink {
  import opened CArithmetic
  import opened TextSearch

  const RX_BUF := 512
  const LINE_BUF := 96
  const RESET_TRIES := 2
  const REENTRIES := 2
  const MISSED_MAX := 12
  const REJOIN_MS := 60000

  datatype Step = Idle | Reset | Cmd | Done | ProvRead | ProvSet | Leave | Dest | Pass

  /** The fields of the published status the protocol reads back. */
  datatype Status = Status(
    online: bool, resetSeen: bool, tries: nat, atPass: nat, atFail: nat, atOk: bool)

  /** The provisioning queue; `saving` is the source's index 0xff. */
  datatype Provision = Provision(queue: seq<string>, next: nat, saving: bool, finished: bool)

  /** Pending messages of the module task that this protocol arms and cancels. */
  datatype Timers = Timers(link: bool, report: bool, rxPoll: bool)

  /** Waiting for the module's "send ok", and the rate limit of rejoining. */
  datatype Joining = Joining(okWait: bool, missedOk: nat, rejoining: bool, lastRejoin: nat)

  /** The UART and the commands written to it. */
  datatype Port = Port(open: bool, sent: seq<string>)

  datatype Link = Link(
    step: Step, leaveToReset: bool, atIdx: nat, passthrough: bool, retry: nat,
    join: Joining, status: Status, prov: Provision, timers: Timers, asm: string, line: string, port: Port)

  /** Before the module is first powered. */
  const AT_REST: Link :=
    Link(Idle, false, 0, false, 0, Joining(false, 0, false, 0), Status(false, false, 0, 0, 0, false),
         Provision([], 0, false, false), Timers(false, false, false), "", "", Port(false, []))

  // ---- Commands ------------------------------------------------------------

  const AT_COUNT: nat := 13

  /** The read-only probes in the order they are sent. */
  function AtCommand(i: nat): string
    requires i < AT_COUNT
  {
    ["version", "role", "param", "mac", "ip", "fstat", "domain", "cca", "txpower", "pan",
     "chrate", "chconfig", "neighbor"][i]
  }

  function Expectation(cmd: string): string {
    if cmd == "role" then "role:" else if cmd == "param" then "state" else if cmd == "mac" then ":" else ""
  }

  predicate Printable(c: char) { ' ' <= c < 127 as char }

  /** shAtReplyOk: does the assembled reply answer the command? */
  predicate ReplyOk(cmd: string, asm: string) {
    if ContainsFold(asm, "invalid") then false
    else if ContainsFold(asm, "ok") then true
    else if cmd == "ip" then Ipv6Like(asm)
    else if cmd == "role" then
      || ContainsFold(asm, "role:1") || ContainsFold(asm, "role:2")
      || ContainsFold(asm, "router") || ContainsFold(asm, "border")
    else if Expectation(cmd) != "" && !ContainsFold(cmd, Expectation(cmd)) then
      ContainsFold(asm, Expectation(cmd))
    else Count(asm, Printable) > |cmd| + 2
  }

  /** shProvPlan: the settings the `param` reply does not already show. */
  function Plan(asm: string): (q: seq<string>)
    ensures |q| <= 7
  {
    (if ContainsFold(asm, "SmartHelmetWisun") then [] else ["netname SmartHelmetWisun"]) +
    (if ContainsFold(asm, "border") && !ContainsFold(asm, "0xdcba") then ["pan 0xdcba"] else []) +
    (if ContainsFold(asm, "domain=1") || ContainsFold(asm, "domain:1") then [] else ["domain 1"]) +
    (if ContainsFold(asm, "rate=50kbps") || ContainsFold(asm, "rate:50") then [] else ["chrate 50"]) +
    (if ContainsFold(asm, "20dbm") || ContainsFold(asm, "txpower:20") || ContainsFold(asm, ": 20") then []
     else ["txpower 20"]) +
    (if ContainsFold(asm, "-83") then [] else ["cca -83"]) +
    (if ContainsFold(asm, "udp_port=4321") then [] else ["udpopts udp_port 4321"])
  }

  // ---- Handlers --------------------------------------------------------------

  function Armed(l: Link): Link { l.(timers := l.timers.(link := true)) }

  /** Send one CLI command and wait for the next timer. */
  function SendAndArm(l: Link, cmd: string): Link {
    l.(port := l.port.(sent := l.port.sent + [cmd]), timers := l.timers.(link := true))
  }

  /** exit, then re-enter passthrough by way of at_dest and +++. */
  function LeaveForDest(l: Link): Link {
    SendAndArm(l.(passthrough := false, leaveToReset := false, step := Leave), "exit")
  }

  /** The status and all progress of an earlier bring-up forgotten. */
  function Cleared(l: Link): Link {
    l.(status := Status(false, false, 0, 0, 0, false), atIdx := 0, asm := "",
       prov := Provision([], 0, false, false), passthrough := false, retry := 0)
  }

  function StartVerify(l: Link): Link {
    SendAndArm(Cleared(l).(leaveToReset := true, step := Leave), "exit")
  }

  function AtFinish(l: Link): Link {
    var s := l.status;
    LeaveForDest(
      l.(status := s.(atOk := s.atFail == 0 && s.atPass > 0 && s.resetSeen), asm := ""))
  }

  function AtSendCurrent(l: Link): Link {
    if l.atIdx >= AT_COUNT then AtFinish(l)
    else SendAndArm(l.(asm := "", step := Cmd), AtCommand(l.atIdx))
  }

  function AtNoteResult(l: Link, pass: bool): Link {
    var s := l.status;
    var s' := if pass then s.(atPass := Min(s.atPass + 1, 255)) else s.(atFail := Min(s.atFail + 1, 255));
    AtSendCurrent(l.(status := s', atIdx := l.atIdx + 1))
  }

  function ProvSendCurrent(l: Link): Link {
    var p := l.prov;
    if p.next >= |p.queue| then SendAndArm(l.(asm := "", step := ProvSet, prov := p.(saving := true)), "save")
    else SendAndArm(l.(asm := "", step := ProvSet), p.queue[p.next])
  }

  function Rejoin(l: Link, now: nat): Link {
    if l.step == Leave || l.step == Dest || l.step == Pass then l
    else if l.join.lastRejoin != 0 && (now - l.join.lastRejoin) % 0x1_0000_0000 < REJOIN_MS then l
    else
      LeaveForDest(
        l.(join := l.join.(lastRejoin := now, rejoining := true, okWait := false),
           status := l.status.(online := false), timers := l.timers.(report := false)))
  }

  function NoteReportSent(l: Link, ok: bool, now: nat): Link {
    if !ok then Rejoin(l.(status := l.status.(online := false)), now)
    else if l.join.okWait then
      var l' := l.(join := l.join.(missedOk := Min(l.join.missedOk + 1, MISSED_MAX)));
      if l'.join.missedOk >= MISSED_MAX then Rejoin(l', now) else l'
    else l.(join := l.join.(okWait := true))
  }

  /** SmartHelmet_ReportStart as the link sees it: a report goes out only in passthrough. */
  function Report(l: Link, sensorsReady: bool, sendOk: bool, now: nat): Link {
    var l' := if l.passthrough && sensorsReady then NoteReportSent(l, sendOk, now) else l;
    l'.(timers := l'.timers.(report := true))
  }

  /** LINK_CHECK in step RESET. */
  function OnReset(l: Link): Link {
    if l.status.resetSeen then
      if !l.prov.finished then SendAndArm(l.(asm := "", step := ProvRead), "param")
      else AtSendCurrent(l.(atIdx := 0))
    else if l.status.tries < RESET_TRIES then
      SendAndArm(l.(status := l.status.(tries := l.status.tries + 1), asm := ""), "reset")
    else AtFinish(l.(status := l.status.(atFail := (l.status.atFail + 1) % 256)))
  }

  function OnProvRead(l: Link): Link {
    var q := Plan(l.asm);
    if q == [] then
      AtSendCurrent(l.(prov := Provision(q, 0, false, true), atIdx := 0))
    else ProvSendCurrent(l.(prov := l.prov.(queue := q, next := 0, saving := false)))
  }

  function OnProvSet(l: Link): Link {
    var p := l.prov;
    if p.saving then
      SendAndArm(l.(prov := p.(finished := true), status := l.status.(resetSeen := false), step := Reset, asm := ""),
                 "svrst")
    else ProvSendCurrent(l.(prov := p.(next := p.next + 1)))
  }

  function OnLeave(l: Link): Link {
    if l.leaveToReset then
      Armed(l.(status := l.status.(tries := 0, resetSeen := false), asm := "", step := Reset))
    else SendAndArm(l.(asm := "", step := Dest), "at_dest 2020:abcd::212:4b00:2de1:f9ff")
  }

  predicate Rejected(l: Link) { ContainsFold(l.asm, "cmd too long") || ContainsFold(l.asm, "format err") }

  predicate Entered(l: Link) { ContainsFold(l.asm, "transparent") || ContainsFold(l.asm, "passthrough") }

  function OnPass(l: Link, sensorsReady: bool, sendOk: bool, now: nat): Link {
    if Rejected(l) && l.retry < REENTRIES then
      LeaveForDest(l.(retry := l.retry + 1, asm := ""))
    else if Entered(l) || !Rejected(l) then
      Report(l.(step := Done, passthrough := true, status := l.status.(online := false)), sensorsReady, sendOk, now)
    else l.(step := Done, passthrough := false)
  }

  /** shWisunOnTimeout: the LINK_CHECK message has been delivered. */
  function OnTimeout(l0: Link, sensorsReady: bool, sendOk: bool, now: nat): Link {
    var l := l0.(timers := l0.timers.(link := false));
    match l.step
    case Reset => OnReset(l)
    case ProvRead => OnProvRead(l)
    case ProvSet => OnProvSet(l)
    case Leave => OnLeave(l)
    case Dest => SendAndArm(l.(step := Pass, passthrough := false, asm := ""), "+++")
    case Pass => OnPass(l, sensorsReady, sendOk, now)
    case Cmd => AtNoteResult(l, l.atIdx < AT_COUNT && ReplyOk(AtCommand(l.atIdx), l.asm))
    case Idle => l
    case Done => l
  }

  /** shOnCmdTooLong: the module took a report for a command. */
  function OnCmdTooLong(l: Link): Link {
    var l' := l.(passthrough := false, timers := l.timers.(report := false));
    if (l.step == Done || l.step == Idle) && l.retry < REENTRIES then LeaveForDest(l'.(retry := l.retry + 1))
    else l'
  }

  function LineFlush(l: Link): Link {
    (if ContainsFold(l.line, "cmd too long") then OnCmdTooLong(l) else l).(line := "")
  }

  function LineByte(l: Link, c: char): Link {
    if c == '\n' then LineFlush(l)
    else if c == '\r' then l
    else
      var l' := if |l.line| >= LINE_BUF then LineFlush(l) else l;
      l'.(line := l'.line + [c])
  }

  function LinePush(l: Link, data: string): Link {
    if data == "" then l else LineByte(LinePush(l, data[..|data| - 1]), data[|data| - 1])
  }

  predicate Confirms(data: string) {
    !ContainsFold(data, "send fail") && ContainsFold(data, "send ok")
  }

  predicate Reentering(s: Step) { s == Leave || s == Dest || s == Pass }

  /** shWisunNoteRx: the module's verdict on the last UDP send. */
  function NoteRx(l: Link, data: string, now: nat): Link {
    if ContainsFold(data, "send fail") then
      Rejoin(l.(status := l.status.(online := false), join := l.join.(okWait := false)), now)
    else if ContainsFold(data, "send ok") then
      if Reentering(l.step) then Confirmed(l).(step := Done, passthrough := true) else Confirmed(l)
    else l
  }

  /** The module reported a delivered report. */
  function Confirmed(l: Link): Link {
    l.(status := l.status.(online := true), join := Joining(false, 0, false, l.join.lastRejoin), retry := 0)
  }

  /** shUartConsume: one chunk from the module. */
  function OnReceive(l: Link, data: string, now: nat): Link {
    Settled(LinePush(NoteRx(Buffered(l, data), data, now), data))
  }

  /** The reply buffer takes what still fits. */
  function Buffered(l: Link, data: string): Link {
    var room := RX_BUF - |l.asm|;
    l.(asm := if |data| <= room then l.asm + data else if room > 0 then l.asm + data[..room] else l.asm)
  }

  /** The timer is pushed back while a reply is still arriving. */
  function Settled(l: Link): Link {
    if l.step == Reset then
      Armed(if ContainsFold(l.asm, "Router start") then l.(status := l.status.(resetSeen := true)) else l)
    else if l.step == Cmd || l.step == ProvRead || l.step == ProvSet then Armed(l)
    else l
  }

  function Open(l: Link, ok: bool): Link {
    if l.port.open || !ok then l else l.(port := l.port.(open := true), timers := l.timers.(rxPoll := true))
  }

  function Close(l: Link): Link {
    l.(port := Port(false, if l.port.open then l.port.sent + ["exit"] else l.port.sent), passthrough := false,
       step := Idle, timers := l.timers.(link := false, rxPoll := false))
  }

  function Sleep(l: Link): Link {
    var l' := l.(timers := l.timers.(link := false), step := Idle);
    var l'' := if l'.passthrough && l'.port.open
               then l'.(passthrough := false, port := l'.port.(sent := l'.port.sent + ["exit"])) else l';
    Close(l''.(status := l''.status.(online := false)))
  }

  // ---- Events ------------------------------------------------------------------

  /** What can happen between a start of the verification and the next power change. */
  datatype Event =
    | Timeout(sensorsReady: bool, sendOk: bool, now: nat)
    | Received(data: string, now: nat)
    | ReportTick(sensorsReady: bool, sendOk: bool, now: nat)
    | PollTick

  predicate Enabled(l: Link, e: Event) {
    match e
    case Timeout(_, _, _) => l.timers.link
    case Received(_, _) => l.port.open
    case ReportTick(_, _, _) => l.timers.report
    case PollTick => l.timers.rxPoll
  }

  function Next(l: Link, e: Event): Link {
    match e
    case Timeout(ready, ok, now) => OnTimeout(l, ready, ok, now)
    case Received(data, now) => OnReceive(l, data, now)
    case ReportTick(ready, ok, now) => Report(l, ready, ok, now)
    case PollTick => l
  }

  // ---- What every event keeps ------------------------------------------------------

  /** Steps in which the machine waits for its timer. */
  predicate Waiting(s: Step) { s != Idle && s != Done }

  ghost predicate Inv(l: Link) {
    && (Waiting(l.step) ==> l.timers.link)
    && (l.passthrough ==> l.step == Done)
    && l.status.tries <= RESET_TRIES && l.retry <= REENTRIES && |l.prov.queue| <= 7
    && |l.asm| <= RX_BUF && |l.line| <= LINE_BUF
    && (l.step == ProvSet && !l.prov.saving ==> l.prov.next < |l.prov.queue|)
    && (l.step == Cmd ==> l.atIdx < AT_COUNT && l.status.atPass + l.status.atFail == l.atIdx)
    && (BeforeCommands(l) ==> l.status.atPass == l.status.atFail == 0)
    && (l.status.atOk ==> l.status.atPass == AT_COUNT && l.status.atFail == 0)
  }

  predicate BeforeCommands(l: Link) {
    l.step == Reset || l.step == ProvRead || l.step == ProvSet || (l.step == Leave && l.leaveToReset)
  }

  /** An upper bound on the timer firings left before DONE is reached. */
  ghost function Remaining(l: Link): int {
    var reentry := 3 * (REENTRIES - l.retry);
    match l.step
    case Idle => 0
    case Done => 0
    case Pass => 1 + reentry
    case Dest => 2 + reentry
    case Leave => if l.leaveToReset then 38 else 3 + reentry
    case Cmd => 9 + AT_COUNT - l.atIdx
    case Reset => (if l.prov.finished then 25 else 37) - l.status.tries
    case ProvRead => 34
    case ProvSet => if l.prov.saving then 26 else 26 + |l.prov.queue| - l.prov.next
  }

  /** The event takes the machine through DONE, even if it does not stay there. */
  predicate VisitsDone(l: Link, e: Event) {
    || Next(l, e).step == Done
    || (e.Timeout? && l.step == Pass && !(Rejected(l) && l.retry < REENTRIES))
    || (e.Received? && Reentering(l.step) && Confirms(e.data))
  }

  lemma StartKeeps(l: Link)
    requires |l.line| <= LINE_BUF
    ensures Inv(StartVerify(l)) && Remaining(StartVerify(l)) == 38
  {
  }

  /** `l'` keeps the invariant and is at least `k` firings closer to DONE if `l` was on its way. */
  ghost predicate Progress(l: Link, l': Link, k: nat) {
    && Inv(l')
    && (Waiting(l.step) ==> Waiting(l'.step) && Remaining(l') <= Remaining(l) - k)
  }

  /** Fields the protocol's progress does not depend on. */
  ghost predicate SameProgress(l: Link, l': Link) {
    && l' == l.(status := l.status.(online := l'.status.online), join := l'.join, port := l'.port,
                timers := l.timers.(report := l'.timers.report), asm := l'.asm, line := l'.line)
    && |l'.asm| <= RX_BUF && |l'.line| <= LINE_BUF
  }

  lemma Irrelevant(l: Link, l': Link)
    requires SameProgress(l, l') && Inv(l)
    ensures Inv(l') && Remaining(l') == Remaining(l) && l'.step == l.step && l'.retry == l.retry
  {
  }

  lemma RejoinKeeps(l: Link, now: nat)
    requires Inv(l)
    ensures Progress(l, Rejoin(l, now), 0)
  {
  }

  lemma NoteReportKeeps(l: Link, ok: bool, now: nat)
    requires Inv(l)
    ensures Progress(l, NoteReportSent(l, ok, now), 0)
  {
    hide Rejoin, Inv, Remaining;
    var l' := if !ok then l.(status := l.status.(online := false))
              else if l.join.okWait then l.(join := l.join.(missedOk := Min(l.join.missedOk + 1, MISSED_MAX)))
              else l.(join := l.join.(okWait := true));
    BuffersFit(l);
    Irrelevant(l, l');
    RejoinKeeps(l', now);
  }

  lemma BuffersFit(l: Link)
    requires Inv(l)
    ensures |l.asm| <= RX_BUF && |l.line| <= LINE_BUF && (l.passthrough ==> l.step == Done)
  {
  }

  lemma ReportKeeps(l: Link, ready: bool, ok: bool, now: nat)
    requires Inv(l)
    ensures Progress(l, Report(l, ready, ok, now), 0)
  {
    hide NoteReportSent, Inv, Remaining;
    NoteReportKeeps(l, ok, now);
    BuffersFit(l);
    Irrelevant(l, l.(timers := l.timers.(report := true)));
    var r := NoteReportSent(l, ok, now);
    BuffersFit(r);
    Irrelevant(r, r.(timers := r.timers.(report := true)));
  }

  lemma FinishKeeps(l: Link)
    requires l.status.tries <= RESET_TRIES && l.retry <= REENTRIES && |l.prov.queue| <= 7 && |l.line| <= LINE_BUF
    requires l.status.atFail > 0 || l.status.atPass == AT_COUNT
    ensures Inv(AtFinish(l)) && AtFinish(l).step == Leave && Remaining(AtFinish(l)) <= 9
  {
  }

  lemma SendCurrentKeeps(l: Link)
    requires l.status.tries <= RESET_TRIES && l.retry <= REENTRIES && |l.prov.queue| <= 7 && |l.line| <= LINE_BUF
    requires l.status.atPass + l.status.atFail == l.atIdx <= AT_COUNT && !l.passthrough && !l.status.atOk
    ensures Inv(AtSendCurrent(l)) && Waiting(AtSendCurrent(l).step)
    ensures Remaining(AtSendCurrent(l)) <= 9 + AT_COUNT - l.atIdx
  {
    if l.atIdx >= AT_COUNT {
      FinishKeeps(l);
      hide AtFinish;
    }
  }

  /** LINK_CHECK has been delivered: what is left of the invariant before the handler runs. */
  ghost predicate Fired(l: Link) {
    Waiting(l.step) && Inv(l.(timers := l.timers.(link := true)))
  }

  lemma ResetSeenKeeps(l: Link)
    requires Fired(l) && l.step == Reset && l.status.resetSeen
    ensures Progress(l, OnReset(l), 1)
  {
    if l.prov.finished {
      SendCurrentKeeps(l.(atIdx := 0));
    }
    hide AtSendCurrent, AtFinish;
  }

  lemma ResetRetryKeeps(l: Link)
    requires Fired(l) && l.step == Reset && !l.status.resetSeen && l.status.tries < RESET_TRIES
    ensures Progress(l, OnReset(l), 1)
  {
    hide AtSendCurrent, AtFinish;
  }

  lemma ResetGivesUp(l: Link)
    requires Fired(l) && l.step == Reset && !l.status.resetSeen && l.status.tries == RESET_TRIES
    ensures Progress(l, OnReset(l), 1)
  {
    var l' := l.(status := l.status.(atFail := (l.status.atFail + 1) % 256));
    assert l'.status.atFail == 1;
    FinishKeeps(l');
    hide AtSendCurrent, AtFinish;
  }

  lemma ResetKeeps(l: Link)
    requires Fired(l) && l.step == Reset
    ensures Progress(l, OnReset(l), 1)
  {
    assert l.status.tries <= RESET_TRIES;
    hide OnReset, Fired, Inv, Remaining;
    if l.status.resetSeen {
      ResetSeenKeeps(l);
    } else if l.status.tries < RESET_TRIES {
      ResetRetryKeeps(l);
    } else {
      ResetGivesUp(l);
    }
  }

  lemma ProvReadKeeps(l: Link)
    requires Fired(l) && l.step == ProvRead
    ensures Progress(l, OnProvRead(l), 1)
  {
    hide ContainsFold;
    var q := Plan(l.asm);
    hide Plan;
    if q == [] {
      SendCurrentKeeps(l.(prov := Provision(q, 0, false, true), atIdx := 0));
      hide AtSendCurrent;
    }
  }

  lemma ProvSetKeeps(l: Link)
    requires Fired(l) && l.step == ProvSet
    ensures Progress(l, OnProvSet(l), 1)
  {
    if l.prov.saving {
      hide ProvSendCurrent;
    } else if l.prov.next + 1 >= |l.prov.queue| {
      assert OnProvSet(l).prov.saving;
    } else {
      assert OnProvSet(l).prov == l.prov.(next := l.prov.next + 1);
    }
  }

  lemma LeaveAndDestKeep(l: Link)
    requires Fired(l)
    ensures l.step == Leave ==> Progress(l, OnLeave(l), 1)
    ensures l.step == Dest ==> Progress(l, SendAndArm(l.(step := Pass, passthrough := false, asm := ""), "+++"), 1)
  {
  }

  lemma CmdFacts(l: Link)
    requires Fired(l) && l.step == Cmd
    ensures l.status.tries <= RESET_TRIES && l.retry <= REENTRIES && |l.prov.queue| <= 7 && |l.line| <= LINE_BUF
    ensures l.status.atPass + l.status.atFail == l.atIdx < AT_COUNT && !l.passthrough && !l.status.atOk
    ensures Remaining(l) == 9 + AT_COUNT - l.atIdx
  {
  }

  lemma CmdKeeps(l: Link, pass: bool)
    requires Fired(l) && l.step == Cmd
    ensures Progress(l, AtNoteResult(l, pass), 1)
  {
    hide AtSendCurrent, Remaining, Inv, Fired;
    CmdFacts(l);
    var s := l.status;
    var s' := if pass then s.(atPass := Min(s.atPass + 1, 255)) else s.(atFail := Min(s.atFail + 1, 255));
    SendCurrentKeeps(l.(status := s', atIdx := l.atIdx + 1));
  }

  lemma PassKeeps(l: Link, ready: bool, ok: bool, now: nat)
    requires Fired(l) && l.step == Pass
    ensures Inv(OnPass(l, ready, ok, now))
    ensures Rejected(l) && l.retry < REENTRIES ==> Progress(l, OnPass(l, ready, ok, now), 1)
  {
    hide Rejected, Entered;
    if Rejected(l) && l.retry < REENTRIES {
      hide Report;
    } else {
      var d := l.(step := Done, passthrough := true, status := l.status.(online := false));
      ReportKeeps(d, ready, ok, now);
      hide Report;
    }
  }

  /** A timer firing keeps the invariant and uses up one of the remaining firings. */
  lemma TimeoutKeeps(l: Link, ready: bool, ok: bool, now: nat)
    requires Inv(l)
    ensures Inv(OnTimeout(l, ready, ok, now))
    ensures !VisitsDone(l, Timeout(ready, ok, now)) ==> Progress(l, OnTimeout(l, ready, ok, now), 1)
  {
    var l' := l.(timers := l.timers.(link := false));
    assert Waiting(l.step) ==> Fired(l') && Remaining(l') == Remaining(l) by {
      assert l'.(timers := l'.timers.(link := true)).timers == l.timers || !l.timers.link;
    }
    assert !Waiting(l.step) ==> Inv(l');
    hide Inv, Remaining, Fired, OnReset, OnProvRead, OnProvSet, OnLeave, OnPass, AtNoteResult, ReplyOk, Rejected;
    match l.step
    case Reset => ResetKeeps(l');
    case ProvRead => ProvReadKeeps(l');
    case ProvSet => ProvSetKeeps(l');
    case Leave => LeaveAndDestKeep(l');
    case Dest => LeaveAndDestKeep(l');
    case Pass => PassKeeps(l', ready, ok, now); SameReply(l, l');
    case Cmd => CmdKeeps(l', l'.atIdx < AT_COUNT && ReplyOk(AtCommand(l'.atIdx), l'.asm));
    case Idle =>
    case Done =>
  }

  lemma SameReply(l: Link, l': Link)
    requires l.asm == l'.asm
    ensures Rejected(l) == Rejected(l')
  {
  }

  lemma CmdTooLongKeeps(l: Link)
    requires Inv(l)
    ensures Progress(l, OnCmdTooLong(l), 0)
  {
    BuffersFit(l);
    if Waiting(l.step) {
      Irrelevant(l, OnCmdTooLong(l));
      hide Inv, Remaining;
    }
  }

  lemma FlushKeeps(l: Link)
    requires Inv(l)
    ensures Progress(l, LineFlush(l), 0) && LineFlush(l).line == ""
  {
    hide OnCmdTooLong, ContainsFold, Inv, Remaining;
    CmdTooLongKeeps(l);
    var l' := if ContainsFold(l.line, "cmd too long") then OnCmdTooLong(l) else l;
    BuffersFit(l');
    Irrelevant(l', l'.(line := ""));
  }

  lemma LineByteKeeps(l: Link, c: char)
    requires Inv(l)
    ensures Progress(l, LineByte(l, c), 0)
  {
    hide LineFlush, Inv, Remaining;
    FlushKeeps(l);
    BuffersFit(l);
    if c != '\n' && c != '\r' {
      var l' := if |l.line| >= LINE_BUF then LineFlush(l) else l;
      BuffersFit(l');
      Irrelevant(l', l'.(line := l'.line + [c]));
    }
  }

  lemma {:induction false} LinePushKeeps(l: Link, data: string)
    requires Inv(l)
    ensures Progress(l, LinePush(l, data), 0)
  {
    hide LineByte, Inv, Remaining;
    if data != "" {
      LinePushKeeps(l, data[..|data| - 1]);
      LineByteKeeps(LinePush(l, data[..|data| - 1]), data[|data| - 1]);
    }
  }

  lemma NoteRxKeeps(l: Link, data: string, now: nat)
    requires Inv(l)
    ensures Inv(NoteRx(l, data, now))
    ensures !(Reentering(l.step) && Confirms(data)) ==> Progress(l, NoteRx(l, data, now), 0)
  {
    hide ContainsFold, Rejoin;
    BuffersFit(l);
    if ContainsFold(data, "send fail") {
      hide Inv, Remaining;
      var l' := l.(status := l.status.(online := false), join := l.join.(okWait := false));
      Irrelevant(l, l');
      RejoinKeeps(l', now);
    } else if ContainsFold(data, "send ok") {
      var l' := l.(status := l.status.(online := true), join := Joining(false, 0, false, l.join.lastRejoin));
      Irrelevant(l, l');
      ConfirmKeeps(l');
      hide Inv, Remaining;
    }
  }

  lemma ConfirmKeeps(l: Link)
    requires Inv(l)
    ensures Reentering(l.step) ==> Inv(l.(retry := 0, step := Done, passthrough := true))
    ensures !Reentering(l.step) ==> Progress(l, l.(retry := 0), 0)
  {
  }

  lemma SettledKeeps(l: Link)
    requires Inv(l)
    ensures Progress(l, Settled(l), 0)
  {
    hide ContainsFold;
  }

  lemma BufferedKeeps(l: Link, data: string)
    requires Inv(l)
    ensures Inv(Buffered(l, data)) && Remaining(Buffered(l, data)) == Remaining(l) && Buffered(l, data).step == l.step
  {
    BuffersFit(l);
    Irrelevant(l, Buffered(l, data));
  }

  /** No bytes from the peer can lengthen the way to DONE. */
  lemma ReceiveKeeps(l: Link, data: string, now: nat)
    requires Inv(l)
    ensures Inv(OnReceive(l, data, now))
    ensures !(Reentering(l.step) && Confirms(data)) ==> Progress(l, OnReceive(l, data, now), 0)
  {
    hide Confirms, Buffered, NoteRx, LinePush, Settled, Inv, Remaining;
    BufferedKeeps(l, data);
    var l1 := Buffered(l, data);
    NoteRxKeeps(l1, data, now);
    var l2 := NoteRx(l1, data, now);
    LinePushKeeps(l2, data);
    SettledKeeps(LinePush(l2, data));
  }

  lemma NextKeeps(l: Link, e: Event)
    requires Inv(l)
    ensures Inv(Next(l, e))
    ensures !VisitsDone(l, e) ==> Progress(l, Next(l, e), if e.Timeout? then 1 else 0)
  {
    hide OnTimeout, OnReceive, Report, Remaining, Rejected, Confirms;
    match e
    case Timeout(ready, ok, now) => TimeoutKeeps(l, ready, ok, now);
    case Received(data, now) => ReceiveKeeps(l, data, now);
    case ReportTick(ready, ok, now) => ReportKeeps(l, ready, ok, now);
    case PollTick =>
  }

  // ---- Whole runs ---------------------------------------------------------------------

  function Run(l: Link, es: seq<Event>): Link {
    if es == [] then l else Next(Run(l, es[..|es| - 1]), es[|es| - 1])
  }

  ghost function Timeouts(es: seq<Event>): nat {
    if es == [] then 0 else Timeouts(es[..|es| - 1]) + if es[|es| - 1].Timeout? then 1 else 0
  }

  /** Nowhere along the run does the machine pass through DONE. */
  ghost predicate NeverDone(l: Link, es: seq<Event>) {
    forall i :: 0 <= i < |es| ==> !VisitsDone(Run(l, es[..i]), es[i])
  }

  /** Every run keeps the invariant: a waiting step has its timer, passthrough means DONE. */
  lemma {:induction false} RunKeeps(l: Link, es: seq<Event>)
    requires Inv(l)
    ensures Inv(Run(l, es))
  {
    if es != [] {
      RunKeeps(l, es[..|es| - 1]);
      NextKeeps(Run(l, es[..|es| - 1]), es[|es| - 1]);
    }
  }

  lemma {:induction false} FiringsBounded(l: Link, es: seq<Event>)
    requires Inv(l) && Waiting(l.step) && NeverDone(l, es)
    ensures Inv(Run(l, es)) && Waiting(Run(l, es).step)
    ensures Timeouts(es) + Remaining(Run(l, es)) <= Remaining(l)
  {
    if es != [] {
      var n := |es| - 1;
      var before := es[..n];
      assert forall i :: 0 <= i < n ==> before[..i] == es[..i];
      assert NeverDone(l, before);
      FiringsBounded(l, before);
      assert !VisitsDone(Run(l, es[..n]), es[n]);
      NextKeeps(Run(l, before), es[n]);
      hide VisitsDone, Next, Remaining;
    }
  }

  lemma RemainingPositive(l: Link)
    requires Inv(l) && Waiting(l.step)
    ensures Remaining(l) >= 1
  {
  }

  /**
   Progress against any peer: after SmartHelmet_UartStartVerify at most 37 timer firings pass
   without the machine going through DONE, whatever bytes and reports come in between.
   */
  lemma BringUpTerminates(l: Link, es: seq<Event>)
    requires |l.line| <= LINE_BUF && NeverDone(StartVerify(l), es)
    ensures Timeouts(es) <= 37 && Run(StartVerify(l), es).timers.link
  {
    hide NeverDone, Next, Remaining;
    StartKeeps(l);
    FiringsBounded(StartVerify(l), es);
    RemainingPositive(Run(StartVerify(l), es));
  }

  /** at_ok, once published, means that all thirteen probed commands were answered. */
  lemma AtOkMeansAllPassed(l: Link, es: seq<Event>)
    requires |l.line| <= LINE_BUF
    ensures var s := Run(StartVerify(l), es).status;
            s.atOk ==> s.atPass == 13 && s.atFail == 0
  {
    hide Next;
    StartKeeps(l);
    RunKeeps(StartVerify(l), es);
  }

  /** A closed link is silent: nothing pending, no passthrough. */
  lemma SleepIsQuiet(l: Link)
    ensures var z := Sleep(l);
            && !z.timers.link && !z.timers.rxPoll && !z.passthrough && z.step == Idle && !z.port.open && !z.status.online
            && z.timers.report == l.timers.report
  {
  }
}
