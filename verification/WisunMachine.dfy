/**
 The Wi-SUN protocol as the firmware runs it: file-level variables updated handler by handler
 (smart_helmet_uart.c). Each handler is proved against its function in `WisunLink`.
 */
module WisunMachine {
  import opened CArithmetic
  import opened TextSearch
  import opened WisunLink
  import opened WisunProgress

  class LinkMachine {
    var step: Step
    var leaveToReset: bool
    var atIdx: nat
    var passthrough: bool
    var retry: nat
    var join: Joining
    var status: Status
    var prov: Provision
    var timers: Timers
    var asm: string
    var line: string
    var port: Port

    function Abstract(): Link
      reads this
    {
      Link(step, leaveToReset, atIdx, passthrough, retry, join, status, prov, timers, asm, line, port)
    }

    constructor ()
      ensures Abstract() == AT_REST && Inv(AT_REST)
    {
      step, leaveToReset, atIdx, passthrough, retry := Idle, false, 0, false, 0;
      join := Joining(false, 0, false, 0);
      status, prov := Status(false, false, 0, 0, 0, false), Provision([], 0, false, false);
      timers, asm, line, port := Timers(false, false, false), "", "", Port(false, []);
    }

    /** shWisunSendProbe followed by shWisunArm. */
    method Probe(cmd: string)
      modifies `port, `timers
      ensures Abstract() == SendAndArm(old(Abstract()), cmd)
    {
      port := port.(sent := port.sent + [cmd]);
      timers := timers.(link := true);
    }

    method LeaveToDest()
      modifies this
      ensures Abstract() == LeaveForDest(old(Abstract()))
    {
      passthrough := false;
      leaveToReset := false;
      step := Leave;
      Probe("exit");
    }

    method Clear()
      modifies `status, `atIdx, `asm, `prov, `passthrough, `retry
      ensures Abstract() == Cleared(old(Abstract()))
    {
      status := Status(false, false, 0, 0, 0, false);
      atIdx, asm, prov := 0, "", Provision([], 0, false, false);
      passthrough, retry := false, 0;
    }

    method Start()
      modifies this
      ensures Abstract() == StartVerify(old(Abstract()))
    {
      hide Cleared;
      Clear();
      leaveToReset := true;
      step := Leave;
      Probe("exit");
    }

    method Finish()
      modifies this
      ensures Abstract() == AtFinish(old(Abstract()))
    {
      hide LeaveForDest;
      status := status.(atOk := status.atFail == 0 && status.atPass > 0 && status.resetSeen);
      asm := "";
      LeaveToDest();
    }

    method SendCurrent()
      modifies this
      ensures Abstract() == AtSendCurrent(old(Abstract()))
    {
      hide AtFinish, AtCommand;
      if atIdx >= AT_COUNT {
        Finish();
        return;
      }
      asm := "";
      step := Cmd;
      Probe(AtCommand(atIdx));
    }

    method NoteResult(pass: bool)
      modifies this
      ensures Abstract() == AtNoteResult(old(Abstract()), pass)
    {
      hide AtSendCurrent;
      if pass {
        status := status.(atPass := if status.atPass < 255 then status.atPass + 1 else 255);
      } else {
        status := status.(atFail := if status.atFail < 255 then status.atFail + 1 else 255);
      }
      atIdx := atIdx + 1;
      SendCurrent();
    }

    method ProvSend()
      modifies this
      ensures Abstract() == ProvSendCurrent(old(Abstract()))
    {
      asm := "";
      step := ProvSet;
      if prov.next >= |prov.queue| {
        Probe("save");
        prov := prov.(saving := true);
      } else {
        Probe(prov.queue[prov.next]);
      }
    }

    method TryRejoin(now: nat)
      modifies this
      ensures Abstract() == Rejoin(old(Abstract()), now)
    {
      hide LeaveForDest;
      if step == Leave || step == Dest || step == Pass {
        return;
      }
      if join.lastRejoin != 0 && (now - join.lastRejoin) % 0x1_0000_0000 < REJOIN_MS {
        return;
      }
      join := join.(lastRejoin := now, rejoining := true, okWait := false);
      status := status.(online := false);
      timers := timers.(report := false);
      LeaveToDest();
    }

    method ReportSent(ok: bool, now: nat)
      modifies this
      ensures Abstract() == NoteReportSent(old(Abstract()), ok, now)
    {
      hide Rejoin;
      if !ok {
        status := status.(online := false);
        TryRejoin(now);
      } else if join.okWait {
        join := join.(missedOk := if join.missedOk < MISSED_MAX then join.missedOk + 1 else MISSED_MAX);
        if join.missedOk >= MISSED_MAX {
          TryRejoin(now);
        }
      } else {
        join := join.(okWait := true);
      }
    }

    method StartReport(sensorsReady: bool, sendOk: bool, now: nat)
      modifies this
      ensures Abstract() == Report(old(Abstract()), sensorsReady, sendOk, now)
    {
      hide NoteReportSent;
      if passthrough && sensorsReady {
        ReportSent(sendOk, now);
      }
      timers := timers.(report := true);
    }

    method TimeoutReset()
      modifies this
      ensures Abstract() == OnReset(old(Abstract()))
    {
      hide AtSendCurrent, AtFinish;
      if status.resetSeen {
        if !prov.finished {
          asm := "";
          step := ProvRead;
          Probe("param");
        } else {
          atIdx := 0;
          SendCurrent();
        }
      } else if status.tries < RESET_TRIES {
        status := status.(tries := status.tries + 1);
        asm := "";
        Probe("reset");
      } else {
        status := status.(atFail := (status.atFail + 1) % 256);
        Finish();
      }
    }

    method TimeoutProvRead()
      modifies this
      ensures Abstract() == OnProvRead(old(Abstract()))
    {
      hide AtSendCurrent, ProvSendCurrent, Plan;
      var q := Plan(asm);
      if q == [] {
        prov := Provision(q, 0, false, true);
        atIdx := 0;
        SendCurrent();
      } else {
        prov := prov.(queue := q, next := 0, saving := false);
        ProvSend();
      }
    }

    method TimeoutProvSet()
      modifies this
      ensures Abstract() == OnProvSet(old(Abstract()))
    {
      hide ProvSendCurrent;
      if prov.saving {
        prov := prov.(finished := true);
        status := status.(resetSeen := false);
        step := Reset;
        asm := "";
        Probe("svrst");
      } else {
        prov := prov.(next := prov.next + 1);
        ProvSend();
      }
    }

    method TimeoutLeave()
      modifies this
      ensures Abstract() == OnLeave(old(Abstract()))
    {
      asm := "";
      if leaveToReset {
        status := status.(tries := 0, resetSeen := false);
        step := Reset;
        timers := timers.(link := true);
      } else {
        step := Dest;
        Probe("at_dest 2020:abcd::212:4b00:2de1:f9ff");
      }
    }

    method TimeoutPass(sensorsReady: bool, sendOk: bool, now: nat)
      modifies this
      ensures Abstract() == OnPass(old(Abstract()), sensorsReady, sendOk, now)
    {
      hide ContainsFold, Report, LeaveForDest;
      var transparent := FindFold(asm, "transparent");
      var passed := FindFold(asm, "passthrough");
      var tooLong := FindFold(asm, "cmd too long");
      var formatErr := FindFold(asm, "format err");
      var entered, rejected := transparent || passed, tooLong || formatErr;
      assert entered == Entered(Abstract()) && rejected == Rejected(Abstract());
      hide Entered, Rejected;
      if rejected && retry < REENTRIES {
        retry := retry + 1;
        asm := "";
        LeaveToDest();
        return;
      }
      step := Done;
      passthrough := entered || !rejected;
      if !passthrough {
        return;
      }
      status := status.(online := false);
      StartReport(sensorsReady, sendOk, now);
    }

    /** LINK_CHECK delivered. */
    method Fire(sensorsReady: bool, sendOk: bool, now: nat)
      modifies this
      ensures Abstract() == OnTimeout(old(Abstract()), sensorsReady, sendOk, now)
    {
      hide OnReset, OnProvRead, OnProvSet, OnLeave, OnPass, AtNoteResult, ReplyOk, AtCommand;
      timers := timers.(link := false);
      match step {
        case Reset => TimeoutReset();
        case ProvRead => TimeoutProvRead();
        case ProvSet => TimeoutProvSet();
        case Leave => TimeoutLeave();
        case Dest =>
          step := Pass;
          passthrough := false;
          asm := "";
          Probe("+++");
        case Pass => TimeoutPass(sensorsReady, sendOk, now);
        case Cmd => NoteResult(atIdx < AT_COUNT && ReplyOk(AtCommand(atIdx), asm));
        case Idle =>
        case Done =>
      }
    }

    method TooLong()
      modifies this
      ensures Abstract() == OnCmdTooLong(old(Abstract()))
    {
      hide LeaveForDest;
      passthrough := false;
      timers := timers.(report := false);
      if step == Done || step == Idle {
        if retry >= REENTRIES {
          return;
        }
        retry := retry + 1;
        LeaveToDest();
      }
    }

    method FlushLine()
      modifies this
      ensures Abstract() == LineFlush(old(Abstract()))
    {
      hide OnCmdTooLong, ContainsFold;
      var hit := FindFold(line, "cmd too long");
      if hit {
        TooLong();
      }
      line := "";
    }

    method PushLine(data: string)
      modifies this
      ensures Abstract() == LinePush(old(Abstract()), data)
    {
      hide LineFlush;
      ghost var l0 := Abstract();
      for i := 0 to |data|
        invariant Abstract() == LinePush(l0, data[..i])
      {
        assert data[..i + 1][..i] == data[..i];
        var b := data[i];
        if b == '\n' {
          FlushLine();
        } else if b != '\r' {
          if |line| >= LINE_BUF {
            FlushLine();
          }
          line := line + [b];
        }
      }
      assert data[..|data|] == data;
    }

    method Confirm()
      modifies `status, `join, `retry
      ensures Abstract() == Confirmed(old(Abstract()))
    {
      status := status.(online := true);
      join, retry := Joining(false, 0, false, join.lastRejoin), 0;
    }

    method NoteReceived(data: string, now: nat)
      modifies this
      ensures Abstract() == NoteRx(old(Abstract()), data, now)
    {
      hide Rejoin, ContainsFold, Confirmed;
      var fail := FindFold(data, "send fail");
      var ok := FindFold(data, "send ok");
      if fail {
        status := status.(online := false);
        join := join.(okWait := false);
        TryRejoin(now);
      } else if ok {
        Confirm();
        if step == Leave || step == Dest || step == Pass {
          step := Done;
          passthrough := true;
        }
      }
    }

    /** One chunk drained from the UART. */
    method Receive(data: string, now: nat)
      modifies this
      ensures Abstract() == OnReceive(old(Abstract()), data, now)
    {
      hide NoteRx, LinePush, ContainsFold;
      var copy := |data|;
      if |asm| + copy > RX_BUF {
        copy := if |asm| < RX_BUF then RX_BUF - |asm| else 0;
      }
      asm := asm + data[..copy];
      assert Abstract() == Buffered(old(Abstract()), data) by {
        assert data[..|data|] == data;
      }
      hide Buffered;
      NoteReceived(data, now);
      PushLine(data);
      ghost var l := Abstract();
      if step == Reset {
        var banner := FindFold(asm, "Router start");
        if banner {
          status := status.(resetSeen := true);
        }
        timers := timers.(link := true);
      } else if step == Cmd || step == ProvRead || step == ProvSet {
        timers := timers.(link := true);
      }
      assert Abstract() == Settled(l);
    }

    method OpenUart(ok: bool)
      modifies this
      ensures Abstract() == Open(old(Abstract()), ok)
    {
      if !port.open && ok {
        port := port.(open := true);
        timers := timers.(rxPoll := true);
      }
    }

    method CloseUart()
      modifies this
      ensures Abstract() == Close(old(Abstract()))
    {
      if port.open {
        port := port.(sent := port.sent + ["exit"]);
      }
      passthrough := false;
      timers := timers.(link := false);
      step := Idle;
      timers := timers.(rxPoll := false);
      port := port.(open := false);
    }

    method SleepUart()
      modifies this
      ensures Abstract() == Sleep(old(Abstract()))
    {
      hide Close;
      timers := timers.(link := false);
      step := Idle;
      if passthrough && port.open {
        passthrough := false;
        port := port.(sent := port.sent + ["exit"]);
      }
      status := status.(online := false);
      CloseUart();
    }

    /** A timer, a report tick or one chunk. */
    method Handle(e: Event)
      modifies this
      ensures Abstract() == Next(old(Abstract()), e)
    {
      hide OnTimeout, OnReceive, Report;
      match e {
        case Timeout(ready, ok, now) => Fire(ready, ok, now);
        case Received(data, now) => Receive(data, now);
        case ReportTick(ready, ok, now) => StartReport(ready, ok, now);
        case PollTick =>
      }
    }

    /** shUartDrain: every chunk the stream holds, in one message. */
    method DrainPort(cs: seq<Chunk>)
      modifies this
      ensures Abstract() == Run(old(Abstract()), Chunks(cs))
    {
      hide OnReceive, Run, Chunks;
      ghost var s := Abstract();
      NoChunks(s);
      for i := 0 to |cs|
        invariant Abstract() == Run(s, Chunks(cs[..i]))
      {
        ChunksSnoc(s, cs[..i + 1]);
        assert cs[..i + 1][..i] == cs[..i];
        Receive(cs[i].data, cs[i].now);
      }
      assert cs[..|cs|] == cs;
    }

    /** One message of the module task. */
    method HandleMessage(m: Message)
      modifies this
      ensures Abstract() == Deliver(old(Abstract()), m)
    {
      hide OnTimeout, Report, Chunks, Next;
      match m {
        case Check(ready, ok, now) =>
          OneEvent(Abstract(), Timeout(ready, ok, now));
          Handle(Timeout(ready, ok, now));
        case Drain(cs) => DrainPort(cs);
        case Tick(ready, ok, now) =>
          OneEvent(Abstract(), ReportTick(ready, ok, now));
          Handle(ReportTick(ready, ok, now));
      }
    }

    /** Any sequence of messages; `reached` tells whether DONE was seen before, between or after them. */
    method HandleAll(ms: seq<Message>) returns (reached: bool)
      requires Inv(Abstract())
      modifies this
      ensures Inv(Abstract()) && Abstract() == DeliverAll(old(Abstract()), ms)
      ensures reached <==> !NeverAtDone(old(Abstract()), ms)
    {
      hide Deliver, Inv, NeverAtDone;
      ghost var s := Abstract();
      reached := step == Done;
      NeverAtDoneNow(s);
      for i := 0 to |ms|
        invariant Abstract() == DeliverAll(s, ms[..i])
        invariant reached <==> !NeverAtDone(s, ms[..i])
      {
        HandleMessage(ms[i]);
        assert ms[..i + 1][..i] == ms[..i] && ms[..i + 1] == ms[..i] + [ms[i]];
        NeverAtDoneSnoc(s, ms[..i], ms[i]);
        reached := reached || step == Done;
      }
      assert ms[..|ms|] == ms;
      DeliverAllKeeps(s, ms);
    }

    /**
     A bring-up: the verification is started and any messages are delivered, in any order and with any bytes in any
     number of chunks. More than 37 timer firings, and nine for every bounce, force DONE at a message boundary; until it is
     reached the timer is pending and nothing is passed through.
     */
    method BringUp(ms: seq<Message>) returns (reached: bool)
      requires |line| <= LINE_BUF
      modifies this
      ensures Inv(Abstract()) && Abstract() == DeliverAll(StartVerify(old(Abstract())), ms)
      ensures reached <==> !NeverAtDone(StartVerify(old(Abstract())), ms)
      ensures Checks(ms) > 37 + 9 * BouncesIn(StartVerify(old(Abstract())), ms) ==> reached
      ensures !reached ==> timers.link && !passthrough
    {
      hide Deliver, StartVerify, NeverAtDone, Checks, BouncesIn, DeliverAll, Inv;
      ghost var l0 := Abstract();
      StartKeeps(l0);
      Start();
      reached := HandleAll(ms);
      DoneAtBoundary(l0, ms);
      BuffersFit(Abstract());
    }
  }
}
