/**
 The list of SPI transfers in flight (peripherals/spi_sram_23LC1024.c). Requests are pushed on a
 singly linked list; a completion event walks it with a pointer to the link to rewrite.
 */
module SpiTransfers {

  const CMD_READ: nat := 0x03
  const CMD_WRITE: nat := 0x02

  /** One accepted request; without a callback nothing is reported back. */
  datatype Request = Request(handle: int, hasCallback: bool, context: int)

  /** A fired callback: the context it was given and whether the transfer succeeded. */
  datatype Callback = Callback(context: int, success: bool)

  // ---- The list as a sequence -------------------------------------------------

  /** The list without its first entry for `handle`. */
  function Unlinked(q: seq<Request>, handle: int): seq<Request> {
    if q == [] then [] else if q[0].handle == handle then q[1..] else [q[0]] + Unlinked(q[1..], handle)
  }

  function Fired(q: seq<Request>, handle: int, success: bool): seq<Callback> {
    if q == [] then []
    else if q[0].handle == handle then (if q[0].hasCallback then [Callback(q[0].context, success)] else [])
    else Fired(q[1..], handle, success)
  }

  ghost predicate UniqueHandles(q: seq<Request>) {
    forall i, j :: 0 <= i < j < |q| ==> q[i].handle != q[j].handle
  }

  /** With unique handles a completion takes out its own entry and leaves the others in order. */
  lemma {:induction false} UnlinkedExactly(q: seq<Request>, k: nat)
    requires UniqueHandles(q) && k < |q|
    ensures Unlinked(q, q[k].handle) == q[..k] + q[k + 1..]
    ensures Fired(q, q[k].handle, true) == if q[k].hasCallback then [Callback(q[k].context, true)] else []
    ensures Fired(q, q[k].handle, false) == if q[k].hasCallback then [Callback(q[k].context, false)] else []
  {
    if k > 0 {
      assert q[0].handle != q[k].handle;
      UniqueTail(q);
      hide UniqueHandles;
      UnlinkedExactly(q[1..], k - 1);
      assert q[1..][..k - 1] == q[1..k] && q[1..][k..] == q[k + 1..];
      assert [q[0]] + q[1..k] == q[..k];
    }
  }

  lemma UniqueTail(q: seq<Request>)
    requires UniqueHandles(q) && q != []
    ensures UniqueHandles(q[1..])
  {
  }

  /** A completion for a handle that is not in flight changes nothing. */
  lemma {:induction false} UnknownIgnored(q: seq<Request>, handle: int, success: bool)
    requires forall i :: 0 <= i < |q| ==> q[i].handle != handle
    ensures Unlinked(q, handle) == q && Fired(q, handle, success) == []
  {
    if q != [] {
      UnknownIgnored(q[1..], handle, success);
    }
  }

  /** Walking past entries of other transfers. */
  lemma {:induction false} SkipPrefix(q: seq<Request>, k: nat, handle: int, success: bool)
    requires k <= |q| && forall i :: 0 <= i < k ==> q[i].handle != handle
    ensures Unlinked(q, handle) == q[..k] + Unlinked(q[k..], handle)
    ensures Fired(q, handle, success) == Fired(q[k..], handle, success)
  {
    if k > 0 {
      SkipPrefix(q[1..], k - 1, handle, success);
      assert q[1..][k - 1..] == q[k..];
      assert [q[0]] + q[1..][..k - 1] == q[..k];
    } else {
      assert q[0..] == q;
    }
  }

  // ---- Whole runs ------------------------------------------------------------------

  datatype Event =
    | Submit(request: Request, accepted: bool)
    | Complete(handle: int, success: bool)

  /** A request that came back, and how. */
  datatype Outcome = Outcome(request: Request, success: bool)

  /** Requests accepted so far, those in flight, those completed in order, and the callbacks fired in order. */
  datatype Bus = Bus(inFlight: seq<Request>, accepted: seq<Request>, completed: seq<Outcome>, fired: seq<Callback>)

  const EMPTY: Bus := Bus([], [], [], [])

  function Next(b: Bus, e: Event): Bus {
    match e
    case Submit(r, ok) => if ok then b.(inFlight := [r] + b.inFlight, accepted := b.accepted + [r]) else b
    case Complete(h, ok) =>
      b.(inFlight := Unlinked(b.inFlight, h), completed := b.completed + Taken(b.inFlight, h, ok),
         fired := b.fired + Fired(b.inFlight, h, ok))
  }

  /** The entry a completion takes out, if any. */
  function Taken(q: seq<Request>, handle: int, success: bool): (r: seq<Outcome>)
    ensures |r| <= 1
  {
    if q == [] then []
    else if q[0].handle == handle then [Outcome(q[0], success)]
    else Taken(q[1..], handle, success)
  }

  /** The driver never reuses a handle that is still in flight. */
  predicate Admissible(b: Bus, e: Event) {
    e.Submit? && e.accepted ==> forall i :: 0 <= i < |b.inFlight| ==> b.inFlight[i].handle != e.request.handle
  }

  ghost function RequestsOf(c: seq<Outcome>): seq<Request> {
    if c == [] then [] else RequestsOf(c[..|c| - 1]) + [c[|c| - 1].request]
  }

  /** One callback for each outcome whose request has one: its own context, its own result. */
  ghost function CallbacksOf(c: seq<Outcome>): seq<Callback> {
    if c == [] then []
    else
      var o := c[|c| - 1];
      CallbacksOf(c[..|c| - 1]) + if o.request.hasCallback then [Callback(o.request.context, o.success)] else []
  }

  ghost predicate Balanced(b: Bus) {
    && UniqueHandles(b.inFlight)
    && multiset(b.accepted) == multiset(b.inFlight) + multiset(RequestsOf(b.completed))
    && b.fired == CallbacksOf(b.completed)
  }

  lemma {:induction false} TakenBalances(q: seq<Request>, handle: int, success: bool)
    ensures multiset(q) == multiset(Unlinked(q, handle)) + multiset(RequestsOf(Taken(q, handle, success)))
  {
    if q != [] {
      assert q == [q[0]] + q[1..];
      if q[0].handle != handle {
        TakenBalances(q[1..], handle, success);
      } else {
        OneOutcome(Outcome(q[0], success));
      }
    }
  }

  lemma OneOutcome(o: Outcome)
    ensures RequestsOf([o]) == [o.request]
    ensures CallbacksOf([o]) == if o.request.hasCallback then [Callback(o.request.context, o.success)] else []
  {
    assert [o][..0] == [];
  }

  lemma {:induction false} TakenFires(q: seq<Request>, handle: int, success: bool)
    ensures Fired(q, handle, success) == CallbacksOf(Taken(q, handle, success))
  {
    if q != [] {
      if q[0].handle != handle {
        TakenFires(q[1..], handle, success);
      } else {
        OneOutcome(Outcome(q[0], success));
      }
    }
  }

  lemma UnlinkedUnique(q: seq<Request>, handle: int)
    requires UniqueHandles(q)
    ensures UniqueHandles(Unlinked(q, handle))
  {
    if k :| 0 <= k < |q| && q[k].handle == handle {
      UnlinkedExactly(q, k);
    } else {
      UnknownIgnored(q, handle, true);
    }
  }

  lemma OutcomesAppend(c: seq<Outcome>, r: seq<Outcome>)
    requires |r| <= 1
    ensures RequestsOf(c + r) == RequestsOf(c) + RequestsOf(r)
    ensures CallbacksOf(c + r) == CallbacksOf(c) + CallbacksOf(r)
  {
    if r == [] {
      assert c + r == c;
    } else {
      OneOutcome(r[0]);
      assert r == [r[0]];
      assert (c + r)[..|c|] == c;
    }
  }

  lemma SubmitBalanced(b: Bus, r: Request)
    requires Balanced(b) && Admissible(b, Submit(r, true))
    ensures Balanced(Next(b, Submit(r, true)))
  {
    hide CallbacksOf, RequestsOf;
    assert multiset([r] + b.inFlight) == multiset{r} + multiset(b.inFlight);
  }

  lemma CompleteBalanced(b: Bus, h: int, ok: bool)
    requires Balanced(b)
    ensures Balanced(Next(b, Complete(h, ok)))
  {
    hide CallbacksOf, RequestsOf, Unlinked, Taken, Fired, UniqueHandles;
    TakenBalances(b.inFlight, h, ok);
    TakenFires(b.inFlight, h, ok);
    UnlinkedUnique(b.inFlight, h);
    OutcomesAppend(b.completed, Taken(b.inFlight, h, ok));
  }

  lemma NextBalanced(b: Bus, e: Event)
    requires Balanced(b) && Admissible(b, e)
    ensures Balanced(Next(b, e))
  {
    hide Balanced;
    match e
    case Submit(r, ok) =>
      if ok {
        SubmitBalanced(b, r);
      }
    case Complete(h, ok) => CompleteBalanced(b, h, ok);
  }

  function Run(b: Bus, es: seq<Event>): Bus {
    if es == [] then b else Next(Run(b, es[..|es| - 1]), es[|es| - 1])
  }

  /**
   Over every interleaving of requests and completions each accepted request is in flight or
   completed exactly once, and the callbacks fired are, in order, those of the completed requests
   that have one, each with its own context and result.
   */
  lemma {:induction false} RunBalanced(es: seq<Event>)
    requires forall i :: 0 <= i < |es| ==> Admissible(Run(EMPTY, es[..i]), es[i])
    ensures Balanced(Run(EMPTY, es))
  {
    if es != [] {
      var n := |es| - 1;
      var before := es[..n];
      assert forall i :: 0 <= i < n ==> before[..i] == es[..i];
      RunBalanced(before);
      hide Next, Balanced;
      NextBalanced(Run(EMPTY, before), es[n]);
    }
  }

  // ---- The linked list -----------------------------------------------------------------

  class Xfer {
    var handle: int
    var hasCallback: bool
    var context: int
    var header: seq<nat>
    var next: Xfer?

    constructor (hasCallback: bool, context: int, header: seq<nat>, next: Xfer?)
      ensures this.hasCallback == hasCallback && this.context == context
      ensures this.header == header && this.next == next
    {
      this.handle, this.hasCallback, this.context := 0, hasCallback, context;
      this.header, this.next := header, next;
    }

    function Req(): Request
      reads this
    {
      Request(handle, hasCallback, context)
    }
  }

  /** The command byte and the 24-bit address, most significant byte first. */
  function Header(cmd: nat, offset: nat): seq<nat> {
    [cmd, (offset / 0x1_0000) % 256, (offset / 256) % 256, offset % 256]
  }

  /** The chip sees the offset modulo its 24-bit address space. */
  lemma HeaderAddress(cmd: nat, offset: nat)
    ensures var h := Header(cmd, offset);
            h[0] == cmd && h[1] * 0x1_0000 + h[2] * 256 + h[3] == offset % 0x100_0000
  {
    var a, b := offset / 256, offset / 0x1_0000;
    assert a / 256 == b && b / 256 == offset / 0x100_0000;
    assert offset == 256 * a + offset % 256 && a == 256 * b + a % 256 && b == 256 * (b / 256) + b % 256;
  }

  ghost predicate Distinct(ns: seq<Xfer>) {
    forall i, j :: 0 <= i < j < |ns| ==> ns[i] != ns[j]
  }

  lemma DistinctRemoval(ns: seq<Xfer>, k: nat)
    requires Distinct(ns) && k < |ns|
    ensures Distinct(ns[..k] + ns[k + 1..])
    ensures k > 0 ==> forall i :: 0 <= i < |ns| && i != k - 1 ==> ns[i] != ns[k - 1]
  {
    var r := ns[..k] + ns[k + 1..];
    assert forall i :: 0 <= i < |r| ==> r[i] == if i < k then ns[i] else ns[i + 1];
  }

  lemma DistinctPush(x: Xfer, ns: seq<Xfer>)
    requires Distinct(ns) && x !in ns
    ensures Distinct([x] + ns)
  {
  }

  class SpiSram {
    var xfers: Xfer?
    var count: int
    var countMax: int
    var fired: seq<Callback>
    ghost var nodes: seq<Xfer>

    ghost predicate Valid()
      reads this, nodes
    {
      && Distinct(nodes)
      && xfers == NodeAt(0)
      && (forall i {:trigger nodes[i].next} :: 0 <= i < |nodes| ==> nodes[i].next == NodeAt(i + 1))
      && count == |nodes|
    }

    ghost function NodeAt(i: nat): Xfer?
      reads this
    {
      if i < |nodes| then nodes[i] else null
    }

    ghost function InFlight(): (q: seq<Request>)
      reads this, nodes
      ensures |q| == |nodes|
    {
      seq(|nodes|, i requires 0 <= i < |nodes| reads this, nodes => nodes[i].Req())
    }

    constructor ()
      ensures Valid() && InFlight() == [] && fired == []
    {
      xfers, count, countMax, fired, nodes := null, 0, 0, [], [];
    }

    /** The common part of read and write: link the transfer once the driver has accepted it. */
    method Link(x: Xfer, handle: int)
      requires Valid() && x !in nodes && x.next == xfers
      modifies this, x
      ensures Valid() && InFlight() == [Request(handle, old(x.hasCallback), old(x.context))] + old(InFlight())
      ensures fired == old(fired) && countMax == old(countMax) && count == old(count) + 1
    {
      DistinctPush(x, nodes);
      hide Distinct;
      ghost var n0, q0 := nodes, InFlight();
      x.handle := handle;
      assert forall i :: 0 <= i < |n0| ==> n0[i].Req() == q0[i];
      xfers := x;
      count := count + 1;
      nodes := [x] + nodes;
      forall i | 0 <= i < |nodes|
        ensures nodes[i].next == NodeAt(i + 1) && nodes[i].Req() == ([x.Req()] + q0)[i]
      {
        assert i > 0 ==> nodes[i] == n0[i - 1];
      }
    }

    method Write(offset: nat, hasCallback: bool, context: int, accepted: bool, handle: int) returns (ok: bool)
      requires Valid()
      modifies this
      ensures Valid() && ok == accepted && fired == old(fired)
      ensures InFlight() == (if accepted then [Request(handle, hasCallback, context)] else []) + old(InFlight())
      ensures countMax == if accepted && count > old(countMax) then count else old(countMax)
    {
      var x := new Xfer(hasCallback, context, Header(CMD_WRITE, offset), xfers);
      if !accepted {
        assert InFlight() == old(InFlight());
        return false;
      }
      Link(x, handle);
      if count > countMax {
        countMax := count;
      }
      return true;
    }

    method Read(offset: nat, hasCallback: bool, context: int, accepted: bool, handle: int) returns (ok: bool)
      requires Valid()
      modifies this
      ensures Valid() && ok == accepted && fired == old(fired) && countMax == old(countMax)
      ensures InFlight() == (if accepted then [Request(handle, hasCallback, context)] else []) + old(InFlight())
    {
      var x := new Xfer(hasCallback, context, Header(CMD_READ, offset), xfers);
      if !accepted {
        assert InFlight() == old(InFlight());
        return false;
      }
      Link(x, handle);
      return true;
    }

    /** Rewrite the link that points at node `k`: the head for `prev == null`. */
    method Unlink(prev: Xfer?, x: Xfer, ghost k: nat)
      requires Valid() && k < |nodes| && nodes[k] == x
      requires prev == (if k == 0 then null else nodes[k - 1])
      modifies this, prev
      ensures Valid() && nodes == old(nodes[..k] + nodes[k + 1..]) && fired == old(fired)
      ensures InFlight() == old(InFlight()[..k] + InFlight()[k + 1..])
    {
      DistinctRemoval(nodes, k);
      hide Distinct;
      ghost var n0, q0 := nodes, InFlight();
      if prev == null {
        xfers := x.next;
      } else {
        prev.next := x.next;
      }
      count := count - 1;
      assert forall i :: 0 <= i < |n0| ==> n0[i].Req() == q0[i];
      nodes := nodes[..k] + nodes[k + 1..];
      forall i | 0 <= i < |nodes|
        ensures nodes[i].next == NodeAt(i + 1) && nodes[i].Req() == (q0[..k] + q0[k + 1..])[i]
      {
        assert nodes[i] == if i < k then n0[i] else n0[i + 1];
      }
    }

    /** BitserialMsgHandler */
    method Complete(handle: int, success: bool)
      requires Valid()
      modifies this, nodes
      ensures Valid()
      ensures InFlight() == Unlinked(old(InFlight()), handle)
      ensures fired == old(fired) + Fired(old(InFlight()), handle, success)
    {
      var prev: Xfer? := null;
      var cur := xfers;
      ghost var k := 0;
      ghost var q := InFlight();
      while cur != null
        invariant k <= |nodes| && cur == NodeAt(k) && prev == (if k == 0 then null else nodes[k - 1])
        invariant Valid() && InFlight() == q && fired == old(fired) && nodes == old(nodes)
        invariant forall i :: 0 <= i < k ==> q[i].handle != handle
        decreases |nodes| - k
      {
        if cur.handle == handle {
          SkipPrefix(q, k, handle, success);
          assert q[k] == cur.Req() && q[k..][0] == q[k] && q[k..][1..] == q[k + 1..];
          Unlink(prev, cur, k);
          if cur.hasCallback {
            fired := fired + [Callback(cur.context, success)];
          }
          return;
        }
        assert q[k] == cur.Req();
        prev := cur;
        cur := cur.next;
        k := k + 1;
      }
      UnknownIgnored(q, handle, success);
    }
  }
}
