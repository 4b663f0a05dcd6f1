/** The drain barrier (drainer.go): its critical sections as a class, and the protocol over any number of drainers and
    subscribers, cut at the mutex and at the one-slot wake-up channel. */
module Drainer {
  import opened Common

  type SubId = nat

  // ---------------------------------------------------------------------------------------------
  // The state under the mutex

  /** queued are the subscriptions with a DrainEvent in their channel, sent counts the events ever sent to each. */
  datatype Core = Core(draining: bool, subs: seq<SubId>, queued: set<SubId>, sent: map<SubId, nat>)

  function Sent(c: Core, s: SubId): nat {
    if s in c.sent then c.sent[s] else 0
  }

  /** A non-blocking send to the one-slot channel of s. */
  function Offer(c: Core, s: SubId): Core {
    if s in c.queued then c else c.(queued := c.queued + {s}, sent := c.sent[s := Sent(c, s) + 1])
  }

  function OfferAll(c: Core, ss: seq<SubId>): Core
  {
    if ss == [] then c else Offer(OfferAll(c, ss[..|ss| - 1]), Last(ss))
  }

  /** slices.Delete of the first occurrence. */
  function DeleteFirst(ss: seq<SubId>, s: SubId): seq<SubId>
  {
    if ss == [] then []
    else if ss[0] == s then ss[1..]
    else [ss[0]] + DeleteFirst(ss[1..], s)
  }

  /** The first locked section of Drain; None when another Drain is past the gate. */
  function EnterDrain(c: Core): Option<Core> {
    if c.draining then None else Some(OfferAll(c.(draining := true), c.subs))
  }

  function Join(c: Core, s: SubId): Core {
    var c' := c.(subs := c.subs + [s]);
    if c.draining then Offer(c', s) else c'
  }

  function Leave(c: Core, s: SubId): Core {
    c.(subs := DeleteFirst(c.subs, s))
  }

  /** Drainer: the locked sections of Drain, Subscribe and Cancel, and the two ends of the shutdown channel. */
  class Drainer {
    var draining: bool
    var subscriptions: seq<SubId>
    var queued: set<SubId>
    ghost var sent: map<SubId, nat>
    var shutdown: bool                  // the one-slot channel holds a token

    ghost function View(): Core
      reads this
    {
      Core(draining, subscriptions, queued, sent)
    }

    /** The protocol's state w with the fields of this object. */
    ghost function In(w: World): World
      reads this
    {
      w.(core := View(), token := shutdown)
    }

    constructor ()
      ensures View() == Core(false, [], {}, map[]) && !shutdown
    {
      draining, subscriptions, queued, sent, shutdown := false, [], {}, map[], false;
    }

    /** The first locked section of Drain. */
    method Drain() returns (passed: bool)
      modifies this
      ensures forall w: World ::
        Step(old(In(w)), DrainEnter)
          == Some(In(w).(calls := w.calls + [if passed then Looping else AlreadyDraining],
                         owed := if passed then (set s | s in subscriptions) else w.owed))
      ensures passed <==> !old(draining)
      ensures View() == if passed then EnterDrain(old(View())).value else old(View())
      ensures shutdown == old(shutdown)
    {
      if draining { return false; }
      draining := true;
      ghost var c := View();
      for i := 0 to |subscriptions|
        invariant draining && subscriptions == old(subscriptions) && shutdown == old(shutdown)
        invariant View() == OfferAll(c, subscriptions[..i])
      {
        assert subscriptions[..i + 1][..i] == subscriptions[..i];
        OfferAllKeeps(c, subscriptions[..i]);
        var s := subscriptions[i];
        if s !in queued {
          queued := queued + {s};
          sent := sent[s := Sent(View(), s) + 1];
        }
      }
      assert subscriptions[..|subscriptions|] == subscriptions;
      passed := true;
    }

    /** The locked section of the loop of Drain, which returns nil for 0 and blocks else. */
    method Pending() returns (l: nat)
      ensures forall w: World, d: nat :: d < |w.calls| && w.calls[d].Looping? ==>
        Step(In(w), DrainCheck(d)) == Some(In(w).(calls := w.calls[d := if l == 0 then ReturnedNil else Blocked]))
      ensures l == |subscriptions|
    {
      l := |subscriptions|;
    }

    method Subscribe(s: SubId)
      requires s !in queued
      modifies this`subscriptions, this`queued, this`sent
      ensures View() == Join(old(View()), s)
      ensures forall w: World :: s !in w.known ==>
        Step(old(In(w)), Label.Subscribe(s))
          == Some(In(w).(known := w.known + {s}, owed := if draining then w.owed + {s} else w.owed))
    {
      if draining {
        queued := queued + {s};
        sent := sent[s := Sent(View(), s) + 1];
      }
      subscriptions := subscriptions + [s];
    }

    method Cancel(s: SubId)
      modifies this`subscriptions
      ensures View() == Leave(old(View()), s)
      ensures forall w: World :: s in w.known ==>
        Step(old(In(w)), CancelLock(s)) == Some(In(w).(unsent := w.unsent + 1))
    {
      var i := 0;
      while i < |subscriptions|
        invariant i <= |subscriptions| && subscriptions == old(subscriptions)
        invariant s !in subscriptions[..i]
      {
        if subscriptions[i] == s { break; }
        TakeMore(subscriptions, i);
        i := i + 1;
      }
      DeleteSplit(subscriptions, i, s);
      if i < |subscriptions| {
        subscriptions := subscriptions[..i] + subscriptions[i + 1..];
      }
      forall w: World | s in w.known ensures Step(old(In(w)), CancelLock(s)) == Some(In(w).(unsent := w.unsent + 1)) {
        CancelStep(old(In(w)), s);
      }
    }

    /** The send of Cancel, which finds room or a token that is there already. */
    method Signal()
      modifies this`shutdown
      ensures shutdown && View() == old(View())
      ensures forall w: World :: w.unsent > 0 ==>
        Step(old(In(w)), CancelSend) == Some(In(w).(unsent := w.unsent - 1))
    {
      shutdown := true;
    }
  }

  lemma {:induction false} OfferAllKeeps(c: Core, ss: seq<SubId>)
    ensures OfferAll(c, ss).draining == c.draining && OfferAll(c, ss).subs == c.subs
  {
    if ss != [] {
      OfferAllKeeps(c, ss[..|ss| - 1]);
    }
  }

  lemma CancelStep(w: World, s: SubId)
    requires s in w.known
    ensures Step(w, CancelLock(s)) == Some(w.(core := Leave(w.core, s), unsent := w.unsent + 1))
  {
  }

  lemma {:induction false} DeleteSplit(ss: seq<SubId>, i: nat, s: SubId)
    requires i <= |ss| && s !in ss[..i]
    ensures i < |ss| && ss[i] == s ==> DeleteFirst(ss, s) == ss[..i] + ss[i + 1..]
    ensures i == |ss| ==> DeleteFirst(ss, s) == ss
  {
    if i > 0 {
      assert ss[..i][0] == ss[0];
      assert ss[1..][..i - 1] == ss[..i][1..];
      DeleteSplit(ss[1..], i - 1, s);
      assert ss == [ss[0]] + ss[1..];
    }
  }

  // ---------------------------------------------------------------------------------------------
  // The protocol

  /** One call of Drain: blocked is the select on the shutdown channel and on ctx.Done. */
  datatype Call = Looping | Blocked | ReturnedNil | ReturnedCtxErr | AlreadyDraining

  /** unsent counts the Cancels between their unlock and their send; known are the subscriptions ever made, owed those
      present when draining began or made later. */
  datatype World = World(core: Core, token: bool, calls: seq<Call>, unsent: nat, known: set<SubId>, owed: set<SubId>)

  datatype Label =
    | DrainEnter
    | DrainCheck(d: nat)
    | DrainWake(d: nat)
    | DrainCtx(d: nat)
    | Subscribe(s: SubId)
    | Receive(s: SubId)
    | CancelLock(s: SubId)
    | CancelSend

  function Start(): World {
    World(Core(false, [], {}, map[]), false, [], 0, {}, {})
  }

  function Step(w: World, l: Label): Option<World>
  {
    match l
    case DrainEnter =>
      (match EnterDrain(w.core)
       case None => Some(w.(calls := w.calls + [AlreadyDraining]))
       case Some(c) => Some(w.(core := c, calls := w.calls + [Looping], owed := set s | s in w.core.subs)))
    case DrainCheck(d) =>
      if d >= |w.calls| || !w.calls[d].Looping? then None
      else Some(w.(calls := w.calls[d := if w.core.subs == [] then ReturnedNil else Blocked]))
    case DrainWake(d) =>
      if d >= |w.calls| || !w.calls[d].Blocked? || !w.token then None
      else Some(w.(calls := w.calls[d := Looping], token := false))
    case DrainCtx(d) =>
      if d >= |w.calls| || !w.calls[d].Blocked? then None else Some(w.(calls := w.calls[d := ReturnedCtxErr]))
    case Subscribe(s) =>
      if s in w.known then None
      else Some(w.(core := Join(w.core, s), known := w.known + {s},
                   owed := if w.core.draining then w.owed + {s} else w.owed))
    case Receive(s) =>
      if s !in w.core.queued then None else Some(w.(core := w.core.(queued := w.core.queued - {s})))
    case CancelLock(s) =>
      if s !in w.known then None else Some(w.(core := Leave(w.core, s), unsent := w.unsent + 1))
    case CancelSend => if w.unsent == 0 then None else Some(w.(token := true, unsent := w.unsent - 1))
  }

  predicate Passed(c: Call) {
    !c.AlreadyDraining?
  }

  ghost predicate GateInv(w: World)
  {
    && (forall d, e :: 0 <= d < e < |w.calls| ==> !(Passed(w.calls[d]) && Passed(w.calls[e])))
    && (!w.core.draining ==> w.calls == [] && w.owed == {})
  }

  ghost predicate EventInv(w: World)
  {
    && (forall s :: Sent(w.core, s) == if s in w.owed then 1 else 0)
    && w.core.queued <= w.owed <= w.known
    && (forall s :: s in w.core.subs ==> s in w.known && (w.core.draining ==> s in w.owed))
    && Distinct(w.core.subs)
  }

  ghost predicate WakeInv(w: World)
  {
    forall d :: 0 <= d < |w.calls| && w.calls[d].Blocked? && w.core.subs == [] ==> w.token || w.unsent > 0
  }

  /** What offering the event to every subscriber, each for the first time, does. */
  lemma {:induction false} OfferAllSends(c: Core, ss: seq<SubId>)
    requires c.queued == {} && forall s :: Sent(c, s) == 0
    requires Distinct(ss)
    ensures forall s :: Sent(OfferAll(c, ss), s) == if s in ss then 1 else 0
    ensures forall s :: s in OfferAll(c, ss).queued <==> s in ss
    ensures OfferAll(c, ss).subs == c.subs && OfferAll(c, ss).draining == c.draining
  {
    if ss != [] {
      var v := ss[..|ss| - 1];
      OfferAllSends(c, v);
      assert ss == v + [Last(ss)];
      assert Last(ss) !in v by {
        assert forall i :: 0 <= i < |v| ==> ss[i] != ss[|ss| - 1];
      }
    }
  }

  lemma {:induction false} DeleteFirstIn(ss: seq<SubId>, s: SubId)
    requires Distinct(ss)
    ensures forall x :: x in DeleteFirst(ss, s) <==> x in ss && x != s
    ensures Distinct(DeleteFirst(ss, s))
  {
    if ss != [] {
      DeleteFirstIn(ss[1..], s);
      assert ss == [ss[0]] + ss[1..];
      assert ss[0] !in ss[1..] by {
        assert forall j :: 0 <= j < |ss[1..]| ==> ss[1..][j] == ss[j + 1];
      }
      var r := DeleteFirst(ss[1..], s);
      assert forall i :: 0 <= i < |r| ==> r[i] in r;
    }
  }

  lemma EnterKeeps(w: World)
    requires GateInv(w) && EventInv(w)
    ensures GateInv(Step(w, DrainEnter).value) && EventInv(Step(w, DrainEnter).value)
  {
    if !w.core.draining {
      assert forall s :: Sent(w.core.(draining := true), s) == Sent(w.core, s);
      OfferAllSends(w.core.(draining := true), w.core.subs);
    }
  }

  lemma CancelKeeps(w: World, s: SubId)
    requires EventInv(w) && Step(w, CancelLock(s)).Some?
    ensures EventInv(Step(w, CancelLock(s)).value)
  {
    DeleteFirstIn(w.core.subs, s);
  }

  ghost predicate Inv(w: World)
  {
    GateInv(w) && EventInv(w) && WakeInv(w)
  }

  lemma InvStep(w: World, l: Label)
    requires Inv(w) && Step(w, l).Some?
    ensures Inv(Step(w, l).value)
  {
    if l.DrainEnter? {
      EnterKeeps(w);
    } else if l.CancelLock? {
      CancelKeeps(w, l.s);
    }
  }

  /** The drain barrier, over every run: at most one Drain passes the gate; every subscription present at the start of
      draining or made later gets exactly one DrainEvent, every other none; and a Drain that is blocked on an empty
      list has its wake-up in the channel or in a Cancel that is about to send it. */
  lemma DrainBarrier(run: seq<Label>)
    requires Exec(Step, Start(), run).Some?
    ensures var w := Exec(Step, Start(), run).value;
      && (forall d, e :: 0 <= d < e < |w.calls| ==> w.calls[d].AlreadyDraining? || w.calls[e].AlreadyDraining?)
      && (forall s :: Sent(w.core, s) == if s in w.owed then 1 else 0)
      && (forall s :: s in w.core.subs && w.core.draining ==> s in w.owed)
      && (forall d :: 0 <= d < |w.calls| && w.calls[d].Blocked? && w.core.subs == [] ==> w.token || w.unsent > 0)
  {
    forall w, l | Inv(w) && Step(w, l).Some? ensures Inv(Step(w, l).value) {
      InvStep(w, l);
    }
    InvariantHolds(Step, Inv, Start(), run);
  }

  /** Drain returns nil exactly at an instant at which it sees the list empty. */
  lemma NilOnlyWhenEmpty(w: World, l: Label, d: nat)
    requires Step(w, l).Some? && d < |w.calls| && !w.calls[d].ReturnedNil?
    ensures Step(w, l).value.calls[d].ReturnedNil? <==> l == DrainCheck(d) && w.core.subs == []
  {
  }

  /** A Drain that is blocked goes on only with the token, which it takes, or when its ctx is done; and the token comes from
      a Cancel only. */
  lemma WakesByToken(w: World, l: Label, d: nat)
    requires Step(w, l).Some? && d < |w.calls| && w.calls[d].Blocked?
    ensures var w' := Step(w, l).value;
      && (w'.calls[d] == Looping <==> l == DrainWake(d) && w.token)
      && (w'.calls[d] == ReturnedCtxErr <==> l == DrainCtx(d))
      && (w'.calls[d] == Blocked || w'.calls[d] == Looping || w'.calls[d] == ReturnedCtxErr)
      && (l.DrainWake? ==> w.token && !w'.token)
      && (w'.token && !w.token <==> l.CancelSend? && !w.token)
  {
  }

  /** Once draining, a subscription that is not cancelled keeps the list from being empty, whatever else happens. */
  lemma {:induction false} SubscriberHolds(w: World, s: SubId, run: seq<Label>)
    requires Inv(w) && s in w.core.subs
    requires Exec(Step, w, run).Some? && CancelLock(s) !in run
    ensures s in Exec(Step, w, run).value.core.subs && Inv(Exec(Step, w, run).value)
  {
    if run != [] {
      var v := run[..|run| - 1];
      SubscriberHolds(w, s, v);
      var m := Exec(Step, w, v).value;
      assert run[|run| - 1] != CancelLock(s);
      InvStep(m, Last(run));
      if Last(run).CancelLock? {
        DeleteFirstIn(m.core.subs, Last(run).s);
      } else if Last(run).DrainEnter? && !m.core.draining {
        OfferAllKeeps(m.core.(draining := true), m.core.subs);
      }
    }
  }
}
