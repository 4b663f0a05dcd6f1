/** One supervised child: the process runner (process.go) driven by the restart policies (restart.go).
    Every blocking point and every call into the system is one step, and Env says what that step observes. */
module Restart {
  import opened Common

  // The numbering of the source: Initialized is 0, Starting is 8.
  datatype SState =
    | Initialized | Preparing | Waiting | Running | Stopping
    | Finished | Failed | Skipped | Starting

  function StateNumber(s: SState): nat
  {
    match s
    case Initialized => 0 case Preparing => 1 case Waiting => 2 case Running => 3 case Stopping => 4
    case Finished => 5 case Failed => 6 case Skipped => 7 case Starting => 8
  }

  /** The terminal states, in which a service is down. */
  predicate Down(s: SState) {
    s.Failed? || s.Finished? || s.Skipped?
  }

  datatype Policy = Forever | Once | UntilSuccess

  datatype Outcome = Success | Failure

  /** What the runner does, in order. Rec is a state handed to the event sink, NoStart a failed cmd.Start
      (or a failed build), Reap the receipt of cmd.Wait's result. */
  datatype Act =
    | Rec(state: SState)
    | Start
    | NoStart
    | Term(delivered: bool)
    | Timeout
    | Kill(delivered: bool)
    | Reap(outcome: Outcome)

  datatype Pc =
    | Try                       // about to build and start the command
    | Started                   // started, Running not yet reported
    | Wait1                     // select on the exit and on ctx.Done
    | TermRec | TermSig | TermFailed
    | Wait2                     // select on the exit and on the grace period
    | KillRec | KillSig | KillFailed
    | Wait3                     // waiting for the exit only
    | After(res: Outcome)       // process.Run returned res, the policy decides
    | Sleep                     // select on ctx.Done and on the restart interval
    | Abort
    | Done(result: Outcome)     // restarter.Run returned

  /** What one step can observe. When both arms of a select are ready, pick chooses the first. */
  datatype Env = Env(ctxDone: bool, startOk: bool, exited: Option<Outcome>, timer: bool, sigOk: bool, pick: bool)

  datatype Runner = Runner(policy: Policy, pc: Pc, trace: seq<Act>)

  function Init(policy: Policy): Runner {
    Runner(policy, Try, [])
  }

  /** One step: where it leads and what it does. A blocked select leads nowhere. */
  function Move(policy: Policy, pc: Pc, e: Env): (Pc, Option<Act>)
  {
    match pc
    case Try => if e.startOk then (Started, Some(Start)) else (After(Failure), Some(NoStart))
    case Started => (Wait1, Some(Rec(Running)))
    case Wait1 =>
      if e.exited.Some? && (!e.ctxDone || e.pick) then (After(e.exited.value), Some(Reap(e.exited.value)))
      else if e.ctxDone then (TermRec, None)
      else (Wait1, None)
    case TermRec => (TermSig, Some(Rec(Stopping)))
    case TermSig => (if e.sigOk then Wait2 else TermFailed, Some(Term(e.sigOk)))
    case TermFailed => (Wait2, Some(Rec(Stopping)))
    case Wait2 =>
      if e.exited.Some? && (!e.timer || e.pick) then (After(e.exited.value), Some(Reap(e.exited.value)))
      else if e.timer then (KillRec, Some(Timeout))
      else (Wait2, None)
    case KillRec => (KillSig, Some(Rec(Stopping)))
    case KillSig => (if e.sigOk then Wait3 else KillFailed, Some(Kill(e.sigOk)))
    case KillFailed => (Wait3, Some(Rec(Stopping)))
    case Wait3 =>
      if e.exited.Some? then (After(e.exited.value), Some(Reap(e.exited.value))) else (Wait3, None)
    case After(o) =>
      if e.ctxDone || policy.Once? || (policy.UntilSuccess? && o.Success?) then (Done(o), None)
      else (Sleep, Some(Rec(Waiting)))
    case Sleep =>
      if e.ctxDone && (!e.timer || e.pick) then (Abort, None)
      else if e.timer then (Try, None)
      else (Sleep, None)
    case Abort => (Done(Success), Some(Rec(Stopping)))
    case Done(_) => (pc, None)
  }

  function Next(r: Runner, e: Env): Runner
  {
    var (pc, act) := Move(r.policy, r.pc, e);
    Runner(r.policy, pc, if act.Some? then r.trace + [act.value] else r.trace)
  }

  /** The runner after the observations es. */
  function Drive(r: Runner, es: seq<Env>): Runner
  {
    if es == [] then r else Next(Drive(r, es[..|es| - 1]), Last(es))
  }

  // ---------------------------------------------------------------------------------------------
  // At most one child, and the order of signals

  function Starts(t: seq<Act>): nat
  {
    if t == [] then 0 else Starts(t[..|t| - 1]) + (if Last(t).Start? then 1 else 0)
  }

  function Reaps(t: seq<Act>): nat
  {
    if t == [] then 0 else Reaps(t[..|t| - 1]) + (if Last(t).Reap? then 1 else 0)
  }

  /** The life of a child as its acts drive it; Bad is reached by an act out of order. */
  datatype Child = NoChild | Alive | Termed | Expired | Killed | Bad

  function ChildNext(c: Child, a: Act): Child
  {
    match a
    case Rec(_) => c
    case Start => if c == NoChild then Alive else Bad
    case NoStart => if c == NoChild then NoChild else Bad
    case Term(_) => if c == Alive then Termed else Bad
    case Timeout => if c == Termed then Expired else Bad
    case Kill(_) => if c == Expired then Killed else Bad
    case Reap(_) => if c == Alive || c == Termed || c == Killed then NoChild else Bad
  }

  function ChildOf(t: seq<Act>): Child
  {
    if t == [] then NoChild else ChildNext(ChildOf(t[..|t| - 1]), Last(t))
  }

  function PcChild(pc: Pc): Child
  {
    match pc
    case Try | After(_) | Sleep | Abort | Done(_) => NoChild
    case Started | Wait1 | TermRec | TermSig => Alive
    case TermFailed | Wait2 => Termed
    case KillRec | KillSig => Expired
    case KillFailed | Wait3 => Killed
  }

  lemma Snoc(t: seq<Act>, a: Act)
    ensures ChildOf(t + [a]) == ChildNext(ChildOf(t), a)
    ensures Starts(t + [a]) == Starts(t) + (if a.Start? then 1 else 0)
    ensures Reaps(t + [a]) == Reaps(t) + (if a.Reap? then 1 else 0)
    ensures Results(t + [a]) == Results(t) + ResultOf(a)
  {
    assert (t + [a])[..|t + [a]| - 1] == t;
  }

  lemma MoveChild(policy: Policy, pc: Pc, e: Env)
    ensures var (pc', act) := Move(policy, pc, e);
      PcChild(pc') == if act.Some? then ChildNext(PcChild(pc), act.value) else PcChild(pc)
  {
  }

  lemma {:induction false} ChildFollowsStep(r: Runner, e: Env)
    requires ChildOf(r.trace) == PcChild(r.pc)
    ensures ChildOf(Next(r, e).trace) == PcChild(Next(r, e).pc)
  {
    var (_, act) := Move(r.policy, r.pc, e);
    MoveChild(r.policy, r.pc, e);
    if act.Some? {
      Snoc(r.trace, act.value);
    }
  }

  /** The pc always tells where the current child is. */
  lemma {:induction false} ChildFollowsPc(policy: Policy, es: seq<Env>)
    ensures ChildOf(Drive(Init(policy), es).trace) == PcChild(Drive(Init(policy), es).pc)
  {
    if es != [] {
      ChildFollowsPc(policy, es[..|es| - 1]);
      ChildFollowsStep(Drive(Init(policy), es[..|es| - 1]), Last(es));
    }
  }

  lemma {:induction false} GoodPrefix(t: seq<Act>, i: nat)
    requires i <= |t| && ChildOf(t) != Bad
    ensures ChildOf(t[..i]) != Bad
    decreases |t|
  {
    if i < |t| {
      GoodPrefix(t[..|t| - 1], i);
      assert t[..|t| - 1][..i] == t[..i];
    } else {
      assert t[..i] == t;
    }
  }

  lemma {:induction false} GoodCounts(t: seq<Act>)
    requires ChildOf(t) != Bad
    ensures Starts(t) == Reaps(t) + (if ChildOf(t) == NoChild then 0 else 1)
  {
    if t != [] {
      GoodCounts(t[..|t| - 1]);
    }
  }

  /** Act i is a SIGTERM for the child that is alive after t. */
  ghost predicate TermAt(t: seq<Act>, i: nat)
  {
    i < |t| && t[i].Term? && forall k :: i < k < |t| ==> !t[k].Start? && !t[k].Reap?
  }

  /** Act i is the end of the grace period of the child that is alive after t. */
  ghost predicate TimeoutAt(t: seq<Act>, i: nat)
  {
    i < |t| && t[i].Timeout? && forall k :: i < k < |t| ==> !t[k].Start? && !t[k].Reap?
  }

  lemma {:induction false} ChildHistory(t: seq<Act>)
    requires ChildOf(t) != Bad
    ensures ChildOf(t).Termed? ==> exists i :: TermAt(t, i)
    ensures ChildOf(t).Expired? || ChildOf(t).Killed? ==> exists i, j :: i < j && TermAt(t, i) && TimeoutAt(t, j)
  {
    if t != [] {
      var p := t[..|t| - 1];
      ChildHistory(p);
      if Last(t).Term? {
        assert TermAt(t, |t| - 1);
      } else if ChildOf(t) == Termed {
        var i :| TermAt(p, i);
        assert TermAt(t, i);
      } else if ChildOf(t).Expired? || ChildOf(t).Killed? {
        if Last(t).Timeout? {
          var i :| TermAt(p, i);
          assert TermAt(t, i) && TimeoutAt(t, |t| - 1);
        } else {
          var i, j :| i < j && TermAt(p, i) && TimeoutAt(p, j);
          assert TermAt(t, i) && TimeoutAt(t, j);
        }
      }
    }
  }

  /** Over any observations: at most one child at any time, a start only when every earlier child was reaped,
      SIGKILL only after SIGTERM to the same child and the end of its grace period. */
  lemma OneChild(policy: Policy, es: seq<Env>, i: nat)
    requires i <= |Drive(Init(policy), es).trace|
    ensures var t := Drive(Init(policy), es).trace;
      && Reaps(t[..i]) <= Starts(t[..i]) <= Reaps(t[..i]) + 1
      && (i < |t| && t[i].Start? ==> Starts(t[..i]) == Reaps(t[..i]))
      && (i < |t| && t[i].Kill? ==> exists j, k :: j < k && TermAt(t[..i], j) && TimeoutAt(t[..i], k))
  {
    var t := Drive(Init(policy), es).trace;
    ChildFollowsPc(policy, es);
    GoodPrefix(t, i);
    GoodCounts(t[..i]);
    if i < |t| {
      GoodPrefix(t, i + 1);
      TakeMore(t, i);
      NextActFits(t[..i], t[i]);
    }
  }

  lemma NextActFits(t: seq<Act>, a: Act)
    requires ChildOf(t + [a]) != Bad
    ensures a.Start? ==> ChildOf(t).NoChild?
    ensures a.Kill? ==> exists j, k :: j < k && TermAt(t, j) && TimeoutAt(t, k)
  {
    Snoc(t, a);
    if a.Kill? {
      ChildHistory(t);
    }
  }

  // ---------------------------------------------------------------------------------------------
  // The restart policies

  function ResultOf(a: Act): seq<Outcome>
  {
    match a
    case NoStart => [Failure]
    case Reap(o) => [o]
    case _ => []
  }

  /** How the runs of the wrapped runner ended, in order. */
  function Results(t: seq<Act>): seq<Outcome>
  {
    if t == [] then [] else Results(t[..|t| - 1]) + ResultOf(Last(t))
  }

  predicate AllFailed(os: seq<Outcome>)
  {
    forall i :: 0 <= i < |os| ==> os[i].Failure?
  }

  predicate InRun(pc: Pc)
  {
    !pc.After? && !pc.Sleep? && !pc.Abort? && !pc.Done?
  }

  /** What each policy has seen so far, os being the results of the runs. */
  predicate PolicyOk(policy: Policy, pc: Pc, os: seq<Outcome>)
  {
    && (!InRun(pc) ==> os != [])
    && (pc.After? ==> pc.res == os[|os| - 1])
    && match policy
       case Forever => true
       case Once =>
         if InRun(pc) then os == []
         else |os| == 1 && !pc.Sleep? && !pc.Abort? && (pc.Done? ==> pc.result == os[0])
       case UntilSuccess =>
         if pc.After? || pc.Done? then AllFailed(os[..|os| - 1]) else AllFailed(os)
  }

  lemma PolicyStep(policy: Policy, pc: Pc, os: seq<Outcome>, e: Env)
    requires PolicyOk(policy, pc, os)
    ensures var (pc', act) := Move(policy, pc, e);
      PolicyOk(policy, pc', os + if act.Some? then ResultOf(act.value) else [])
  {
    var (pc', act) := Move(policy, pc, e);
    var os' := os + if act.Some? then ResultOf(act.value) else [];
    if act.Some? && ResultOf(act.value) != [] {
      assert os' == os + [Last(os')] && os'[..|os'| - 1] == os;
    } else {
      assert os' == os;
      if os != [] && Last(os).Failure? {
        assert os == os[..|os| - 1] + [Last(os)];
      }
    }
  }

  lemma {:induction false} PolicyHolds(policy: Policy, es: seq<Env>)
    ensures var r := Drive(Init(policy), es);
      r.policy == policy && PolicyOk(policy, r.pc, Results(r.trace))
  {
    if es != [] {
      PolicyHolds(policy, es[..|es| - 1]);
      var r := Drive(Init(policy), es[..|es| - 1]);
      PolicyStep(policy, r.pc, Results(r.trace), Last(es));
      var (_, act) := Move(policy, r.pc, Last(es));
      if act.Some? {
        Snoc(r.trace, act.value);
      } else {
        assert Results(r.trace) + [] == Results(r.trace);
      }
    }
  }

  /** What a runner has recorded last. */
  predicate LastAct(pc: Pc, t: seq<Act>)
  {
    match pc
    case Try => t == [] || Last(t) == Rec(Waiting)
    case Started => t != [] && Last(t) == Start
    case Wait1 | TermRec => t != [] && Last(t) == Rec(Running)
    case TermSig | KillSig => t != [] && Last(t) == Rec(Stopping)
    case TermFailed => t != [] && Last(t) == Term(false)
    case Wait2 => t != [] && (Last(t) == Term(true) || Last(t) == Rec(Stopping))
    case KillRec => t != [] && Last(t) == Timeout
    case KillFailed => t != [] && Last(t) == Kill(false)
    case Wait3 => t != [] && (Last(t) == Kill(true) || Last(t) == Rec(Stopping))
    case After(o) => t != [] && (Last(t) == Reap(o) || (Last(t) == NoStart && o.Failure?))
    case Sleep | Abort => t != [] && Last(t) == Rec(Waiting)
    case Done(o) =>
      && t != []
      && (Last(t) == Reap(o) || (Last(t) == NoStart && o.Failure?)
          || (o.Success? && |t| > 1 && t[|t| - 2..] == [Rec(Waiting), Rec(Stopping)]))
  }

  /** Which act may come directly after which: every start is reported as Running, every end but the last as Waiting, every
      signal is announced as Stopping, and one that failed is reported as Stopping once more. */
  predicate Follows(a: Act, b: Act)
  {
    match a
    case Start => b == Rec(Running)
    case NoStart => b == Rec(Waiting)
    case Reap(_) => b == Rec(Waiting)
    case Term(delivered) => if delivered then b.Reap? || b.Timeout? else b == Rec(Stopping)
    case Timeout => b == Rec(Stopping)
    case Kill(delivered) => if delivered then b.Reap? else b == Rec(Stopping)
    case Rec(s) =>
      && (s.Running? ==> b.Reap? || b == Rec(Stopping))
      && (s.Waiting? ==> b.Start? || b.NoStart? || b == Rec(Stopping))
      && (s.Stopping? ==> b.Term? || b.Kill? || b.Reap? || b.Timeout?)
  }

  lemma FollowsLast(r: Runner, e: Env)
    requires LastAct(r.pc, r.trace)
    ensures var act := Move(r.policy, r.pc, e).1;
      act.Some? ==> if r.trace == [] then act.value.Start? || act.value.NoStart? else Follows(Last(r.trace), act.value)
  {
  }

  /** Over any observations, the acts come in this order, from an attempt to start on. */
  lemma {:induction false} ActsInOrder(policy: Policy, es: seq<Env>)
    ensures var t := Drive(Init(policy), es).trace;
      && (t != [] ==> t[0].Start? || t[0].NoStart?)
      && forall i :: 0 < i < |t| ==> Follows(t[i - 1], t[i])
  {
    if es != [] {
      ActsInOrder(policy, es[..|es| - 1]);
      ReturnValue(policy, es[..|es| - 1]);
      FollowsLast(Drive(Init(policy), es[..|es| - 1]), Last(es));
    }
  }

  lemma LastActStep(r: Runner, e: Env)
    requires LastAct(r.pc, r.trace)
    ensures LastAct(Next(r, e).pc, Next(r, e).trace)
  {
    if r.pc.Abort? {
      assert r.trace[|r.trace| - 1..] == [Rec(Waiting)];
    }
  }

  /** A runner returns the result of its last run, unless it was cancelled in the restart interval: then success, whatever
      that run had come to. */
  lemma {:induction false} ReturnValue(policy: Policy, es: seq<Env>)
    ensures var r := Drive(Init(policy), es);
      && LastAct(r.pc, r.trace)
      && (r.pc.Done? ==>
            && r.trace != []
            && if Last(r.trace) == Rec(Stopping) then r.pc.result.Success? && |r.trace| > 1 && r.trace[|r.trace| - 2] == Rec(Waiting)
               else Last(r.trace) == Reap(r.pc.result) || (Last(r.trace) == NoStart && r.pc.result.Failure?))
  {
    if es != [] {
      ReturnValue(policy, es[..|es| - 1]);
      LastActStep(Drive(Init(policy), es[..|es| - 1]), Last(es));
    }
  }

  /** Only a cancelled runner gets here. */
  predicate Interrupting(pc: Pc) {
    pc.TermRec? || pc.TermSig? || pc.TermFailed? || pc.Wait2? || pc.KillRec? || pc.KillSig? || pc.KillFailed? || pc.Wait3?
    || pc.Abort?
  }

  predicate IsSignal(a: Act) {
    a.Term? || a.Kill?
  }

  predicate NoSignals(t: seq<Act>) {
    forall i :: 0 <= i < |t| ==> !IsSignal(t[i])
  }

  lemma LiveMove(policy: Policy, pc: Pc, e: Env)
    requires !e.ctxDone && !Interrupting(pc)
    ensures var (pc', act) := Move(policy, pc, e);
      && !Interrupting(pc')
      && (act.Some? ==> !IsSignal(act.value))
      && (pc'.Done? ==> act.None?)
      && (pc'.Done? && !pc.Done? ==>
            pc.After? && pc'.result == pc.res && !policy.Forever? && (policy.UntilSuccess? ==> pc.res.Success?))
      && (pc.Done? ==> pc' == pc)
  {
  }

  /** As long as ctx is live, no signal is sent, and a runner that returned did so by its policy. */
  lemma {:induction false} LiveReturn(policy: Policy, es: seq<Env>)
    requires forall i :: 0 <= i < |es| ==> !es[i].ctxDone
    ensures var r := Drive(Init(policy), es);
      && !Interrupting(r.pc) && NoSignals(r.trace)
      && (r.pc.Done? ==> !policy.Forever? && Results(r.trace) != [] && r.pc.result == Last(Results(r.trace)))
      && (r.pc.Done? && policy.UntilSuccess? ==> r.pc.result.Success?)
  {
    if es != [] {
      LiveReturn(policy, es[..|es| - 1]);
      PolicyHolds(policy, es[..|es| - 1]);
      LiveMove(policy, Drive(Init(policy), es[..|es| - 1]).pc, Last(es));
    }
  }

  // ---------------------------------------------------------------------------------------------
  // What the acts say of the world

  /** The observation at which the act is recorded is one that calls for it. */
  predicate CalledFor(a: Act, e: Env)
  {
    match a
    case Start => e.startOk
    case NoStart => !e.startOk
    case Term(delivered) => delivered == e.sigOk
    case Timeout => e.timer && (e.exited.None? || !e.pick)
    case Kill(delivered) => delivered == e.sigOk
    case Reap(o) => e.exited == Some(o)
    case Rec(s) => s.Waiting? ==> !e.ctxDone
  }

  predicate CancelledBefore(es: seq<Env>, n: nat) {
    exists i :: 0 <= i < n && i < |es| && es[i].ctxDone
  }

  predicate TimerBetween(es: seq<Env>, m: nat, n: nat) {
    exists i :: m < i < n && i < |es| && es[i].timer
  }

  /** Act i was recorded at observation at[i]: one that calls for it; a signal or a Stopping only after a cancellation, and a
      restart only after the timer of the interval. */
  ghost predicate Observed(t: seq<Act>, es: seq<Env>, at: seq<nat>)
  {
    && |at| == |t|
    && (forall i :: 0 <= i < |t| ==> at[i] < |es| && CalledFor(t[i], es[at[i]]))
    && (forall i, j :: 0 <= i < j < |t| ==> at[i] < at[j])
    && (forall i :: 0 <= i < |t| && (IsSignal(t[i]) || t[i] == Rec(Stopping)) ==> CancelledBefore(es, at[i]))
    && (forall i :: 0 < i < |t| && (t[i].Start? || t[i].NoStart?) ==> TimerBetween(es, at[i - 1], at[i]))
  }

  /** What the pc says of the observations since the last act. */
  ghost predicate Awaited(r: Runner, es: seq<Env>, at: seq<nat>)
  {
    && (Interrupting(r.pc) ==> CancelledBefore(es, |es|))
    && (r.pc.Try? && at != [] ==> TimerBetween(es, Last(at), |es|))
  }

  lemma ObservedMore(t: seq<Act>, es: seq<Env>, at: seq<nat>, e: Env)
    requires Observed(t, es, at)
    ensures Observed(t, es + [e], at)
    ensures CancelledBefore(es, |es|) || e.ctxDone ==> CancelledBefore(es + [e], |es| + 1)
    ensures at != [] && (TimerBetween(es, Last(at), |es|) || e.timer) ==> TimerBetween(es + [e], Last(at), |es| + 1)
  {
    var es' := es + [e];
    assert es'[|es|] == e;
    forall n: nat | n <= |es| && CancelledBefore(es, n) ensures CancelledBefore(es', n) && CancelledBefore(es', |es'|) {
      var i :| 0 <= i < n && i < |es| && es[i].ctxDone;
      assert es'[i].ctxDone;
    }
    forall m: nat, n: nat | n <= |es| && TimerBetween(es, m, n) ensures TimerBetween(es', m, n) && TimerBetween(es', m, |es'|) {
      var i :| m < i < n && i < |es| && es[i].timer;
      assert es'[i].timer;
    }
  }

  lemma ObservedAct(t: seq<Act>, es: seq<Env>, at: seq<nat>, a: Act, e: Env)
    requires Observed(t, es, at) && CalledFor(a, e)
    requires IsSignal(a) || a == Rec(Stopping) ==> CancelledBefore(es, |es|)
    requires (a.Start? || a.NoStart?) && at != [] ==> TimerBetween(es, Last(at), |es|)
    ensures Observed(t + [a], es + [e], at + [|es|])
  {
    ObservedMore(t, es, at, e);
    var es', at' := es + [e], at + [|es|];
    assert es'[|es|] == e;
    if IsSignal(a) || a == Rec(Stopping) {
      var i :| 0 <= i < |es| && es[i].ctxDone;
      assert es'[i].ctxDone && CancelledBefore(es', |es|);
    }
    if (a.Start? || a.NoStart?) && at != [] {
      var i :| Last(at) < i < |es| && es[i].timer;
      assert es'[i].timer && TimerBetween(es', Last(at), |es|);
    }
  }

  /** What a move does, as far as its act and the waiting for the next one are concerned. */
  lemma MoveIsCalledFor(policy: Policy, pc: Pc, e: Env)
    ensures var (pc', act) := Move(policy, pc, e);
      && (act.Some? ==> CalledFor(act.value, e))
      && (act.Some? && (IsSignal(act.value) || act.value == Rec(Stopping)) ==> Interrupting(pc))
      && (act.Some? && (act.value.Start? || act.value.NoStart?) ==> pc.Try?)
      && (Interrupting(pc') ==> Interrupting(pc) || e.ctxDone)
      && (pc'.Try? ==> act.None? && pc.Sleep? && e.timer)
  {
  }

  lemma ObservedStep(r: Runner, es: seq<Env>, at: seq<nat>, e: Env) returns (at': seq<nat>)
    requires Observed(r.trace, es, at) && Awaited(r, es, at)
    ensures Observed(Next(r, e).trace, es + [e], at') && Awaited(Next(r, e), es + [e], at')
  {
    var (_, act) := Move(r.policy, r.pc, e);
    MoveIsCalledFor(r.policy, r.pc, e);
    ObservedMore(r.trace, es, at, e);
    if act.Some? {
      ObservedAct(r.trace, es, at, act.value, e);
      at' := at + [|es|];
    } else {
      at' := at;
    }
    if Next(r, e).pc.Try? && at' != [] {
      assert (es + [e])[|es|].timer;
    }
  }

  /** Over any observations, every act was called for: nothing is reaped but an exit that was seen, nothing is killed before
      the timer of the grace period, nothing is signalled without a cancellation, nothing is restarted early. */
  lemma {:induction false} ActsAreCalledFor(policy: Policy, es: seq<Env>) returns (at: seq<nat>)
    ensures Observed(Drive(Init(policy), es).trace, es, at) && Awaited(Drive(Init(policy), es), es, at)
  {
    if es == [] {
      at := [];
    } else {
      var v := es[..|es| - 1];
      at := ActsAreCalledFor(policy, v);
      at := ObservedStep(Drive(Init(policy), v), v, at, Last(es));
      assert es == v + [Last(es)];
    }
  }

  // ---------------------------------------------------------------------------------------------
  // After a cancellation

  /** How many effective steps a cancelled runner can still make. */
  function Rank(pc: Pc): nat
  {
    match pc
    case Sleep => 16 case Try => 15 case Started => 14 case Wait1 => 13
    case TermRec => 12 case TermSig => 11 case TermFailed => 10 case Wait2 => 9
    case KillRec => 8 case KillSig => 7 case KillFailed => 6 case Wait3 => 5
    case After(_) => 4 case Abort => 1 case Done(_) => 0
  }

  lemma CancelledStep(policy: Policy, pc: Pc, e: Env)
    requires e.ctxDone
    ensures var (pc', act) := Move(policy, pc, e);
      && Rank(pc') <= Rank(pc)
      && (Rank(pc') == Rank(pc) ==> act.None? && (pc.Done? || (e.exited.None? && (pc.Wait2? || pc.Wait3?))))
      && (act == Some(Start) ==> Rank(pc') < 15 <= Rank(pc))
  {
  }

  /** Once cancelled, a runner starts at most one more child, and it returns within 16 steps of which none
      is blocked on a child that does not exit. */
  lemma {:induction false} CancelledRunnerStops(r: Runner, es: seq<Env>)
    requires forall i :: 0 <= i < |es| ==> es[i].ctxDone
    ensures var r' := Drive(r, es);
      && r'.policy == r.policy
      && Rank(r'.pc) <= Rank(r.pc)
      && Starts(r'.trace) + (if Rank(r'.pc) >= 15 then 1 else 0)
         <= Starts(r.trace) + (if Rank(r.pc) >= 15 then 1 else 0)
      && ((forall i :: 0 <= i < |es| ==> es[i].exited.Some?) ==>
           r'.pc.Done? || Rank(r'.pc) + |es| <= Rank(r.pc))
  {
    if es != [] {
      var m := Drive(r, es[..|es| - 1]);
      CancelledRunnerStops(r, es[..|es| - 1]);
      CancelledStep(m.policy, m.pc, Last(es));
      var (_, act) := Move(m.policy, m.pc, Last(es));
      if act.Some? {
        Snoc(m.trace, act.value);
      }
    }
  }

  // ---------------------------------------------------------------------------------------------
  // The loops themselves

  /** restarter.Run around processRunner.Run. The world answers from script; a method that runs out of
      answers is still blocked and returns None. */
  class Restarter {
    const policy: Policy
    const script: seq<Env>
    var at: nat
    var trace: seq<Act>

    constructor (policy: Policy, script: seq<Env>)
      ensures this.policy == policy && this.script == script && at == 0 && trace == []
    {
      this.policy, this.script := policy, script;
      at, trace := 0, [];
    }

    ghost function Spec(): Runner
      reads this
      requires at <= |script|
    {
      Drive(Init(policy), script[..at])
    }

    method Observe() returns (e: Option<Env>)
      requires at <= |script|
      modifies this`at
      ensures at <= |script|
      ensures e.None? ==> at == old(at) == |script|
      ensures e.Some? ==> at == old(at) + 1 && e.value == script[old(at)] && Spec() == Next(old(Spec()), e.value)
    {
      if at == |script| {
        return None;
      }
      assert script[..at + 1][..at] == script[..at];
      e := Some(script[at]);
      at := at + 1;
    }

    /** eventSink: hands one state to the service runner. */
    method Report(state: SState, ghost to: Pc) returns (ok: bool)
      requires at <= |script| && Spec().policy == policy && Spec().trace == trace
      requires forall e :: Move(policy, Spec().pc, e) == (to, Some(Rec(state)))
      modifies this`at, this`trace
      ensures old(at) <= at <= |script|
      ensures ok ==> Spec() == Runner(policy, to, trace)
      ensures !ok ==> at == |script| && Spec().trace == trace
    {
      var e := Observe();
      if e.None? { return false; }
      trace := trace + [Rec(state)];
      ok := true;
    }

    method ProcessRun() returns (res: Option<Outcome>)
      requires at <= |script| && Spec() == Runner(policy, Try, trace)
      modifies this`at, this`trace
      ensures old(at) <= at <= |script|
      ensures res.Some? ==> Spec() == Runner(policy, After(res.value), trace)
      ensures res.None? ==> at == |script| && Spec().trace == trace
    {
      var e := Observe();
      if e.None? { return None; }
      if !e.value.startOk {
        trace := trace + [NoStart];
        return Some(Failure);
      }
      trace := trace + [Start];
      var ok := Report(Running, Wait1);
      if !ok { return None; }

      var cancelled := false;
      while !cancelled
        invariant old(at) <= at <= |script|
        invariant Spec() == Runner(policy, if cancelled then TermRec else Wait1, trace)
        decreases |script| - at, !cancelled
      {
        e := Observe();
        if e.None? { return None; }
        if e.value.exited.Some? && (!e.value.ctxDone || e.value.pick) {
          trace := trace + [Reap(e.value.exited.value)];
          return e.value.exited;
        }
        cancelled := e.value.ctxDone;
      }

      res := Terminate();
    }

    /** After ctx.Done: SIGTERM, then the exit or the end of the grace period. */
    method Terminate() returns (res: Option<Outcome>)
      requires at <= |script| && Spec() == Runner(policy, TermRec, trace)
      modifies this`at, this`trace
      ensures old(at) <= at <= |script|
      ensures res.Some? ==> Spec() == Runner(policy, After(res.value), trace)
      ensures res.None? ==> at == |script| && Spec().trace == trace
    {
      var ok := Report(Stopping, TermSig);
      if !ok { return None; }
      var e := Observe();
      if e.None? { return None; }
      trace := trace + [Term(e.value.sigOk)];
      if !e.value.sigOk {
        ok := Report(Stopping, Wait2);
        if !ok { return None; }
      }

      var expired := false;
      while !expired
        invariant old(at) <= at <= |script|
        invariant Spec() == Runner(policy, if expired then KillRec else Wait2, trace)
        decreases |script| - at, !expired
      {
        e := Observe();
        if e.None? { return None; }
        if e.value.exited.Some? && (!e.value.timer || e.value.pick) {
          trace := trace + [Reap(e.value.exited.value)];
          return e.value.exited;
        }
        if e.value.timer {
          trace := trace + [Timeout];
          expired := true;
        }
      }
      res := Escalate();
    }

    /** Still running after the grace period: SIGKILL, then the exit. */
    method Escalate() returns (res: Option<Outcome>)
      requires at <= |script| && Spec() == Runner(policy, KillRec, trace)
      modifies this`at, this`trace
      ensures old(at) <= at <= |script|
      ensures res.Some? ==> Spec() == Runner(policy, After(res.value), trace)
      ensures res.None? ==> at == |script| && Spec().trace == trace
    {
      var ok := Report(Stopping, KillSig);
      if !ok { return None; }
      var e := Observe();
      if e.None? { return None; }
      trace := trace + [Kill(e.value.sigOk)];
      if !e.value.sigOk {
        ok := Report(Stopping, Wait3);
        if !ok { return None; }
      }
      res := None;
      while res.None?
        invariant old(at) <= at <= |script|
        invariant Spec() == Runner(policy, if res.Some? then After(res.value) else Wait3, trace)
        decreases |script| - at, res.None?
      {
        e := Observe();
        if e.None? { return None; }
        if e.value.exited.Some? {
          trace := trace + [Reap(e.value.exited.value)];
          res := e.value.exited;
        }
      }
    }

    method Run() returns (res: Option<Outcome>)
      requires at == 0 && trace == []
      modifies this`at, this`trace
      ensures old(at) <= at <= |script|
      ensures res.Some? ==> Spec() == Runner(policy, Done(res.value), trace)
      ensures res.None? ==> at == |script| && Spec().trace == trace
    {
      while true
        invariant old(at) <= at <= |script|
        invariant Spec() == Runner(policy, Try, trace)
        decreases |script| - at
      {
        res := ProcessRun();
        if res.None? { return None; }
        var e := Observe();
        if e.None? { return None; }
        if e.value.ctxDone { return res; }
        match policy {
          case Once => return res;
          case UntilSuccess =>
            if res.value.Success? { return res; }
            trace := trace + [Rec(Waiting)];
          case Forever =>
            trace := trace + [Rec(Waiting)];
        }

        var due;
        due, res := Pause();
        if !due { return; }
      }
    }

    /** The select on ctx.Done and on the restart interval: not due means that Run returns res. */
    method Pause() returns (due: bool, res: Option<Outcome>)
      requires at <= |script| && Spec() == Runner(policy, Sleep, trace)
      modifies this`at, this`trace
      ensures old(at) <= at <= |script|
      ensures due ==> Spec() == Runner(policy, Try, trace)
      ensures !due && res.Some? ==> Spec() == Runner(policy, Done(res.value), trace)
      ensures !due && res.None? ==> at == |script| && Spec().trace == trace
    {
      due, res := false, None;
      while !due
        invariant old(at) <= at <= |script|
        invariant Spec() == Runner(policy, if due then Try else Sleep, trace)
        decreases |script| - at, !due
      {
        var e := Observe();
        if e.None? { return false, None; }
        if e.value.ctxDone && (!e.value.timer || e.value.pick) {
          var ok := Report(Stopping, Done(Success));
          return false, if ok then Some(Success) else None;
        }
        due := e.value.timer;
      }
    }
  }
}
