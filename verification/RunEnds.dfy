/** Which runs of a service can be brought to their end: a cancelled one always, and a live one unless it is endless. Such a
    run has at any time an enabled step that brings it closer, provided that its child exits and its callbacks return. */
module RunEnds {
  import opened Common
  import opened Restart
  import opened ServiceRun

  /** The next step of the run when it is cancelled, its stages give up and its child exits. */
  function NextLabel(r: Run): RunLabel
  {
    if !r.ctxDone then Cancel
    else if r.main.AwaitErr? && !r.runner.pc.Done? then
      if r.exited.None? && Waits(r.runner.pc) then ChildExit(Success)
      else Child(Env(true, true, r.exited, true, true, true))
    else Main(No)
  }

  predicate Waits(pc: Pc) {
    pc.Wait1? || pc.Wait2? || pc.Wait3?
  }

  function MainRank(m: MainPc): nat
  {
    match m
    case Begin => 18 case Notify => 17 case Cond => 16 case CondWait => 15 case Prepare => 14 case PreFunc => 13
    case Create => 12 case MakeRunner => 11 case OpenRunner => 10 case Select => 9 case AwaitErr => 8 case Unwind(_) => 7
    case PostFunc(_) => 6 case PostTell(_) => 5 case Returned(_) => 4 case Deleting(_) => 3 case Store(_) => 2
    case Tell => 1 case Exited => 0
  }

  /** How far the run is from its end. */
  function Left(r: Run): nat
  {
    100 * MainRank(r.main) + 2 * Rank(r.runner.pc) + (if r.exited.None? then 1 else 0) + (if r.ctxDone then 0 else 1)
  }

  lemma RankBound(pc: Pc)
    ensures Rank(pc) <= 16
  {
  }

  lemma MainCloser(r: Run, cur: SState)
    requires RunInv(r) && r.ctxDone && !r.main.Exited? && (r.main.AwaitErr? ==> r.runner.pc.Done?)
    ensures RunStep(r, Main(No), cur).Some?
    ensures var r' := RunStep(r, Main(No), cur).value;
      MainRank(r'.main) < MainRank(r.main) && r'.runner == r.runner && r'.exited == r.exited && r'.ctxDone
  {
  }

  lemma ChildCloser(r: Run, cur: SState)
    requires RunInv(r) && r.ctxDone && r.main.AwaitErr? && !r.runner.pc.Done?
    ensures RunStep(r, NextLabel(r), cur).Some?
    ensures var r' := RunStep(r, NextLabel(r), cur).value;
      && r'.main == r.main && r'.ctxDone
      && 2 * Rank(r'.runner.pc) + (if r'.exited.None? then 1 else 0) < 2 * Rank(r.runner.pc) + (if r.exited.None? then 1 else 0)
  {
    if !(r.exited.None? && Waits(r.runner.pc)) {
      CancelledStep(r.runner.policy, r.runner.pc, NextLabel(r).env);
    }
  }

  /** A cancelled run stays cancelled. */
  lemma StaysDone(r: Run, cur: SState)
    requires r.ctxDone && RunStep(r, NextLabel(r), cur).Some?
    ensures RunStep(r, NextLabel(r), cur).value.ctxDone && !NextLabel(r).Cancel?
  {
  }

  /** A run that has not ended has an enabled step that brings it closer to its end. Only the exit of the child, the end of
      a condition or of a callback and the cancellation are taken from the outside. */
  lemma NextIsCloser(r: Run, cur: SState)
    requires RunInv(r) && !r.main.Exited?
    ensures RunStep(r, NextLabel(r), cur).Some?
    ensures Left(RunStep(r, NextLabel(r), cur).value) < Left(r)
  {
    RankBound(r.runner.pc);
    if r.ctxDone {
      if r.main.AwaitErr? && !r.runner.pc.Done? {
        ChildCloser(r, cur);
      } else {
        MainCloser(r, cur);
      }
    }
  }

  // ---------------------------------------------------------------------------------------------
  // Live runs

  /** A live run that does not end by itself: under Forever, or waiting for its health goroutines. */
  predicate Endless(r: Run)
  {
    && !r.ctxDone
    && ((r.main.Select? && (r.healthChecked || r.runner.policy.Forever?)) || (r.main.Unwind? && r.healthChecked))
  }

  /** What ctx being live means for the runner. */
  predicate Calm(r: Run)
  {
    !r.ctxDone ==>
      && !Interrupting(r.runner.pc) && !r.main.AwaitErr? && (r.runner.pc.Done? ==> !r.runner.policy.Forever?)
      && (r.runner.policy.Forever? && r.spawned ==> r.main.Select?)
  }

  lemma CalmStep(r: Run, l: RunLabel, cur: SState)
    requires RunInv(r) && Calm(r) && RunStep(r, l, cur).Some?
    ensures Calm(RunStep(r, l, cur).value)
  {
    if l.Child? && !r.ctxDone {
      LiveMove(r.runner.policy, r.runner.pc, l.env);
    }
  }

  /** An endless run stays so until it is cancelled, and records no terminal state. */
  lemma EndlessOn(r: Run, l: RunLabel, cur: SState)
    requires Endless(r) && Calm(r) && RunStep(r, l, cur).Some? && !l.Cancel?
    ensures Endless(RunStep(r, l, cur).value)
    ensures var n := NoteOf(r, l); n.Some? && n.value.State? ==> !Down(n.value.state)
  {
    if l.Child? {
      LiveMove(r.runner.policy, r.runner.pc, l.env);
    }
  }

  /** The next step of a live run whose stages give up, and whose child succeeds. */
  function LiveLabel(r: Run): RunLabel
  {
    if r.main.Select? then
      if r.runner.pc.Done? then Main(Yes)
      else if r.runner.pc.Wait1? && r.exited.None? then ChildExit(Success)
      else Child(Env(false, true, r.exited, true, true, true))
    else Main(No)
  }

  /** How far a live runner is from its end; a child that has failed costs UntilSuccess another one. */
  function LiveRank(pc: Pc, exited: Option<Outcome>): nat
  {
    match pc
    case Done(_) => 0
    case After(o) => if o.Success? then 1 else 7
    case Wait1 => if exited == Some(Success) then 2 else if exited.None? then 3 else 9
    case Started => if exited == Some(Success) then 3 else if exited.None? then 4 else 10
    case Try => 5
    case Sleep => 6
    case _ => 11
  }

  function LiveLeft(r: Run): nat
  {
    100 * MainRank(r.main) + LiveRank(r.runner.pc, r.exited)
  }

  lemma LiveRunnerCloser(r: Run, cur: SState)
    requires RunInv(r) && Calm(r) && !r.ctxDone && !Endless(r) && r.main.Select? && !r.runner.pc.Done?
    ensures RunStep(r, LiveLabel(r), cur).Some?
    ensures var r' := RunStep(r, LiveLabel(r), cur).value;
      && r'.main == r.main && !r'.ctxDone && !Endless(r')
      && LiveRank(r'.runner.pc, r'.exited) < LiveRank(r.runner.pc, r.exited)
  {
  }

  lemma LiveMainCloser(r: Run, cur: SState)
    requires RunInv(r) && Calm(r) && !r.ctxDone && !Endless(r) && (r.main.Select? ==> r.runner.pc.Done?)
    requires MainRank(r.main) > MainRank(Deleting(ROk))
    ensures RunStep(r, LiveLabel(r), cur).Some?
    ensures var r' := RunStep(r, LiveLabel(r), cur).value;
      MainRank(r'.main) < MainRank(r.main) && !Endless(r') && r'.runner == r.runner && r'.exited == r.exited
  {
  }

  /** A live run that is not endless, and has not returned, has an enabled step that brings it closer to its end and keeps it
      from being endless. */
  lemma LiveIsCloser(r: Run, cur: SState)
    requires RunInv(r) && Calm(r) && !r.ctxDone && !Endless(r) && MainRank(r.main) > MainRank(Deleting(ROk))
    ensures RunStep(r, LiveLabel(r), cur).Some? && !LiveLabel(r).Cancel?
    ensures var r' := RunStep(r, LiveLabel(r), cur).value;
      !Endless(r') && LiveLeft(r') < LiveLeft(r)
  {
    if r.main.Select? && !r.runner.pc.Done? {
      LiveRunnerCloser(r, cur);
    } else {
      LiveMainCloser(r, cur);
    }
  }
}
