/** One goroutine of system.go's Start: ServiceRunner.Run with its runner goroutine, its child and its tail. */
module ServiceRun {
  import opened Common
  import opened Restart

  datatype Res = ROk | RSkip | RErr

  datatype MainPc =
    | Begin               // about to record Starting
    | Notify              // about to close the notify channel
    | Cond                // is there a condition to wait for?
    | CondWait
    | Prepare             // about to record the first Preparing
    | PreFunc
    | Create              // about to record the second Preparing
    | MakeRunner
    | OpenRunner
    | Select              // run: select on ctx.Done and on errCh
    | AwaitErr            // run: ctx is done, receiving from errCh
    | Unwind(res: Res)    // run: deferred calls, waiting for the health goroutines
    | PostFunc(res: Res)
    | PostTell(res: Res)  // PostFunc failed and Failed is stored: telling its subscribers
    | Returned(res: Res)  // Run returned, wg.Done is next
    | Deleting(res: Res)  // delete(s.running, id) is next
    | Store(res: Res)     // about to record the terminal state
    | Tell                // the terminal state is stored: telling its subscribers
    | Exited

  /** A run. exited is the result cmd.Wait left in waitCh; the runner is idle until it is spawned. */
  datatype Run = Run(healthChecked: bool, main: MainPc, ctxDone: bool, notified: bool,
                     spawned: bool, runner: Runner, exited: Option<Outcome>)

  function NewRun(policy: Policy, healthChecked: bool): Run {
    Run(healthChecked, Begin, false, false, false, Init(policy), None)
  }

  datatype Choice = Yes | No | Tick

  datatype RunLabel =
    | Main(choice: Choice)
    | Child(env: Env)
    | ChildExit(outcome: Outcome)
    | Cancel
    | HealthChange

  /** An entry of the service history. */
  datatype Note = State(state: SState) | Health

  function Terminal(res: Res): SState {
    match res
    case ROk => Finished
    case RSkip => Skipped
    case RErr => Failed
  }

  // An interrupted stage is not an error: Run returns nil once ctx is done.
  function Interrupted(ctxDone: bool): Res {
    if ctxDone then ROk else RErr
  }

  /** Where main goes next; None while it is blocked. */
  function MainNext(r: Run, c: Choice): Option<MainPc>
  {
    match r.main
    case Begin => Some(Notify)
    case Notify => Some(Cond)
    case Cond => Some(if c.Yes? then CondWait else Prepare)
    case CondWait => Some(if c.Tick? then CondWait else if c.Yes? then Prepare else Returned(Interrupted(r.ctxDone)))
    case Prepare => Some(PreFunc)
    case PreFunc => Some(if c.Yes? then Create else Returned(Interrupted(r.ctxDone)))
    case Create => Some(MakeRunner)
    case MakeRunner => Some(if c.Yes? then OpenRunner else if c.Tick? then PostFunc(RSkip) else Returned(RErr))
    case OpenRunner => Some(if c.Yes? then Select else PostFunc(RErr))
    case Select =>
      if c.Yes? then
        if r.runner.pc.Done? then Some(Unwind(if r.runner.pc.result.Success? then ROk else RErr)) else None
      else
        if r.ctxDone then Some(AwaitErr) else None
    case AwaitErr => if r.runner.pc.Done? then Some(Unwind(ROk)) else None
    case Unwind(res) => if r.healthChecked && !r.ctxDone then None else Some(PostFunc(res))
    case PostFunc(res) => Some(if c.Yes? then Returned(res) else PostTell(res))
    case PostTell(res) => Some(Returned(res))
    case Returned(res) => Some(Deleting(res))
    case Deleting(res) => Some(Store(res))
    case Store(res) => Some(Tell)
    case Tell => Some(Exited)
    case Exited => None
  }

  /** What main records on the way. */
  function MainNote(m: MainPc, c: Choice): Option<SState>
  {
    match m
    case Begin => Some(Starting)
    case Cond => if c.Yes? then Some(Waiting) else None
    case CondWait => if c.Tick? then Some(Waiting) else None
    case Prepare => Some(Preparing)
    case Create => Some(Preparing)
    case PostFunc(_) => if c.Yes? then None else Some(Failed)
    case Store(res) => Some(Terminal(res))
    case _ => None
  }

  function MainStep(r: Run, c: Choice): Option<Run>
  {
    var next := MainNext(r, c);
    if next.None? then None
    else Some(r.(main := next.value,
                 notified := r.notified || r.main.Notify?,
                 spawned := r.spawned || next.value.Select?,
                 ctxDone := r.ctxDone || r.main.Returned?))   // the deferred cancel
  }

  function ChildStep(r: Run, e: Env): Option<Run>
  {
    if !r.spawned || e.ctxDone != r.ctxDone || e.exited != r.exited then None
    else Some(r.(runner := Next(r.runner, e), exited := if Reaping(r.runner, e) then None else r.exited))
  }

  predicate Reaping(r: Runner, e: Env) {
    var act := Move(r.policy, r.pc, e).1;
    act.Some? && act.value.Reap?
  }

  function ChildNote(r: Runner, e: Env): Option<SState> {
    var act := Move(r.policy, r.pc, e).1;
    if act.Some? && act.value.Rec? then Some(act.value.state) else None
  }

  predicate HealthWatched(m: MainPc) {
    m.Select? || m.AwaitErr? || m.Unwind?
  }

  /** One step of the run; cur is the state the service is in. */
  function RunStep(r: Run, l: RunLabel, cur: SState): Option<Run>
  {
    match l
    case Main(c) => MainStep(r, c)
    case Child(e) => ChildStep(r, e)
    case ChildExit(o) =>
      if PcChild(r.runner.pc) == NoChild || r.exited.Some? then None else Some(r.(exited := Some(o)))
    case Cancel => if r.ctxDone then None else Some(r.(ctxDone := true))
    case HealthChange => if r.healthChecked && cur == Running && HealthWatched(r.main) then Some(r) else None
  }

  /** The entry a step adds to the service history. */
  function NoteOf(r: Run, l: RunLabel): Option<Note>
  {
    match l
    case Main(c) => AsNote(MainNote(r.main, c))
    case Child(e) => AsNote(ChildNote(r.runner, e))
    case HealthChange => Some(Health)
    case _ => None
  }

  function AsNote(s: Option<SState>): Option<Note> {
    if s.Some? then Some(State(s.value)) else None
  }

  /** The post stage is run exactly if the service could be asked for its runner: also if there is none, if it cannot be
      opened, and whatever comes of it; a run that fails or is interrupted before that returns without it. */
  lemma PostStage(r: Run, c: Choice)
    requires MainNext(r, c).Some?
    ensures MainNext(r, c).value.PostFunc? <==>
      || (r.main.MakeRunner? && c.Tick?) || (r.main.OpenRunner? && !c.Yes?) || r.main.Unwind?
    ensures MainNext(r, c).value.Returned? <==>
      || (r.main.CondWait? && c.No?) || (r.main.PreFunc? && !c.Yes?) || (r.main.MakeRunner? && c.No?)
      || (r.main.PostFunc? && c.Yes?) || r.main.PostTell?
    ensures MainNext(r, c).value.PostTell? <==> r.main.PostFunc? && !c.Yes?
  {
  }

  // ---------------------------------------------------------------------------------------------
  // The child of a run

  predicate BeforeSpawn(m: MainPc)
  {
    m.Begin? || m.Notify? || m.Cond? || m.CondWait? || m.Prepare? || m.PreFunc? || m.Create? || m.MakeRunner?
    || m.OpenRunner?
  }

  /** run returned, or there is no runner to run. */
  predicate Over(m: MainPc)
  {
    !BeforeSpawn(m) && !m.Select? && !m.AwaitErr?
  }

  /** Where main is, against whether the runner was spawned and has returned. */
  predicate Stage(m: MainPc, spawned: bool, pc: Pc)
  {
    && (spawned ==> !BeforeSpawn(m))
    && (!spawned ==> pc.Try? && !m.Select? && !m.AwaitErr?)
    && (spawned && Over(m) ==> pc.Done?)
  }

  ghost predicate RunInv(r: Run)
  {
    && ChildOf(r.runner.trace) == PcChild(r.runner.pc)
    && Stage(r.main, r.spawned, r.runner.pc)
    && (!r.spawned ==> r.runner.trace == [])
    && (r.exited.Some? ==> PcChild(r.runner.pc) != NoChild)
    && (r.main.Begin? ==> !r.notified)
  }

  lemma StageMain(r: Run, c: Choice)
    requires Stage(r.main, r.spawned, r.runner.pc) && MainStep(r, c).Some?
    ensures var r' := MainStep(r, c).value;
      Stage(r'.main, r'.spawned, r'.runner.pc) && !r'.main.Begin?
  {
  }

  lemma StageChild(r: Run, e: Env)
    requires Stage(r.main, r.spawned, r.runner.pc) && ChildStep(r, e).Some?
    ensures var r' := ChildStep(r, e).value;
      && Stage(r'.main, r'.spawned, r'.runner.pc) && r'.main == r.main && r'.spawned == r.spawned
      && (r'.exited.Some? ==> r'.exited == r.exited && (PcChild(r.runner.pc) != NoChild ==> PcChild(r'.runner.pc) != NoChild))
  {
  }

  lemma RunInvChild(r: Run, e: Env)
    requires RunInv(r) && ChildStep(r, e).Some?
    ensures RunInv(ChildStep(r, e).value)
  {
    StageChild(r, e);
    ChildFollowsStep(r.runner, e);
  }

  lemma RunInvStep(r: Run, l: RunLabel, cur: SState)
    requires RunInv(r) && RunStep(r, l, cur).Some?
    ensures RunInv(RunStep(r, l, cur).value)
  {
    match l
    case Main(c) => StageMain(r, c);
    case Child(e) => RunInvChild(r, e);
    case _ =>
  }

  /** A run that is over leaves no child: everything it started was reaped. */
  lemma OverIsQuiet(r: Run)
    requires RunInv(r) && Over(r.main)
    ensures PcChild(r.runner.pc) == NoChild && r.exited.None?
    ensures Starts(r.runner.trace) == Reaps(r.runner.trace)
  {
    GoodCounts(r.runner.trace);
  }

  /** Once over, a run stays over, and starts nothing more. */
  lemma OverIsStable(r: Run, l: RunLabel, cur: SState)
    requires RunInv(r) && Over(r.main) && RunStep(r, l, cur).Some?
    ensures Over(RunStep(r, l, cur).value.main)
    ensures RunStep(r, l, cur).value.runner == r.runner
  {
  }
}
