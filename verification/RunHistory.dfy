/** The states one run records, as a language. */
module RunHistory {
  import opened Common
  import opened Restart
  import opened ServiceRun

  /** A run with the service state it updates and the entries it adds to the history. */
  datatype Recorded = Recorded(run: Run, cur: SState, hist: seq<Note>)

  function Record(x: Recorded, l: RunLabel): Option<Recorded>
  {
    match RunStep(x.run, l, x.cur)
    case None => None
    case Some(r) =>
      match NoteOf(x.run, l)
      case None => Some(x.(run := r))
      case Some(Health) => Some(x.(run := r, hist := x.hist + [Health]))
      case Some(State(s)) => Some(Recorded(r, s, x.hist + [State(s)]))
  }

  function States(h: seq<Note>): seq<SState>
  {
    if h == [] then []
    else States(h[..|h| - 1]) + if Last(h).State? then [Last(h).state] else []
  }

  // ---------------------------------------------------------------------------------------------
  // The language, read left to right

  datatype Q = Q0 | QWait | QPrep1 | QPrep2 | QLoop | QRan | QStop(n: nat) | QAbort | QFailed(bare: bool) | QEnd

  function Delta(q: Q, s: SState): Option<Q>
  {
    match q
    case Q0 => if s.Starting? then Some(QWait) else None
    case QWait =>
      (match s
       case Waiting => Some(QWait)
       case Preparing => Some(QPrep1)
       case Finished | Failed => Some(QEnd)
       case _ => None)
    case QPrep1 => if s.Preparing? then Some(QPrep2) else if s.Finished? || s.Failed? then Some(QEnd) else None
    case QPrep2 =>
      (match s
       case Running => Some(QRan)
       case Waiting => Some(QLoop)
       case Failed => Some(QFailed(true))
       case Finished | Skipped => Some(QEnd)
       case _ => None)
    case QLoop =>
      (match s
       case Running => Some(QRan)
       case Waiting => Some(QLoop)
       case Stopping => Some(QAbort)
       case Failed => Some(QFailed(false))
       case Finished => Some(QEnd)
       case _ => None)
    case QRan =>
      (match s
       case Waiting => Some(QLoop)
       case Stopping => Some(QStop(1))
       case Failed => Some(QFailed(false))
       case Finished => Some(QEnd)
       case _ => None)
    case QStop(n) =>
      (match s
       case Stopping => if n < 4 then Some(QStop(n + 1)) else None
       case Failed => Some(QFailed(false))
       case Finished => Some(QEnd)
       case _ => None)
    case QAbort => if s.Failed? then Some(QFailed(false)) else if s.Finished? then Some(QEnd) else None
    case QFailed(bare) => if s.Finished? || s.Failed? || (bare && s.Skipped?) then Some(QEnd) else None
    case QEnd => None
  }

  function Scan(w: seq<SState>): Option<Q>
  {
    if w == [] then Some(Q0)
    else
      match Scan(w[..|w| - 1])
      case None => None
      case Some(q) => Delta(q, Last(w))
  }

  /** Where a runner can be while the language is at q. */
  predicate RunnerAt(pc: Pc, ctxDone: bool, q: Q)
  {
    && (q.QStop? ==> ctxDone && 1 <= q.n <= 4)
    && match pc
       case Try | Started => q.QPrep2? || q.QLoop?
       case Wait1 => q.QRan?
       case TermRec => q.QRan? && ctxDone
       case TermSig | TermFailed => q == QStop(1)
       case Wait2 | KillRec => q == QStop(1) || q == QStop(2)
       case KillSig | KillFailed => q == QStop(2) || q == QStop(3)
       case Wait3 => q.QStop? && q.n >= 2
       case After(_) => q.QPrep2? || q.QLoop? || q.QRan? || q.QStop?
       case Sleep | Abort => q.QLoop?
       case Done(_) => q.QPrep2? || q.QLoop? || q.QRan? || q.QStop? || q.QAbort?
  }

  predicate RanAt(q: Q, res: Res)
  {
    q.QPrep2? || (!res.RSkip? && (q.QLoop? || q.QRan? || q.QStop? || q.QAbort?))
  }

  predicate EndingAt(q: Q, res: Res)
  {
    !q.Q0? && Delta(q, Terminal(res)).Some?
  }

  predicate At(r: Run, q: Q)
  {
    (q.QStop? ==> 1 <= q.n <= 4) &&
    match r.main
    case Begin => q.Q0?
    case Notify | Cond | CondWait | Prepare => q.QWait?
    case PreFunc | Create => q.QPrep1?
    case MakeRunner | OpenRunner => q.QPrep2?
    case Select | AwaitErr => RunnerAt(r.runner.pc, r.ctxDone, q)
    case Unwind(res) => RanAt(q, res)
    case PostFunc(res) => RanAt(q, res)
    case PostTell(res) => q.QFailed? && (res.RSkip? ==> q.bare)
    case Returned(res) => EndingAt(q, res)
    case Deleting(res) => EndingAt(q, res)
    case Store(res) => EndingAt(q, res)
    case Tell | Exited => q.QEnd? || q.QFailed?
  }

  lemma AtMain(r: Run, c: Choice, q: Q)
    requires RunInv(r) && At(r, q) && MainStep(r, c).Some?
    ensures var note := MainNote(r.main, c);
      var q' := if note.None? then Some(q) else Delta(q, note.value);
      q'.Some? && At(MainStep(r, c).value, q'.value)
  {
  }

  lemma AtChild(r: Run, e: Env, q: Q)
    requires RunInv(r) && At(r, q) && ChildStep(r, e).Some?
    ensures var note := ChildNote(r.runner, e);
      var q' := if note.None? then Some(q) else Delta(q, note.value);
      q'.Some? && At(ChildStep(r, e).value, q'.value)
  {
    if !r.runner.pc.Done? {
      RunnerMoves(r.runner, e, q);
    }
  }

  /** One step of the runner, which moves the language along. */
  lemma RunnerMoves(r: Runner, e: Env, q: Q)
    requires RunnerAt(r.pc, e.ctxDone, q) && !r.pc.Done?
    ensures var note := ChildNote(r, e);
      var q' := if note.None? then Some(q) else Delta(q, note.value);
      q'.Some? && RunnerAt(Next(r, e).pc, e.ctxDone, q'.value)
  {
  }

  // ---------------------------------------------------------------------------------------------
  // The words of the language

  function Repeat(s: SState, n: nat): seq<SState> {
    seq(n, _ => s)
  }

  /** The parts of a recorded word: Starting, Waiting for conditions, Preparing, the reports of the restart loop,
      the reports of the last stop, and the terminal states. */
  datatype Parts = Parts(waits: nat, preps: nat, loop: seq<SState>, stops: nat, end: seq<SState>) {
    function Word(): seq<SState> {
      [Starting] + Repeat(Waiting, waits) + Repeat(Preparing, preps) + loop + Repeat(Stopping, stops) + end
    }

    ghost predicate Wellformed() {
      && preps <= 2 && stops <= 4 && |end| <= 2
      && (forall i :: 0 <= i < |loop| ==> loop[i] == Running || loop[i] == Waiting)
      && (forall i :: 0 < i < |loop| && loop[i] == Running ==> loop[i - 1] == Waiting)
      && (forall i :: 0 <= i < |end| ==> end[i] in {Finished, Failed, Skipped})
      && (preps < 2 ==> loop == [] && Skipped !in end && |end| <= 1)
      && (loop != [] ==> Skipped !in end)
      && (stops > 0 ==> loop != [] && (stops > 1 ==> Last(loop) == Running))
      && (|end| == 2 ==> end[0] == Failed)
    }

    ghost predicate Reaches(q: Q) {
      && Wellformed()
      && (end == [] <==> !q.QFailed? && !q.QEnd?)
      && match q
         case Q0 => false
         case QWait => preps == 0
         case QPrep1 => preps == 1
         case QPrep2 => preps == 2 && loop == []
         case QLoop => preps == 2 && loop != [] && Last(loop) == Waiting && stops == 0
         case QRan => preps == 2 && loop != [] && Last(loop) == Running && stops == 0
         case QStop(n) => preps == 2 && loop != [] && Last(loop) == Running && stops == n
         case QAbort => preps == 2 && loop != [] && Last(loop) == Waiting && stops == 1
         case QFailed(bare) => preps == 2 && end == [Failed] && (bare ==> loop == [])
         case QEnd => true
    }
  }

  /** The parts after one more state. */
  function Grow(p: Parts, q: Q, s: SState): Parts
  {
    match s
    case Finished | Failed | Skipped => p.(end := p.end + [s])
    case Preparing => p.(preps := p.preps + 1)
    case Stopping => p.(stops := p.stops + 1)
    case Running => p.(loop := p.loop + [s])
    case _ => if q.QWait? then p.(waits := p.waits + 1) else p.(loop := p.loop + [s])
  }

  lemma GrowReaches(p: Parts, q: Q, s: SState)
    requires p.Reaches(q) && Delta(q, s).Some?
    ensures Grow(p, q, s).Reaches(Delta(q, s).value)
  {
  }

  lemma RepeatMore(s: SState, n: nat)
    ensures Repeat(s, n + 1) == Repeat(s, n) + [s]
    ensures Repeat(s, 0) == []
  {
  }

  lemma GrowWord(p: Parts, q: Q, s: SState)
    requires p.Reaches(q) && Delta(q, s).Some?
    ensures Grow(p, q, s).Word() == p.Word() + [s]
  {
    RepeatMore(Waiting, p.waits);
    RepeatMore(Preparing, p.preps);
    RepeatMore(Stopping, p.stops);
  }

  lemma {:induction false} Decompose(w: seq<SState>) returns (p: Parts)
    requires w != [] && Scan(w).Some?
    ensures w == p.Word() && p.Reaches(Scan(w).value)
  {
    var v := w[..|w| - 1];
    if v == [] {
      p := Parts(0, 0, [], 0, []);
      assert w == [Starting];
      assert p.Word() == w;
    } else {
      var q := Scan(v).value;
      p := Decompose(v);
      GrowReaches(p, q, Last(w));
      GrowWord(p, q, Last(w));
      p := Grow(p, q, Last(w));
    }
  }

  // ---------------------------------------------------------------------------------------------
  // Every run

  ghost predicate HealthWhileRunning(h: seq<Note>)
  {
    forall i :: 0 <= i < |h| && h[i].Health? ==> States(h[..i]) != [] && Last(States(h[..i])) == Running
  }

  ghost predicate RecordInv(x: Recorded)
  {
    && RunInv(x.run)
    && Scan(States(x.hist)).Some?
    && At(x.run, Scan(States(x.hist)).value)
    && (States(x.hist) != [] ==> x.cur == Last(States(x.hist)))
    && HealthWhileRunning(x.hist)
  }

  lemma StatesSnoc(h: seq<Note>, n: Note)
    ensures States(h + [n]) == States(h) + if n.State? then [n.state] else []
  {
    assert (h + [n])[..|h + [n]| - 1] == h;
  }

  lemma ScanSnoc(w: seq<SState>, s: SState)
    requires Scan(w).Some?
    ensures Scan(w + [s]) == Delta(Scan(w).value, s)
  {
    assert (w + [s])[..|w + [s]| - 1] == w;
  }

  lemma HealthSnoc(h: seq<Note>, n: Note)
    requires HealthWhileRunning(h)
    requires n.Health? ==> States(h) != [] && Last(States(h)) == Running
    ensures HealthWhileRunning(h + [n])
  {
    forall i | 0 <= i < |h + [n]| && (h + [n])[i].Health?
      ensures States((h + [n])[..i]) != [] && Last(States((h + [n])[..i])) == Running
    {
      assert (h + [n])[..i] == h[..i];
      if i == |h| {
        assert h[..i] == h;
      }
    }
  }

  lemma AtStep(r: Run, l: RunLabel, cur: SState, q: Q)
    requires RunInv(r) && At(r, q) && RunStep(r, l, cur).Some?
    ensures var n := NoteOf(r, l);
      var q' := if n.Some? && n.value.State? then Delta(q, n.value.state) else Some(q);
      q'.Some? && At(RunStep(r, l, cur).value, q'.value)
    ensures l.HealthChange? ==> !q.Q0? && cur == Running
  {
    match l
    case Main(c) => AtMain(r, c, q);
    case Child(e) => AtChild(r, e, q);
    case _ =>
  }

  /** What adding an entry does to the invariant of the history. */
  lemma NoteStep(h: seq<Note>, cur: SState, n: Note)
    requires HealthWhileRunning(h) && Scan(States(h)).Some?
    requires States(h) != [] ==> cur == Last(States(h))
    requires n.State? ==> Delta(Scan(States(h)).value, n.state).Some?
    requires n.Health? ==> !Scan(States(h)).value.Q0? && cur == Running
    ensures HealthWhileRunning(h + [n])
    ensures n.State? ==> Scan(States(h + [n])) == Delta(Scan(States(h)).value, n.state) && Last(States(h + [n])) == n.state
    ensures n.Health? ==> States(h + [n]) == States(h)
  {
    StatesSnoc(h, n);
    HealthSnoc(h, n);
    if n.State? {
      ScanSnoc(States(h), n.state);
    }
  }

  lemma RecordStep(x: Recorded, l: RunLabel)
    requires RecordInv(x) && Record(x, l).Some?
    ensures RecordInv(Record(x, l).value)
  {
    RunInvStep(x.run, l, x.cur);
    AtStep(x.run, l, x.cur, Scan(States(x.hist)).value);
    var n := NoteOf(x.run, l);
    if n.Some? {
      NoteStep(x.hist, x.cur, n.value);
    }
  }

  lemma EveryRun(policy: Policy, healthChecked: bool, cur: SState, run: seq<RunLabel>)
    requires Exec(Record, Recorded(NewRun(policy, healthChecked), cur, []), run).Some?
    ensures RecordInv(Exec(Record, Recorded(NewRun(policy, healthChecked), cur, []), run).value)
  {
    forall x, l | RecordInv(x) && Record(x, l).Some? ensures RecordInv(Record(x, l).value) {
      RecordStep(x, l);
    }
    InvariantHolds(Record, RecordInv, Recorded(NewRun(policy, healthChecked), cur, []), run);
  }

  lemma EndOf(r: Run, q: Q)
    requires At(r, q)
    ensures r.main.Tell? || r.main.Exited? ==> q.QEnd? || q.QFailed?
    ensures !Over(r.main) ==> !q.QEnd? && !q.QFailed?
  {
  }

  /** The history of every run, whatever its service, its child and its environment do: it is a word of the
      language, it ends in terminal states once the terminal state is stored and never before run returned, and health entries
      are added only while the latest state is Running. */
  lemma HistoryOfEveryRun(policy: Policy, healthChecked: bool, cur: SState, run: seq<RunLabel>) returns (p: Parts)
    requires Exec(Record, Recorded(NewRun(policy, healthChecked), cur, []), run).Some?
    ensures var x := Exec(Record, Recorded(NewRun(policy, healthChecked), cur, []), run).value;
      && (States(x.hist) != [] ==> States(x.hist) == p.Word() && p.Wellformed())
      && (x.run.main.Tell? || x.run.main.Exited? ==> States(x.hist) != [] && p.end != [])
      && (!Over(x.run.main) && States(x.hist) != [] ==> p.end == [])
      && HealthWhileRunning(x.hist)
  {
    EveryRun(policy, healthChecked, cur, run);
    var x := Exec(Record, Recorded(NewRun(policy, healthChecked), cur, []), run).value;
    EndOf(x.run, Scan(States(x.hist)).value);
    if States(x.hist) == [] {
      p := Parts(0, 0, [], 0, []);
    } else {
      p := Decompose(States(x.hist));
    }
  }

  // ---------------------------------------------------------------------------------------------
  // What the terminal state says of the run

  /** With the choice c, main leaves the run here, and s is the terminal state that this calls for: an interrupted stage is a
      success, one that fails by itself a failure, and so is a runner that cannot be made or opened; without a
      runner the service is skipped; else it is the runner's last result, which only counts if run was not cancelled first. */
  predicate Decides(r: Run, c: Choice, s: SState)
  {
    match r.main
    case CondWait => c.No? && s == if r.ctxDone then Finished else Failed
    case PreFunc => !c.Yes? && s == if r.ctxDone then Finished else Failed
    case MakeRunner => !c.Yes? && s == if c.Tick? then Skipped else Failed
    case OpenRunner => !c.Yes? && s == Failed
    case Select =>
      && c.Yes? && r.runner.trace != []
      && var last := Last(r.runner.trace);
         (s == Finished && (last == Reap(Success) || last == Rec(Stopping)))
         || (s == Failed && (last == Reap(Failure) || last == NoStart))
    case AwaitErr => r.ctxDone && s == Finished
    case _ => false
  }

  /** After the first k steps of the run, the next one decides that it ends in s. */
  ghost predicate DecidedAt(x: Recorded, run: seq<RunLabel>, k: nat, s: SState)
  {
    && k < |run| && run[k].Main? && Exec(Record, x, run[..k]).Some?
    && Decides(Exec(Record, x, run[..k]).value.run, run[k].choice, s)
  }

  predicate Explained(r: Run) {
    LastAct(r.runner.pc, r.runner.trace) && (r.main.AwaitErr? ==> r.ctxDone)
  }

  lemma ExplainedStep(r: Run, l: RunLabel, cur: SState)
    requires Explained(r) && RunStep(r, l, cur).Some?
    ensures Explained(RunStep(r, l, cur).value)
  {
    if l.Child? {
      LastActStep(r.runner, l.env);
    }
  }

  ghost predicate Accountable(x: Recorded)
  {
    RecordInv(x) && Explained(x.run)
  }

  lemma AccountableStep(x: Recorded, l: RunLabel)
    requires Accountable(x) && Record(x, l).Some?
    ensures Accountable(Record(x, l).value)
  {
    RecordStep(x, l);
    ExplainedStep(x.run, l, x.cur);
  }

  /** The terminal state that a run at m is going to store. */
  function Pending(m: MainPc): Option<SState>
  {
    match m
    case Unwind(res) => Some(Terminal(res))
    case PostFunc(res) => Some(Terminal(res))
    case PostTell(res) => Some(Terminal(res))
    case Returned(res) => Some(Terminal(res))
    case Deleting(res) => Some(Terminal(res))
    case Store(res) => Some(Terminal(res))
    case _ => None
  }

  /** The terminal state of the run once it is decided. */
  function Verdict(x: Recorded): Option<SState> {
    if x.run.main.Tell? || x.run.main.Exited? then Some(x.cur) else Pending(x.run.main)
  }

  /** A step of main decides the terminal state, keeps it, or stores it. */
  lemma MainDecides(r: Run, c: Choice)
    requires RunInv(r) && Explained(r)
    requires MainNext(r, c).Some? && Pending(MainNext(r, c).value).Some?
    ensures Pending(r.main) == Pending(MainNext(r, c).value)
         || (Pending(r.main).None? && Decides(r, c, Pending(MainNext(r, c).value).value))
    ensures !r.main.Tell? && !r.main.Exited?
  {
  }

  lemma MainStores(r: Run, c: Choice)
    requires MainNext(r, c).Some? && (MainNext(r, c).value.Tell? || MainNext(r, c).value.Exited?)
    ensures r.main.Tell? || r.main.Store?
    ensures r.main.Store? ==> MainNote(r.main, c) == Pending(r.main)
    ensures r.main.Tell? ==> MainNote(r.main, c).None?
  {
  }

  /** No other step moves main, or records a state once it is decided. */
  lemma OthersDecideNothing(x: Recorded, l: RunLabel)
    requires Accountable(x) && Record(x, l).Some? && !l.Main?
    ensures Verdict(Record(x, l).value) == Verdict(x)
  {
    if l.Child? && Over(x.run.main) {
      NoRunnerEventAfterRun(x.run, l.env, x.cur);
    }
  }

  /** A step decides the terminal state, or leaves it as it is. */
  lemma VerdictStep(x: Recorded, l: RunLabel)
    requires Accountable(x) && Record(x, l).Some? && Verdict(Record(x, l).value).Some?
    ensures Verdict(x) == Verdict(Record(x, l).value)
         || (Verdict(x).None? && l.Main? && Decides(x.run, l.choice, Verdict(Record(x, l).value).value))
  {
    if !l.Main? {
      OthersDecideNothing(x, l);
    } else if Pending(MainNext(x.run, l.choice).value).Some? {
      MainDecides(x.run, l.choice);
    } else {
      MainStores(x.run, l.choice);
    }
  }

  lemma {:induction false} VerdictOfRun(x: Recorded, run: seq<RunLabel>) returns (k: nat)
    requires Accountable(x) && Verdict(x).None? && Exec(Record, x, run).Some?
    ensures Accountable(Exec(Record, x, run).value)
    ensures var v := Verdict(Exec(Record, x, run).value);
      v.Some? ==> DecidedAt(x, run, k, v.value)
  {
    k := 0;
    if run != [] {
      var init := run[..|run| - 1];
      k := VerdictOfRun(x, init);
      var m := Exec(Record, x, init).value;
      AccountableStep(m, Last(run));
      if Verdict(Exec(Record, x, run).value).Some? {
        VerdictStep(m, Last(run));
        if Verdict(m).None? {
          k := |run| - 1;
        } else {
          assert init[..k] == run[..k];
        }
      }
    }
  }

  /** Over every run, the terminal state that is stored, and stays the latest, is the one that the run's own end calls for. */
  lemma TerminalStateOfEveryRun(policy: Policy, healthChecked: bool, cur: SState, run: seq<RunLabel>) returns (k: nat)
    requires Exec(Record, Recorded(NewRun(policy, healthChecked), cur, []), run).Some?
    requires var m := Exec(Record, Recorded(NewRun(policy, healthChecked), cur, []), run).value.run.main;
      m.Tell? || m.Exited?
    ensures var x := Exec(Record, Recorded(NewRun(policy, healthChecked), cur, []), run).value;
      && States(x.hist) != [] && x.cur == Last(States(x.hist))
      && DecidedAt(Recorded(NewRun(policy, healthChecked), cur, []), run, k, x.cur)
  {
    var p := HistoryOfEveryRun(policy, healthChecked, cur, run);
    k := VerdictOfRun(Recorded(NewRun(policy, healthChecked), cur, []), run);
  }

  /** No event of the runner follows the return of run. */
  lemma NoRunnerEventAfterRun(r: Run, e: Env, cur: SState)
    requires RunInv(r) && Over(r.main) && RunStep(r, Child(e), cur).Some?
    ensures NoteOf(r, Child(e)).None?
  {
  }
}
