/** The Service resources (controllers/v1alpha1/service.go): a table folded from the event stream. */
module ServiceTable {
  import opened Common
  import opened EventStream
  import opened Watch
  import Restart

  datatype ServiceSpec = ServiceSpec(running: bool, healthy: bool, unknown: bool)

  type Table = map<string, ServiceSpec>

  // ServiceStateEvent_RUNNING.
  const RUNNING := 3

  function ApplyEvent(t: Table, e: Event): Table
  {
    match e.payload
    case Garbage => t
    case StateEvent(service, action, health) =>
      if action == RUNNING then t[service := ServiceSpec(true, health.healthy, health.unknown)] else t - {service}
  }

  function Fold(es: seq<Event>): Table
  {
    if es == [] then map[] else ApplyEvent(Fold(es[..|es| - 1]), Last(es))
  }

  /** The last event published for the service. */
  function LastFor(service: string, es: seq<Event>): Option<Event>
  {
    if es == [] then None
    else if Last(es).payload.StateEvent? && Last(es).payload.service == service then Some(Last(es))
    else LastFor(service, es[..|es| - 1])
  }

  /** What the table says of a service if this is the last event it has taken of it. */
  predicate Shows(t: Table, service: string, last: Option<Event>)
  {
    && (service in t <==> last.Some? && last.value.payload.StateEvent? && last.value.payload.action == RUNNING)
    && (service in t ==> t[service] == ServiceSpec(true, last.value.payload.health.healthy, last.value.payload.health.unknown))
  }

  /** The table says of each service what its last event says: present exactly if that was RUNNING, with its health. */
  lemma {:induction false} FoldIsLast(es: seq<Event>, service: string)
    ensures Shows(Fold(es), service, LastFor(service, es))
  {
    if es != [] {
      FoldIsLast(es[..|es| - 1], service);
    }
  }

  // ---------------------------------------------------------------------------------------------
  // The payload that the supervisor publishes (events.go, health/status.go)

  // The actions of the machine API, by their numbers: the states of the supervisor are cast to them.
  const ACTIONS: seq<Restart.SState> := [
    Restart.Initialized, Restart.Preparing, Restart.Waiting, Restart.Running, Restart.Stopping,
    Restart.Finished, Restart.Failed, Restart.Skipped, Restart.Starting
  ]

  /** The number of a state is that of the action of the same name, so what the controller takes for RUNNING is Running. */
  lemma StatesAreActions(s: Restart.SState)
    ensures Restart.StateNumber(s) < |ACTIONS| && ACTIONS[Restart.StateNumber(s)] == s
    ensures Restart.StateNumber(s) == RUNNING <==> s == Restart.Running
  {
  }

  /** ServiceEvent.AsProto: the state is published by its number, an unknown health as not healthy. */
  function AsProto(service: string, state: Restart.SState, healthy: Option<bool>): Payload
  {
    StateEvent(service, Restart.StateNumber(state), Health(healthy.None?, healthy.Some? && healthy.value))
  }

  /** Taking the event leaves the service in the table exactly if running is true, with this health. */
  ghost predicate ShownAs(p: Payload, service: string, running: bool, healthy: Option<bool>)
  {
    forall t: Table, id: Xid, actor: string ::
      var t' := ApplyEvent(t, Event(id, p, actor));
      && (service in t' <==> running)
      && (service in t' ==> t'[service].running
                            && (t'[service].healthy <==> healthy == Some(true)) && (t'[service].unknown <==> healthy.None?))
      && forall other :: other != service ==> (other in t' <==> other in t) && (other in t ==> t'[other] == t[other])
  }

  /** A published update puts the service into the table if its state is Running and takes it out otherwise; it carries
      exactly its health, and touches no other service. */
  lemma PublishedUpdate(service: string, state: Restart.SState, healthy: Option<bool>)
    ensures ShownAs(AsProto(service, state, healthy), service, state == Restart.Running, healthy)
  {
    StatesAreActions(state);
  }

  // ---------------------------------------------------------------------------------------------
  // The event loop

  /** The table when only some of the writes succeed: one that fails is logged, and leaves the table as it is. */
  function FoldWritten(es: seq<Event>, written: seq<bool>): Table
    requires |es| == |written|
  {
    if es == [] then map[]
    else
      var t := FoldWritten(es[..|es| - 1], written[..|es| - 1]);
      if Last(written) then ApplyEvent(t, Last(es)) else t
  }

  /** If all writes succeed the table is the fold. */
  lemma {:induction false} AllWritten(es: seq<Event>, written: seq<bool>)
    requires |es| == |written| && forall i :: 0 <= i < |es| ==> written[i]
    ensures FoldWritten(es, written) == Fold(es)
  {
    if es != [] {
      AllWritten(es[..|es| - 1], written[..|es| - 1]);
    }
  }

  predicate LastWritten(service: string, es: seq<Event>, written: seq<bool>)
    requires |es| == |written|
  {
    if es == [] then true
    else if Last(es).payload.StateEvent? && Last(es).payload.service == service then Last(written)
    else LastWritten(service, es[..|es| - 1], written[..|es| - 1])
  }

  /** A failed write is repaired by the next one for its service: what the table says of a service is right whenever the write
      of its last event succeeded, whatever failed before. */
  lemma {:induction false} LastWriteCounts(es: seq<Event>, written: seq<bool>, service: string)
    requires |es| == |written| && LastWritten(service, es, written)
    ensures service in FoldWritten(es, written) <==> service in Fold(es)
    ensures service in Fold(es) ==> FoldWritten(es, written)[service] == Fold(es)[service]
  {
    if es != [] && !(Last(es).payload.StateEvent? && Last(es).payload.service == service) {
      LastWriteCounts(es[..|es| - 1], written[..|es| - 1], service);
    }
  }

  /** The last event of the service whose write succeeded. */
  function LastShown(service: string, es: seq<Event>, written: seq<bool>): Option<Event>
    requires |es| == |written|
  {
    if es == [] then None
    else if Last(written) && Last(es).payload.StateEvent? && Last(es).payload.service == service then Some(Last(es))
    else LastShown(service, es[..|es| - 1], written[..|es| - 1])
  }

  /** Whichever writes fail, the table shows of each service the last event of it that was written, and that is its last event
      if the write of that succeeded. */
  lemma {:induction false} WrittenIsShown(es: seq<Event>, written: seq<bool>, service: string)
    requires |es| == |written|
    ensures Shows(FoldWritten(es, written), service, LastShown(service, es, written))
    ensures LastWritten(service, es, written) ==> LastShown(service, es, written) == LastFor(service, es)
  {
    if es != [] {
      WrittenIsShown(es[..|es| - 1], written[..|es| - 1], service);
    }
  }

  /** ServiceController, with the resources it owns. */
  class ServiceController {
    var table: Table

    constructor ()
      ensures table == map[]
    {
      table := map[];
    }

    /** Handles the events that it receives until the channel is closed or ctx is done, one by one; written says which
        writes to the resource state succeed. */
    method Run(received: seq<EventInfo>, written: seq<bool>)
      requires table == map[] && |written| == |received|
      modifies this
      ensures table == FoldWritten(Handed(received), written)
      ensures (forall i :: 0 <= i < |written| ==> written[i]) ==> table == Fold(Handed(received))
    {
      for i := 0 to |received|
        invariant table == FoldWritten(Handed(received[..i]), written[..i])
      {
        WrittenMore(received, written, i);
        if !written[i] { continue; }
        match received[i].event.payload {
          case Garbage =>
          case StateEvent(service, action, health) =>
            if action == RUNNING {
              table := table[service := ServiceSpec(true, health.healthy, health.unknown)];
            } else {
              table := table - {service};
            }
        }
      }
      TakeAll(received);
      TakeAll(written);
      if forall i :: 0 <= i < |written| ==> written[i] {
        AllWritten(Handed(received), written);
      }
    }
  }

  lemma WrittenMore(given: seq<EventInfo>, written: seq<bool>, n: nat)
    requires n < |given| && n < |written|
    ensures FoldWritten(Handed(given[..n + 1]), written[..n + 1])
      == var t := FoldWritten(Handed(given[..n]), written[..n]);
         if written[n] then ApplyEvent(t, given[n].event) else t
  {
    TakeMore(given, n);
    TakeMore(written, n);
    HandedSnoc(given[..n], given[n]);
    var h := Handed(given[..n + 1]);
    assert h[..|h| - 1] == Handed(given[..n]);
  }

  // ---------------------------------------------------------------------------------------------
  // The table beside the stream

  /** The stream with the controller as its watcher number ctrl; written says of each event that the controller has handled
      whether the write to the resource state succeeded. */
  datatype View = View(s: Stream, ctrl: nat, table: Table, written: seq<bool>)

  datatype ViewLabel = OfStream(l: Watch.Label) | Apply(ok: bool)

  /** The channel is unbuffered: the controller receives only when it has handled what it received before. A write that
      fails is logged, and leaves the table as it is. */
  function ViewStep(v: View, l: ViewLabel): Option<View>
  {
    if v.ctrl >= |v.s.ws| then None
    else
      var given := v.s.ws[v.ctrl].given;
      match l
      case Apply(ok) =>
        if |v.written| >= |given| then None
        else
          var t := if ok then ApplyEvent(v.table, given[|v.written|].event) else v.table;
          Some(v.(table := t, written := v.written + [ok]))
      case OfStream(sl) =>
        if sl == Send(v.ctrl) && |v.written| != |given| then None
        else
          match Watch.Step(v.s, sl)
          case None => None
          case Some(s) => Some(v.(s := s))
  }

  ghost predicate ViewInv(v: View)
  {
    && StreamInv(v.s)
    && v.ctrl < |v.s.ws|
    && |v.written| <= |v.s.ws[v.ctrl].given| <= |v.written| + 1
    && v.table == FoldWritten(Handed(v.s.ws[v.ctrl].given[..|v.written|]), v.written)
  }

  lemma GivenGrows(s: Stream, l: Watch.Label, i: nat)
    requires i < |s.ws| && Watch.Step(s, l).Some?
    ensures i < |Watch.Step(s, l).value.ws|
    ensures Watch.Step(s, l).value.ws[i].given == s.ws[i].given
         || (l == Send(i) && exists x :: Watch.Step(s, l).value.ws[i].given == s.ws[i].given + [x])
    ensures Watch.Step(s, l).value.ws[i].start == s.ws[i].start && Watch.Step(s, l).value.ws[i].actor == s.ws[i].actor
  {
  }

  lemma ViewStepKeeps(v: View, l: ViewLabel)
    requires ViewInv(v) && ViewStep(v, l).Some?
    ensures ViewInv(ViewStep(v, l).value)
    ensures ViewStep(v, l).value.ctrl == v.ctrl
  {
    var given := v.s.ws[v.ctrl].given;
    if l.Apply? {
      var written := v.written + [l.ok];
      assert written[..|v.written|] == v.written && written[..|v.written| + 1] == written;
      WrittenMore(given, written, |v.written|);
    } else {
      StreamStep(v.s, l.l);
      GivenGrows(v.s, l.l, v.ctrl);
      assert ViewStep(v, l).value.s.ws[v.ctrl].given[..|v.written|] == given[..|v.written|];
    }
  }

  /** The controller's watch on a stream in state s: all available events, no filter. */
  predicate Fresh(v: View)
  {
    && v.ctrl < |v.s.ws|
    && var w := v.s.ws[v.ctrl];
    && w.actor == "" && w.given == [] && w.pos == w.start && w.pc == Ready
    && v.table == map[] && v.written == []
  }

  lemma {:induction false} SelectAll(es: seq<Event>)
    ensures Select("", es) == es
  {
    if es != [] {
      SelectAll(es[..|es| - 1]);
    }
  }

  ghost predicate Same(v: View, ctrl: nat, start: nat)
  {
    ViewInv(v) && v.ctrl == ctrl && v.s.ws[ctrl].start == start && v.s.ws[ctrl].actor == ""
  }

  /** The controller has handled all that its watcher has read. */
  predicate UpToDate(v: View)
    requires v.ctrl < |v.s.ws|
  {
    var w := v.s.ws[v.ctrl];
    |v.written| == |w.given| && !w.pc.Sending? && !w.pc.Ended?
  }

  /** The materialised view, over every run of the stream and the controller: at any time the table is the fold of a
      stretch of the log from the start of the watch, at most two events short of the position of the watcher, but for
      the writes that failed. */
  lemma TableFollowsLog(v0: View, run: seq<ViewLabel>) returns (upto: nat)
    requires StreamInv(v0.s) && Fresh(v0) && Exec(ViewStep, v0, run).Some?
    requires Exec(ViewStep, v0, run).value.ctrl < |Exec(ViewStep, v0, run).value.s.ws|
    ensures var v := Exec(ViewStep, v0, run).value;
      var start := v0.s.ws[v0.ctrl].start;
      && v.ctrl == v0.ctrl
      && upto == start + |v.written| <= v.s.ws[v.ctrl].pos <= upto + 2 && upto <= |v.s.log|
      && v.table == FoldWritten(v.s.log[start..upto], v.written)
      && ((forall i :: 0 <= i < |v.written| ==> v.written[i]) ==> v.table == Fold(v.s.log[start..upto]))
      && (UpToDate(v) ==> upto == v.s.ws[v.ctrl].pos)
  {
    var start := v0.s.ws[v0.ctrl].start;
    forall v, l | Same(v, v0.ctrl, start) && ViewStep(v, l).Some? ensures Same(ViewStep(v, l).value, v0.ctrl, start) {
      ViewStepKeeps(v, l);
      if l.OfStream? {
        GivenGrows(v.s, l.l, v.ctrl);
      }
    }
    assert v0.s.ws[v0.ctrl].given[..0] == [];
    InvariantHolds(ViewStep, v => Same(v, v0.ctrl, start), v0, run);
    var v := Exec(ViewStep, v0, run).value;
    upto := HandledUpto(v);
    if forall i :: 0 <= i < |v.written| ==> v.written[i] {
      AllWritten(v.s.log[start..upto], v.written);
    }
  }

  lemma HandledUpto(v: View) returns (upto: nat)
    requires ViewInv(v) && v.s.ws[v.ctrl].actor == ""
    ensures var w := v.s.ws[v.ctrl];
      && upto == w.start + |v.written| <= w.pos <= upto + 2 && upto <= |v.s.log|
      && v.table == FoldWritten(v.s.log[w.start..upto], v.written)
      && (UpToDate(v) ==> upto == w.pos)
  {
    var w := v.s.ws[v.ctrl];
    upto := w.start + |v.written|;
    HandledStretch(v.s.log, |v.s.ring.slots|, v.s.ring.gap, w, |v.written|);
  }

  lemma Unfiltered(log: seq<Event>, cap: nat, gap: int, w: Watcher)
    requires WatcherInv(log, cap, gap, w) && w.actor == ""
    ensures Handed(w.given) <= log[w.start..w.pos] && |w.given| <= w.pos - w.start <= |w.given| + 1
    ensures !w.pc.Sending? && !w.pc.Ended? ==> w.pos - w.start == |w.given|
  {
    SelectAll(log[w.start..w.pos]);
  }

  /** The first n events that an unfiltered watcher was handed are the log from its start to n events on. */
  lemma HandledStretch(log: seq<Event>, cap: nat, gap: int, w: Watcher, n: nat)
    requires WatcherInv(log, cap, gap, w) && w.actor == "" && n <= |w.given| <= n + 1
    ensures w.start + n <= w.pos <= w.start + n + 2
    ensures Handed(w.given[..n]) == log[w.start..w.start + n]
    ensures n == |w.given| && !w.pc.Sending? && !w.pc.Ended? ==> w.start + n == w.pos
  {
    Unfiltered(log, cap, gap, w);
    FirstHanded(log, w.start, w.pos, w.given, n);
  }

  lemma FirstHanded(log: seq<Event>, start: nat, pos: nat, given: seq<EventInfo>, n: nat)
    requires start <= pos <= |log| && n <= |given| && Handed(given) <= log[start..pos]
    ensures start + n <= pos && Handed(given[..n]) == log[start..start + n]
  {
    HandedPrefix(given, n);
    PrefixOfSlice(Handed(given), log, start, pos, n);
  }

  lemma PrefixOfSlice<T>(h: seq<T>, log: seq<T>, start: nat, pos: nat, n: nat)
    requires start <= pos <= |log| && n <= |h| && h <= log[start..pos]
    ensures start + n <= pos && h[..n] == log[start..start + n]
  {
    assert h == log[start..pos][..|h|];
    assert h == log[start..start + |h|];
    assert h[..n] == log[start..start + |h|][..n];
  }

  lemma {:induction false} HandedPrefix(given: seq<EventInfo>, n: nat)
    requires n <= |given|
    ensures Handed(given[..n]) == Handed(given)[..n]
    decreases |given|
  {
    if n < |given| {
      HandedPrefix(given[..|given| - 1], n);
      assert given[..|given| - 1][..n] == given[..n];
    } else {
      assert given[..n] == given;
    }
  }

  /** Once the controller has caught up from the beginning of the stream, a Service resource exists exactly for the services
      whose last event that could be written is RUNNING, and it carries the health of that event; that is the last
      event published for the service if its write succeeded, whatever writes failed before. */
  lemma CaughtUp(v0: View, run: seq<ViewLabel>, service: string)
    requires StreamInv(v0.s) && Fresh(v0) && Exec(ViewStep, v0, run).Some?
    requires v0.s.ws[v0.ctrl].start == 0
    requires var v := Exec(ViewStep, v0, run).value;
      v.ctrl < |v.s.ws| && v.s.ws[v.ctrl].pos == |v.s.log| && UpToDate(v)
    ensures var v := Exec(ViewStep, v0, run).value;
      && |v.written| == |v.s.log|
      && Shows(v.table, service, LastShown(service, v.s.log, v.written))
      && (LastWritten(service, v.s.log, v.written) ==> Shows(v.table, service, LastFor(service, v.s.log)))
  {
    var v := Exec(ViewStep, v0, run).value;
    var upto := TableFollowsLog(v0, run);
    assert v.s.log[0..upto] == v.s.log;
    WrittenIsShown(v.s.log, v.written, service);
  }

  /** The controller starts at position 0 unless the stream already holds more than capacity - gap events. */
  lemma StartsAtZero(r: Ring, opts: WatchOptions, now: int, pos: nat)
    requires r.Valid() && opts.tailEvents < 0 && StartOk(r, opts, now, pos)
    ensures pos == 0 <==> r.writePos <= |r.slots| - r.gap
  {
  }
}
