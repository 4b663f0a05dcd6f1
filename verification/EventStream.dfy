/** The runtime event stream (v1alpha1_events.go): a ring buffer that many consumers read at their own pace. */
module EventStream {
  import opened Common

  // An xid is 12 bytes compared as a big-endian number; its first 4 bytes are seconds. The nil id is 0.
  const TWO_64: nat := 0x1_0000_0000_0000_0000
  type Xid = x: nat | x < 0x1_0000_0000 * TWO_64 witness 0

  function IdSeconds(id: Xid): nat {
    id / TWO_64
  }

  datatype Health = Health(unknown: bool, healthy: bool)

  /** What the payload decodes to: a service state event, or nothing. */
  datatype Payload = Garbage | StateEvent(service: string, action: int, health: Health)

  datatype Event = Event(id: Xid, payload: Payload, actor: string)

  datatype EventInfo = EventInfo(event: Event, backlog: nat)

  // ---------------------------------------------------------------------------------------------
  // Watch options

  datatype WatchOptions = WatchOptions(tailEvents: int, tailID: Xid, tailDuration: int, actorID: string) {
    /** At most one of the three ways to look back. */
    predicate OneTail() {
      && (tailEvents != 0 ==> tailID == 0 && tailDuration == 0)
      && (tailID != 0 ==> tailDuration == 0)
    }
  }

  const NO_OPTIONS := WatchOptions(0, 0, 0, "")

  datatype WatchOption =
    | WithTailEvents(number: int)
    | WithTailID(id: Xid)
    | WithTailDuration(duration: int)
    | WithActorID(actorID: string)

  /** One option; None is its error. */
  function Apply(o: WatchOption, opts: WatchOptions): Option<WatchOptions>
  {
    match o
    case WithTailEvents(n) =>
      if opts.tailID != 0 || opts.tailDuration != 0 then None else Some(opts.(tailEvents := n))
    case WithTailID(id) =>
      if opts.tailEvents != 0 || opts.tailDuration != 0 then None else Some(opts.(tailID := id))
    case WithTailDuration(d) =>
      if opts.tailEvents != 0 || opts.tailID != 0 then None else Some(opts.(tailDuration := d))
    case WithActorID(a) => Some(opts.(actorID := a))
  }

  function ApplyAll(os: seq<WatchOption>): Option<WatchOptions>
  {
    if os == [] then Some(NO_OPTIONS)
    else
      match ApplyAll(os[..|os| - 1])
      case None => None
      case Some(opts) => Apply(Last(os), opts)
  }

  /** The last number given to WithTailEvents, 0 if none was. */
  function LastTailEvents(os: seq<WatchOption>): int
  {
    if os == [] then 0
    else if Last(os).WithTailEvents? then Last(os).number
    else LastTailEvents(os[..|os| - 1])
  }

  function LastTailID(os: seq<WatchOption>): Xid
  {
    if os == [] then 0 else if Last(os).WithTailID? then Last(os).id else LastTailID(os[..|os| - 1])
  }

  function LastTailDuration(os: seq<WatchOption>): int
  {
    if os == [] then 0 else if Last(os).WithTailDuration? then Last(os).duration else LastTailDuration(os[..|os| - 1])
  }

  function LastActorID(os: seq<WatchOption>): string
  {
    if os == [] then "" else if Last(os).WithActorID? then Last(os).actorID else LastActorID(os[..|os| - 1])
  }

  /** The option may follow os: the other two ways to look back were not set, or have been cleared again. */
  predicate MayFollow(os: seq<WatchOption>, o: WatchOption)
  {
    match o
    case WithTailEvents(_) => LastTailID(os) == 0 && LastTailDuration(os) == 0
    case WithTailID(_) => LastTailEvents(os) == 0 && LastTailDuration(os) == 0
    case WithTailDuration(_) => LastTailEvents(os) == 0 && LastTailID(os) == 0
    case WithActorID(_) => true
  }

  /** A list is accepted if and only if each of its options may follow those before it; then the last option of each kind
      counts, and at most one of the three ways to look back is left set. */
  lemma {:induction false} AcceptedOptions(os: seq<WatchOption>)
    ensures ApplyAll(os).Some? <==> forall i :: 0 <= i < |os| ==> MayFollow(os[..i], os[i])
    ensures ApplyAll(os).Some? ==>
      && var opts := ApplyAll(os).value;
      && opts == WatchOptions(LastTailEvents(os), LastTailID(os), LastTailDuration(os), LastActorID(os))
      && (opts.tailEvents == 0 || opts.tailID == 0) && (opts.tailEvents == 0 || opts.tailDuration == 0)
      && (opts.tailID == 0 || opts.tailDuration == 0) && opts.OneTail()
  {
    if os != [] {
      var v := os[..|os| - 1];
      AcceptedOptions(v);
      assert forall i :: 0 <= i < |v| ==> v[..i] == os[..i] && v[i] == os[i];
      if ApplyAll(v).Some? && MayFollow(v, Last(os)) {
        forall i | 0 <= i < |os| ensures MayFollow(os[..i], os[i]) {
          assert i < |v| ==> MayFollow(v[..i], v[i]);
        }
      }
      if forall i :: 0 <= i < |os| ==> MayFollow(os[..i], os[i]) {
        assert MayFollow(os[..|v|], os[|v|]);
        assert forall i :: 0 <= i < |v| ==> MayFollow(v[..i], v[i]);
      }
    }
  }

  // ---------------------------------------------------------------------------------------------
  // The ring

  /** The stream: capacity |slots|, writePos the number of events ever published. */
  datatype Ring = Ring(slots: seq<Event>, writePos: nat, gap: int) {
    /** A ring without slots, which a negative gap allows, can be watched but not published to. */
    predicate Valid() {
      gap < |slots| && (slots == [] ==> writePos == 0)
    }

    function Slot(pos: nat): Event
      requires slots != []
    {
      slots[pos % |slots|]
    }

    function Put(e: Event): Ring
      requires slots != []
    {
      Ring(slots[writePos % |slots| := e], writePos + 1, gap)
    }

    /** The oldest position that a consumer may start from. */
    function MinPos(): nat
      requires Valid()
    {
      if writePos < |slots| - gap then 0 else writePos - (|slots| - gap)
    }
  }

  /** The ring holds the last |slots| events of the log. */
  ghost predicate Retains(r: Ring, log: seq<Event>)
  {
    && r.Valid()
    && r.writePos == |log|
    && forall k :: 0 <= k < |log| && |log| - |r.slots| <= k ==> r.slots[k % |r.slots|] == log[k]
  }

  lemma NoMultiple(n: nat, q: int)
    requires 0 < n
    ensures n * q <= 0 || n * q >= n
  {
    if q >= 1 {
      assert n * q == n * (q - 1) + n;
    }
  }

  lemma SlotsApart(a: nat, b: nat, n: nat)
    requires 0 < n && a < b < a + n
    ensures a % n != b % n
  {
    var p, q := a / n, b / n;
    assert a == n * p + a % n;
    assert b == n * q + b % n;
    assert n * q - n * p == n * (q - p);
    NoMultiple(n, q - p);
  }

  /** Publishing appends to the log, and overwrites only an event that is out of reach. */
  lemma PutRetains(r: Ring, log: seq<Event>, e: Event)
    requires Retains(r, log) && r.slots != []
    ensures Retains(r.Put(e), log + [e])
  {
    var n := |r.slots|;
    forall k | 0 <= k < |log| && |log| + 1 - n <= k ensures r.Put(e).slots[k % n] == log[k] {
      SlotsApart(k, |log|, n);
    }
  }

  // ---------------------------------------------------------------------------------------------
  // Start positions

  /** The event is after the one with TailID, or its second is after the cut-off (in nanoseconds). */
  predicate After(opts: WatchOptions, now: int, e: Event)
  {
    if opts.tailID != 0 then e.id > opts.tailID
    else IdSeconds(e.id) * 1_000_000_000 > now - opts.tailDuration
  }

  predicate Searches(opts: WatchOptions) {
    opts.tailEvents == 0 && (opts.tailID != 0 || opts.tailDuration != 0)
  }

  /** What Watch promises of the position it starts from. */
  predicate StartOk(r: Ring, opts: WatchOptions, now: int, pos: nat)
    requires r.Valid()
  {
    && r.MinPos() <= pos <= r.writePos
    && (opts.tailEvents < 0 ==> pos == r.MinPos())
    && (opts.tailEvents > 0 ==> pos == if r.writePos - opts.tailEvents < r.MinPos() then r.MinPos() else r.writePos - opts.tailEvents)
    && (opts.tailEvents == 0 && !Searches(opts) ==> pos == r.writePos)
    && (Searches(opts) ==>
      && (r.MinPos() < pos ==> !After(opts, now, r.Slot(pos - 1)))
      && (pos < r.writePos ==> After(opts, now, r.Slot(pos))))
  }

  /** The ids from position from on are in order. */
  predicate AscendingFrom(log: seq<Event>, from: nat)
  {
    forall i, j :: from <= i < j < |log| ==> log[i].id <= log[j].id
  }

  /** The seconds of the ids from position from on are in order: all that WithTailDuration looks at. */
  predicate SecondsAscendFrom(log: seq<Event>, from: nat)
  {
    forall i, j :: from <= i < j < |log| ==> IdSeconds(log[i].id) <= IdSeconds(log[j].id)
  }

  /** Nothing that a watcher may start from has been overwritten: so it is for gaps that are not negative, and for others as
      long as the ring has not wrapped. */
  predicate WindowRetained(r: Ring)
    requires r.Valid()
  {
    r.gap >= 0 || r.writePos <= |r.slots|
  }

  /** The available events are in the order that the search relies on. */
  predicate InOrder(log: seq<Event>, from: nat, opts: WatchOptions)
  {
    if opts.tailID != 0 then AscendingFrom(log, from) else SecondsAscendFrom(log, from)
  }

  /** The available events from pos on are those with a greater id than TailID, or of a second after the cut-off. */
  ghost predicate Exact(r: Ring, log: seq<Event>, opts: WatchOptions, now: int, pos: nat)
    requires r.Valid()
  {
    forall k :: r.MinPos() <= k < |log| ==>
      (pos <= k <==> if opts.tailID != 0 then log[k].id > opts.tailID else SinceCutOff(opts, now, log[k]) > 0)
  }

  /** The time of the event, against the cut-off of WithTailDuration. */
  function SinceCutOff(opts: WatchOptions, now: int, e: Event): int {
    IdSeconds(e.id) * 1_000_000_000 - (now - opts.tailDuration)
  }

  /** With events in order, the search starts exactly at the first available event after the mark. */
  lemma SearchFindsFirst(r: Ring, log: seq<Event>, opts: WatchOptions, now: int, pos: nat)
    requires Retains(r, log) && WindowRetained(r) && InOrder(log, r.MinPos(), opts)
    requires Searches(opts) && StartOk(r, opts, now, pos)
    ensures Exact(r, log, opts, now, pos)
  {
    forall k | r.MinPos() <= k < pos ensures !After(opts, now, log[k]) {
      assert !After(opts, now, log[pos - 1]);
    }
    forall k | pos <= k < |log| ensures After(opts, now, log[k]) {
      assert After(opts, now, log[pos]);
    }
  }

  /** There is always a position that the search may return. */
  lemma {:induction false} SomeBoundary(r: Ring, opts: WatchOptions, now: int, top: nat) returns (pos: nat)
    requires r.Valid() && r.MinPos() <= top <= r.writePos
    requires top < r.writePos ==> After(opts, now, r.Slot(top))
    ensures r.MinPos() <= pos <= top
    ensures r.MinPos() < pos ==> !After(opts, now, r.Slot(pos - 1))
    ensures pos < r.writePos ==> After(opts, now, r.Slot(pos))
    decreases top
  {
    if top == r.MinPos() || !After(opts, now, r.Slot(top - 1)) {
      pos := top;
    } else {
      pos := SomeBoundary(r, opts, now, top - 1);
    }
  }

  function ByID(id: Xid): WatchOptions {
    NO_OPTIONS.(tailID := id)
  }

  /** Every search for an id starts where it should. */
  ghost predicate SearchesAreExact(r: Ring, log: seq<Event>, now: int)
    requires r.Valid()
  {
    forall id: Xid, pos: nat :: id != 0 && StartOk(r, ByID(id), now, pos) ==> Exact(r, log, ByID(id), now, pos)
  }

  /** Two available events out of order make the search for the id of the later one start at the wrong place. */
  lemma InversionMisleads(r: Ring, log: seq<Event>, now: int, i: nat, j: nat)
    requires Retains(r, log) && r.MinPos() <= i < j < |log| && log[i].id > log[j].id != 0
    ensures !SearchesAreExact(r, log, now)
  {
    var opts := ByID(log[j].id);
    var pos := SomeBoundary(r, opts, now, r.writePos);
    assert StartOk(r, opts, now, pos);
    assert After(opts, now, log[i]) && !After(opts, now, log[j]);
    assert !Exact(r, log, opts, now, pos);
  }

  /** Ascending ids are the exact condition: every search for an id starts at the first available event after it if and only if
      the available events are in the order of their ids. Ids are made before the lock is taken, so they may not be. */
  lemma ExactIffAscending(r: Ring, log: seq<Event>, now: int)
    requires Retains(r, log) && WindowRetained(r)
    requires forall k :: r.MinPos() <= k < |log| ==> log[k].id != 0
    ensures SearchesAreExact(r, log, now) <==> AscendingFrom(log, r.MinPos())
  {
    if AscendingFrom(log, r.MinPos()) {
      forall id: Xid, pos: nat | id != 0 && StartOk(r, ByID(id), now, pos) ensures Exact(r, log, ByID(id), now, pos) {
        SearchFindsFirst(r, log, ByID(id), now, pos);
      }
    } else {
      var i, j :| r.MinPos() <= i < j < |log| && log[i].id > log[j].id;
      InversionMisleads(r, log, now, i, j);
    }
  }

  function ByDuration(d: int): WatchOptions {
    NO_OPTIONS.(tailDuration := d)
  }

  /** Every search for a duration, at any time, starts where it should. */
  ghost predicate DurationsAreExact(r: Ring, log: seq<Event>)
    requires r.Valid()
  {
    forall d: int, now: int, pos: nat ::
      d != 0 && StartOk(r, ByDuration(d), now, pos) ==> Exact(r, log, ByDuration(d), now, pos)
  }

  /** Two available events whose seconds are out of order mislead the search whose cut-off is the second of the later one. */
  lemma SecondsMislead(r: Ring, log: seq<Event>, i: nat, j: nat)
    requires Retains(r, log) && r.MinPos() <= i < j < |log| && IdSeconds(log[i].id) > IdSeconds(log[j].id)
    ensures !DurationsAreExact(r, log)
  {
    var opts, now := ByDuration(1), IdSeconds(log[j].id) * 1_000_000_000 + 1;
    var pos := SomeBoundary(r, opts, now, r.writePos);
    assert StartOk(r, opts, now, pos);
    assert After(opts, now, log[i]) && !After(opts, now, log[j]);
    assert !Exact(r, log, opts, now, pos);
  }

  /** For durations the exact condition is weaker, as ids count by their seconds: every search for a duration starts at the
      first available event after its cut-off if and only if the seconds of the available events are in order. */
  lemma DurationsExactIffSecondsAscend(r: Ring, log: seq<Event>)
    requires Retains(r, log) && WindowRetained(r)
    ensures DurationsAreExact(r, log) <==> SecondsAscendFrom(log, r.MinPos())
  {
    if SecondsAscendFrom(log, r.MinPos()) {
      forall d: int, now: int, pos: nat | d != 0 && StartOk(r, ByDuration(d), now, pos)
        ensures Exact(r, log, ByDuration(d), now, pos)
      {
        SearchFindsFirst(r, log, ByDuration(d), now, pos);
      }
    } else {
      var i, j :| r.MinPos() <= i < j < |log| && IdSeconds(log[i].id) > IdSeconds(log[j].id);
      SecondsMislead(r, log, i, j);
    }
  }

  /** Where WithTailDuration is documented to start: at the first available event at or after the cut-off. */
  ghost predicate AsDocumented(r: Ring, log: seq<Event>, opts: WatchOptions, now: int, pos: nat)
    requires r.Valid()
  {
    && (forall k :: r.MinPos() <= k < pos && k < |log| ==> SinceCutOff(opts, now, log[k]) < 0)
    && (forall k :: pos <= k < |log| ==> SinceCutOff(opts, now, log[k]) >= 0)
  }

  /** With seconds in order, the code starts where it is documented to if and only if no available event lies on the cut-off. */
  lemma DocumentedIffNoneOnCutOff(r: Ring, log: seq<Event>, opts: WatchOptions, now: int, pos: nat)
    requires Retains(r, log) && WindowRetained(r) && SecondsAscendFrom(log, r.MinPos())
    requires opts.tailEvents == 0 && opts.tailID == 0 && opts.tailDuration != 0 && StartOk(r, opts, now, pos)
    ensures AsDocumented(r, log, opts, now, pos)
       <==> forall k :: r.MinPos() <= k < |log| ==> SinceCutOff(opts, now, log[k]) != 0
  {
    SearchFindsFirst(r, log, opts, now, pos);
    assert forall k :: 0 <= k < |log| ==> (After(opts, now, log[k]) <==> SinceCutOff(opts, now, log[k]) > 0);
  }

  /** They differ on a stream of one event, made at second 1, that is watched from 5 nanoseconds before second 1 and 5. */
  lemma CutOffIsLeftOut() returns (r: Ring, log: seq<Event>, opts: WatchOptions, now: int)
    ensures Retains(r, log) && opts.tailDuration == 5 && opts.tailEvents == 0 && opts.tailID == 0
    ensures StartOk(r, opts, now, 1) && !AsDocumented(r, log, opts, now, 1) && AsDocumented(r, log, opts, now, 0)
  {
    var e := Event(TWO_64, Garbage, "");
    r, log, opts, now := Ring([e, e], 1, 1), [e], NO_OPTIONS.(tailDuration := 5), 1_000_000_005;
    assert IdSeconds(e.id) == 1;
    assert r.MinPos() == 0 && r.Slot(0) == e && log[0] == e;
  }

  /** WithTailEvents(n) with n > 0 leaves exactly the last min(n, available) events pending, a negative n all of them, and
      no way to look back none; available is the history of at most capacity - gap events. */
  lemma TailEventsPending(r: Ring, log: seq<Event>, opts: WatchOptions, now: int, pos: nat)
    requires Retains(r, log) && opts.tailID == 0 && opts.tailDuration == 0 && StartOk(r, opts, now, pos)
    ensures var available := if |log| < |r.slots| - r.gap then |log| else |r.slots| - r.gap;
      |log| - pos == if 0 <= opts.tailEvents < available then opts.tailEvents else if opts.tailEvents == 0 then 0 else available
  {
  }

  // ---------------------------------------------------------------------------------------------
  // One look of a consumer at the ring

  datatype Look = Caught | Overrun | Item(event: Event, backlog: nat)

  function LookAt(r: Ring, pos: nat): Look
    requires r.Valid() && pos <= r.writePos
  {
    if pos == r.writePos then Caught
    else if r.writePos - pos >= |r.slots| then Overrun
    else Item(r.Slot(pos), r.writePos - (pos + 1))
  }

  /** A consumer that is not overrun reads the log, whatever has been overwritten meanwhile. */
  lemma LookReadsLog(r: Ring, log: seq<Event>, pos: nat)
    requires Retains(r, log) && pos <= |log|
    ensures LookAt(r, pos).Caught? <==> pos == |log|
    ensures LookAt(r, pos).Overrun? <==> pos < |log| && |log| - pos >= |r.slots|
    ensures LookAt(r, pos).Item? ==> LookAt(r, pos) == Item(log[pos], |log| - pos - 1)
  {
  }

  // ---------------------------------------------------------------------------------------------
  // The code under the mutex

  /** Events. */
  class Events {
    const stream: array<Event>
    const gap: int
    var writePos: nat

    ghost predicate Valid()
      reads this
    {
      gap < stream.Length && (stream.Length == 0 ==> writePos == 0)
    }

    ghost function View(): Ring
      reads this, stream
    {
      Ring(stream[..], writePos, gap)
    }

    constructor (capacity: nat, gap: int)
      requires gap < capacity
      ensures Valid() && fresh(stream) && stream.Length == capacity && this.gap == gap && writePos == 0
      ensures Retains(View(), [])
    {
      this.stream := new Event[capacity](_ => Event(0, Garbage, ""));
      this.gap := gap;
      writePos := 0;
    }

    /** Without slots, the index divides by zero. */
    method Publish(e: Event) returns (panicked: bool)
      requires Valid()
      modifies this`writePos, stream
      ensures Valid() && (panicked <==> stream.Length == 0)
      ensures View() == if panicked then old(View()) else old(View()).Put(e)
    {
      if stream.Length == 0 { return true; }
      stream[writePos % stream.Length] := e;
      writePos := writePos + 1;
      assert View().slots == old(View()).Put(e).slots;
      panicked := false;
    }

    /** The start position of Watch. */
    method StartPosition(opts: WatchOptions, now: int) returns (pos: nat)
      requires Valid() && opts.OneTail()
      ensures StartOk(View(), opts, now, pos)
    {
      pos := writePos;
      var minPos := writePos - (stream.Length - gap);
      if minPos < 0 { minPos := 0; }
      if opts.tailEvents != 0 {
        if opts.tailEvents < 0 {
          pos := minPos;
        } else {
          pos := if writePos - opts.tailEvents < minPos then minPos else writePos - opts.tailEvents;
        }
      } else if opts.tailID != 0 || opts.tailDuration != 0 {
        pos := Search(minPos, opts, now);
      }
    }

    /** sort.Search over the wrapped buffer from minPos to writePos. */
    method Search(minPos: nat, opts: WatchOptions, now: int) returns (pos: nat)
      requires Valid() && minPos <= writePos
      ensures minPos <= pos <= writePos
      ensures minPos < pos ==> !After(opts, now, View().Slot(pos - 1))
      ensures pos < writePos ==> After(opts, now, View().Slot(pos))
    {
      var i, j := 0, writePos - minPos;
      while i < j
        invariant 0 <= i <= j <= writePos - minPos
        invariant 0 < i ==> !After(opts, now, View().Slot(minPos + i - 1))
        invariant j < writePos - minPos ==> After(opts, now, View().Slot(minPos + j))
      {
        var h := (i + j) / 2;
        if !After(opts, now, stream[(minPos + h) % stream.Length]) {
          i := h + 1;
        } else {
          j := h;
        }
      }
      pos := minPos + i;
    }

    /** The locked part of the consumer loop; the consumer sleeps on Caught and stops on Overrun. */
    method Read(pos: nat) returns (look: Look, next: nat)
      requires Valid() && pos <= writePos
      ensures look == LookAt(View(), pos)
      ensures next == if look.Item? then pos + 1 else pos
    {
      if pos == writePos { return Caught, pos; }
      if writePos - pos >= stream.Length { return Overrun, pos; }
      var event := stream[pos % stream.Length];
      next := pos + 1;
      look := Item(event, writePos - next);
    }
  }

  /** The options as Watch applies them. */
  method ApplyOptions(os: seq<WatchOption>) returns (r: Option<WatchOptions>)
    ensures r == ApplyAll(os)
  {
    var opts := NO_OPTIONS;
    for i := 0 to |os|
      invariant ApplyAll(os[..i]) == Some(opts)
    {
      assert os[..i + 1][..i] == os[..i];
      var next := Apply(os[i], opts);
      if next.None? {
        RejectedPrefix(os, i + 1);
        return None;
      }
      opts := next.value;
    }
    assert os[..|os|] == os;
    r := Some(opts);
  }

  lemma {:induction false} RejectedPrefix(os: seq<WatchOption>, i: nat)
    requires i <= |os| && ApplyAll(os[..i]).None?
    ensures ApplyAll(os).None?
    decreases |os|
  {
    if i < |os| {
      assert os[..|os| - 1][..i] == os[..i];
      RejectedPrefix(os[..|os| - 1], i);
    } else {
      assert os[..i] == os;
    }
  }
}
