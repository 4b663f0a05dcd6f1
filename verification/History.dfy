/** The bounded history of one service (system/events/events.go). */
module History {
  import opened Common
  import opened Restart

  const MAX_EVENTS_TO_KEEP: nat := 64

  datatype ServiceEvent = ServiceEvent(message: string, state: SState, healthy: Option<bool>)

  const NO_EVENT := ServiceEvent("", Initialized, None)

  /** The events with a message, in order: an empty message marks an empty slot. */
  function Named(es: seq<ServiceEvent>): seq<ServiceEvent>
  {
    if es == [] then []
    else Named(es[..|es| - 1]) + if Last(es).message != "" then [Last(es)] else []
  }

  lemma NamedSnoc(es: seq<ServiceEvent>, e: ServiceEvent)
    ensures Named(es + [e]) == Named(es) + if e.message != "" then [e] else []
  {
    assert (es + [e])[..|es + [e]| - 1] == es;
  }

  /** All but the last n. */
  function Older<T>(es: seq<T>, n: nat): seq<T> {
    if |es| <= n then [] else es[..|es| - n]
  }

  /** The last n, or all. */
  function Latest<T>(es: seq<T>, n: nat): seq<T> {
    if |es| <= n then es else es[|es| - n..]
  }

  /** The slots hold the last 64 pushes, each at its number modulo 64. */
  ghost predicate Retained(slots: seq<ServiceEvent>, pushed: seq<ServiceEvent>)
  {
    && |slots| == MAX_EVENTS_TO_KEEP
    && (forall k :: 0 <= k < |pushed| && |pushed| - MAX_EVENTS_TO_KEEP <= k ==> slots[k % MAX_EVENTS_TO_KEEP] == pushed[k])
    && (forall i :: |pushed| <= i < MAX_EVENTS_TO_KEEP ==> slots[i].message == "")
  }

  lemma RetainPush(slots: seq<ServiceEvent>, pushed: seq<ServiceEvent>, e: ServiceEvent)
    requires Retained(slots, pushed)
    ensures Retained(slots[|pushed| % MAX_EVENTS_TO_KEEP := e], pushed + [e])
  {
    forall k | 0 <= k < |pushed| && |pushed| + 1 - MAX_EVENTS_TO_KEEP <= k
      ensures slots[|pushed| % MAX_EVENTS_TO_KEEP := e][k % MAX_EVENTS_TO_KEEP] == pushed[k]
    {
      assert k % 64 != |pushed| % 64;
    }
  }

  lemma Wraps(a: int)
    ensures (a % MAX_EVENTS_TO_KEEP + 1) % MAX_EVENTS_TO_KEEP == (a + 1) % MAX_EVENTS_TO_KEEP
    ensures (a - MAX_EVENTS_TO_KEEP) % MAX_EVENTS_TO_KEEP == a % MAX_EVENTS_TO_KEEP
  {
  }

  lemma StartIndex(a: nat, left: int)
    requires left <= MAX_EVENTS_TO_KEEP
    ensures (a % MAX_EVENTS_TO_KEEP - left + MAX_EVENTS_TO_KEEP) % MAX_EVENTS_TO_KEEP == (a - left) % MAX_EVENTS_TO_KEEP
  {
    var q := a / MAX_EVENTS_TO_KEEP;
    assert a - left == (a % MAX_EVENTS_TO_KEEP - left) + q * MAX_EVENTS_TO_KEEP;
  }

  /** The slot that is left pushes back: that event, or an empty slot if there were not so many. */
  lemma SlotOf(slots: seq<ServiceEvent>, pushed: seq<ServiceEvent>, left: nat)
    requires Retained(slots, pushed) && 0 < left <= MAX_EVENTS_TO_KEEP
    ensures left <= |pushed| ==> slots[(|pushed| - left) % MAX_EVENTS_TO_KEEP] == pushed[|pushed| - left]
    ensures left > |pushed| ==> slots[(|pushed| - left) % MAX_EVENTS_TO_KEEP].message == ""
  {
    if left > |pushed| {
      assert (|pushed| - left) % 64 == |pushed| - left + 64;
    }
  }

  lemma Discards(slots: seq<ServiceEvent>, pushed: seq<ServiceEvent>, e: ServiceEvent)
    requires Retained(slots, pushed)
    ensures |Named(Older(pushed + [e], MAX_EVENTS_TO_KEEP))|
         == |Named(Older(pushed, MAX_EVENTS_TO_KEEP))| + if slots[|pushed| % MAX_EVENTS_TO_KEEP].message != "" then 1 else 0
  {
    Wraps(|pushed|);
    SlotOf(slots, pushed, MAX_EVENTS_TO_KEEP);
    OlderSnoc(pushed, e);
  }

  /** What one push does to the ring, the position and the number of events pushed out. */
  lemma PushFacts(slots: seq<ServiceEvent>, pushed: seq<ServiceEvent>, e: ServiceEvent)
    requires Retained(slots, pushed)
    ensures var pos := |pushed| % MAX_EVENTS_TO_KEEP;
      && Retained(slots[pos := e], pushed + [e])
      && (pos + 1) % MAX_EVENTS_TO_KEEP == |pushed + [e]| % MAX_EVENTS_TO_KEEP
      && |Named(Older(pushed + [e], MAX_EVENTS_TO_KEEP))|
         == |Named(Older(pushed, MAX_EVENTS_TO_KEEP))| + if slots[pos].message != "" then 1 else 0
  {
    RetainPush(slots, pushed, e);
    Wraps(|pushed|);
    Discards(slots, pushed, e);
  }

  class ServiceEvents {
    var events: array?<ServiceEvent>
    var pos: nat
    var discarded: nat
    ghost var pushed: seq<ServiceEvent>   // every event ever pushed

    ghost predicate Valid()
      reads this, events
    {
      && discarded == |Named(Older(pushed, MAX_EVENTS_TO_KEEP))|
      && pos == |pushed| % MAX_EVENTS_TO_KEEP
      && (events == null <==> pushed == [])
      && (events != null ==> Retained(events[..], pushed))
    }

    constructor ()
      ensures Valid() && pushed == []
    {
      events, pos, discarded, pushed := null, 0, 0, [];
    }

    /** discarded counts the events that were pushed out: the named ones among all but the last 64. */
    method Push(event: ServiceEvent)
      requires Valid()
      modifies this, events
      ensures Valid() && pushed == old(pushed) + [event]
      ensures events == old(events) || fresh(events)
      ensures discarded == |Named(Older(pushed, MAX_EVENTS_TO_KEEP))|
    {
      if events == null {
        events := new ServiceEvent[MAX_EVENTS_TO_KEEP](_ => NO_EVENT);
      }
      ghost var slots := events[..];
      PushFacts(slots, pushed, event);
      if events[pos].message != "" {
        discarded := discarded + 1;
      }
      events[pos] := event;
      assert events[..] == slots[pos := event];
      pos := (pos + 1) % events.Length;
      pushed := pushed + [event];
    }

    /** The named events among the last min(count, 64) pushes, oldest first; none for a count of 0 or less. */
    method Get(count: int) returns (result: seq<ServiceEvent>)
      requires Valid()
      ensures count <= 0 ==> result == []
      ensures count > 0 ==>
        result == Named(Latest(pushed, if count > MAX_EVENTS_TO_KEEP then MAX_EVENTS_TO_KEEP else count))
    {
      result := [];
      if events == null {
        assert forall n: nat {:trigger Latest(pushed, n)} :: Latest(pushed, n) == [];
        return;
      }
      var left := if count > MAX_EVENTS_TO_KEEP then MAX_EVENTS_TO_KEEP else count;
      if left > 0 {
        result := Collect(left);
      }
    }

    /** The loop of Get, for a count within the capacity. */
    method Collect(count: nat) returns (result: seq<ServiceEvent>)
      requires Valid() && events != null && 0 < count <= MAX_EVENTS_TO_KEEP
      ensures result == Named(Latest(pushed, count))
    {
      result := [];
      var n := events.Length;
      var left := count;
      ghost var slots := events[..];
      assert n == MAX_EVENTS_TO_KEEP;
      FirstTurn(slots, pushed, count);
      var i: nat := (pos - left + n) % n;
      while left > 0
        invariant 0 <= left <= count
        invariant Collecting(slots, pushed, count, left, i, result)
      {
        Turn(slots, pushed, count, left, i, result);
        if events[i].message != "" {
          result := result + [events[i]];
        } else {
          assert result + [] == result;
        }
        left := left - 1;
        i := (i + 1) % n;
      }
      LastTurn(slots, pushed, count, i, result);
    }
  }

  lemma OlderByOne<T>(l: seq<T>, left: nat)
    requires 0 < left <= |l|
    ensures Older(l, left - 1) == Older(l, left) + [l[|l| - left]]
  {
  }

  /** Dropping one event fewer from the last all of es. */
  lemma LatestSplit(es: seq<ServiceEvent>, all: nat, left: nat)
    requires 0 < left <= all
    ensures left > |es| ==> Older(Latest(es, all), left - 1) == Older(Latest(es, all), left) == []
    ensures left <= |es| ==>
      Named(Older(Latest(es, all), left - 1))
      == Named(Older(Latest(es, all), left)) + if es[|es| - left].message != "" then [es[|es| - left]] else []
  {
    if left <= |es| {
      var l := Latest(es, all);
      OlderByOne(l, left);
      NamedSnoc(Older(l, left), es[|es| - left]);
    }
  }

  /** What is left to collect when the loop of Get stands at slot i with left slots to go. */
  ghost predicate Collecting(slots: seq<ServiceEvent>, pushed: seq<ServiceEvent>, count: nat, left: nat, i: nat,
                             result: seq<ServiceEvent>)
  {
    && Retained(slots, pushed) && left <= count <= MAX_EVENTS_TO_KEEP
    && i == (|pushed| - left) % MAX_EVENTS_TO_KEEP
    && result == Named(Older(Latest(pushed, count), left))
  }

  lemma FirstTurn(slots: seq<ServiceEvent>, pushed: seq<ServiceEvent>, count: nat)
    requires Retained(slots, pushed) && count <= MAX_EVENTS_TO_KEEP
    ensures var pos := |pushed| % MAX_EVENTS_TO_KEEP;
      Collecting(slots, pushed, count, count, (pos - count + MAX_EVENTS_TO_KEEP) % MAX_EVENTS_TO_KEEP, [])
  {
    StartIndex(|pushed|, count);
    assert Older(Latest(pushed, count), count) == [];
  }

  /** One turn of the loop of Get: the slot that it looks at. */
  lemma TurnSlot(slots: seq<ServiceEvent>, pushed: seq<ServiceEvent>, left: nat, i: nat)
    requires Retained(slots, pushed) && 0 < left <= MAX_EVENTS_TO_KEEP && i == (|pushed| - left) % MAX_EVENTS_TO_KEEP
    ensures i < |slots|
    ensures if left <= |pushed| then slots[i] == pushed[|pushed| - left] else slots[i].message == ""
  {
    SlotOf(slots, pushed, left);
  }

  /** One turn of the loop of Get. */
  lemma Turn(slots: seq<ServiceEvent>, pushed: seq<ServiceEvent>, count: nat, left: nat, i: nat, result: seq<ServiceEvent>)
    requires Collecting(slots, pushed, count, left, i, result) && left > 0
    ensures i < |slots|
    ensures Collecting(slots, pushed, count, left - 1, (i + 1) % MAX_EVENTS_TO_KEEP,
                       result + if slots[i].message != "" then [slots[i]] else [])
  {
    TurnSlot(slots, pushed, left, i);
    NextIndex(|pushed|, left, i);
    TurnResult(pushed, count, left, slots[i], result);
  }

  lemma NextIndex(a: nat, left: nat, i: int)
    requires i == (a - left) % MAX_EVENTS_TO_KEEP
    ensures (i + 1) % MAX_EVENTS_TO_KEEP == (a - (left - 1)) % MAX_EVENTS_TO_KEEP
  {
    Wraps(a - left);
  }

  lemma TurnResult(pushed: seq<ServiceEvent>, count: nat, left: nat, e: ServiceEvent, result: seq<ServiceEvent>)
    requires 0 < left <= count && result == Named(Older(Latest(pushed, count), left))
    requires if left <= |pushed| then e == pushed[|pushed| - left] else e.message == ""
    ensures result + (if e.message != "" then [e] else []) == Named(Older(Latest(pushed, count), left - 1))
  {
    LatestSplit(pushed, count, left);
    if e.message == "" {
      assert result + [] == result;
    }
  }

  lemma LastTurn(slots: seq<ServiceEvent>, pushed: seq<ServiceEvent>, count: nat, i: nat, result: seq<ServiceEvent>)
    requires Collecting(slots, pushed, count, 0, i, result)
    ensures result == Named(Latest(pushed, count))
  {
    assert Older(Latest(pushed, count), 0) == Latest(pushed, count);
  }

  /** One push moves one event, the one 64 pushes back, out of the last 64. */
  lemma OlderSnoc(es: seq<ServiceEvent>, e: ServiceEvent)
    ensures |es| < MAX_EVENTS_TO_KEEP ==> Older(es + [e], MAX_EVENTS_TO_KEEP) == Older(es, MAX_EVENTS_TO_KEEP) == []
    ensures |es| >= MAX_EVENTS_TO_KEEP ==>
      Named(Older(es + [e], MAX_EVENTS_TO_KEEP))
      == Named(Older(es, MAX_EVENTS_TO_KEEP))
      + if es[|es| - MAX_EVENTS_TO_KEEP].message != "" then [es[|es| - MAX_EVENTS_TO_KEEP]] else []
  {
    if |es| >= MAX_EVENTS_TO_KEEP {
      var old64 := es[|es| - MAX_EVENTS_TO_KEEP];
      assert Older(es + [e], MAX_EVENTS_TO_KEEP) == Older(es, MAX_EVENTS_TO_KEEP) + [old64];
      NamedSnoc(Older(es, MAX_EVENTS_TO_KEEP), old64);
    }
  }
}
