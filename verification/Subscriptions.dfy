/** What the runner of one service shares under its mutex: the state, the health it reads under the health lock, and the
    subscribers of its events (service_runner.go, service_events.go, health/status.go). */
module Subscriptions {
  import opened Common
  import opened Restart

  datatype Ev = UpEv | DownEv | FinishedEv

  /** inStateLocked. health is None while it is unknown. */
  predicate InState(ev: Ev, state: SState, hc: bool, health: Option<bool>)
  {
    match ev
    case UpEv => state.Skipped? || (state.Running? && (!hc || health == Some(true)))
    case DownEv => Down(state)
    case FinishedEv => state.Finished?
  }

  /** The events of a state, in the order in which UpdateState notifies them. */
  function Flags(state: SState, hc: bool, health: Option<bool>): (evs: seq<Ev>)
    ensures forall ev :: ev in evs <==> InState(ev, state, hc, health)
  {
    (if InState(UpEv, state, hc, health) then [UpEv] else [])
    + (if InState(DownEv, state, hc, health) then [DownEv] else [])
    + (if InState(FinishedEv, state, hc, health) then [FinishedEv] else [])
  }

  /** The subscribers of an event; a missing key is an empty list. */
  function Of<T>(subs: map<Ev, seq<T>>, ev: Ev): seq<T> {
    if ev in subs then subs[ev] else []
  }

  /** The loop of Unsubscribe from index i on: the last channel takes the place of each removed one. */
  function SwapDelete<T(==)>(chs: seq<T>, i: nat, ch: T): seq<T>
    requires i <= |chs|
    decreases |chs| - i
  {
    if i == |chs| then chs
    else if chs[i] == ch then SwapDelete(chs[i := Last(chs)][..|chs| - 1], i, ch)
    else SwapDelete(chs, i + 1, ch)
  }

  lemma MoveLast<T>(chs: seq<T>, i: nat)
    requires i < |chs|
    ensures multiset(chs[i := Last(chs)][..|chs| - 1]) == multiset(chs) - multiset{chs[i]}
  {
    var moved := chs[i := Last(chs)];
    assert moved == moved[..|chs| - 1] + [Last(chs)];
    assert chs[i] in multiset(chs);
    assert multiset(moved) == multiset(chs) - multiset{chs[i]} + multiset{Last(chs)};
    assert multiset(moved) == multiset(moved[..|chs| - 1]) + multiset([Last(chs)]);
    assert multiset([Last(chs)]) == multiset{Last(chs)};
    var a, b, c := multiset(moved[..|chs| - 1]), multiset{Last(chs)}, multiset(chs) - multiset{chs[i]};
    assert a + b == c + b;
    assert (a + b) - b == a && (c + b) - b == c;
  }

  lemma SamePrefix<T>(chs: seq<T>, i: nat)
    requires i < |chs|
    ensures chs[i := Last(chs)][..|chs| - 1][..i] == chs[..i]
  {
  }

  /** Unsubscribe removes every occurrence of ch and keeps all other subscribers, as a multiset. */
  lemma {:induction false} SwapDeleteKeepsOthers<T>(chs: seq<T>, i: nat, ch: T)
    requires i <= |chs| && ch !in chs[..i]
    ensures multiset(SwapDelete(chs, i, ch)) == multiset(chs)[ch := 0]
    decreases |chs| - i
  {
    if i == |chs| {
      TakeAll(chs);
    } else if chs[i] == ch {
      var rest := chs[i := Last(chs)][..|chs| - 1];
      MoveLast(chs, i);
      SamePrefix(chs, i);
      SwapDeleteKeepsOthers(rest, i, ch);
    } else {
      TakeMore(chs, i);
      SwapDeleteKeepsOthers(chs, i + 1, ch);
    }
  }

  lemma SwapDeleteIn<T>(chs: seq<T>, ch: T)
    ensures ch !in SwapDelete(chs, 0, ch)
    ensures forall c :: c != ch ==> (c in SwapDelete(chs, 0, ch) <==> c in chs)
  {
    SwapDeleteKeepsOthers(chs, 0, ch);
    forall c | c != ch ensures c in SwapDelete(chs, 0, ch) <==> c in chs {
      assert c in multiset(SwapDelete(chs, 0, ch)) <==> c in multiset(chs);
    }
    assert ch !in multiset(SwapDelete(chs, 0, ch));
  }
}
