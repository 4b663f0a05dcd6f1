/** The route reconciler (route_spec.go): one pass from a snapshot of the kernel's routes that goes stale as it works. */
module RouteSync {
  import opened Common
  import opened RouteKey

  datatype Link = Link(name: string, index: nat)

  /** The index of the first link of that name; 0, which is no link, if there is none or no name. */
  function LinkIndex(links: seq<Link>, name: string): nat
  {
    if name == "" || links == [] then 0
    else if links[0].name == name then links[0].index
    else LinkIndex(links[1..], name)
  }

  /** Link i is the first one of that name. */
  predicate FirstNamed(links: seq<Link>, name: string, i: int) {
    0 <= i < |links| && links[i].name == name && forall j :: 0 <= j < i ==> links[j].name != name
  }

  /** The index is that of the first link of the name; 0 for no name, and if no link has it. */
  ghost predicate IsIndexOf(links: seq<Link>, name: string, index: nat)
  {
    && (forall i :: name != "" && FirstNamed(links, name, i) ==> index == links[i].index)
    && (name == "" || (forall i :: 0 <= i < |links| ==> links[i].name != name) ==> index == 0)
  }

  lemma {:induction false} LinkIndexMeans(links: seq<Link>, name: string)
    ensures IsIndexOf(links, name, LinkIndex(links, name))
  {
    if name != "" && links != [] && links[0].name != name {
      LinkIndexMeans(links[1..], name);
      forall i | FirstNamed(links, name, i) ensures LinkIndex(links, name) == links[i].index {
        assert forall j :: 0 <= j < |links| - 1 ==> links[1..][j] == links[j + 1];
        assert FirstNamed(links[1..], name, i - 1);
      }
      assert forall j :: 0 < j < |links| ==> links[j] == links[1..][j - 1];
    }
  }

  /** There is a first one, or none. */
  lemma {:induction false} SomeFirstNamed(links: seq<Link>, name: string) returns (i: nat)
    ensures FirstNamed(links, name, i) || forall j :: 0 <= j < |links| ==> links[j].name != name
  {
    i := 0;
    if links != [] && links[0].name != name {
      var k := SomeFirstNamed(links[1..], name);
      assert forall j :: 0 < j < |links| ==> links[j] == links[1..][j - 1];
      i := k + 1;
    }
  }

  /** No link is asked for and link is 0, or it is the index, other than 0, of the first link of that name. */
  ghost predicate Resolves(links: seq<Link>, name: string, link: nat)
  {
    if name == "" then link == 0 else link != 0 && exists i :: FirstNamed(links, name, i) && links[i].index == link
  }

  lemma ResolvesIs(links: seq<Link>, name: string, link: nat)
    ensures Resolves(links, name, link) <==> link == LinkIndex(links, name) && (name == "" || link != 0)
  {
    LinkIndexMeans(links, name);
    var i := SomeFirstNamed(links, name);
  }

  /** rtnetlink.RouteMessage as the kernel reports it; mtu is None without metrics, other stands for what is not looked at. */
  datatype Route = Route(family: nat, dstLength: nat, dst: seq<Byte>, gateway: seq<Byte>, src: seq<Byte>, table: nat,
                         priority: nat, scope: nat, kind: nat, flags: bv32, protocol: nat, outIface: nat,
                         mtu: Option<nat>, other: nat)

  /** The message of an Add: its table is in the attributes, the one of the header stays 0. */
  datatype Request = Request(family: nat, dstLength: nat, dst: seq<Byte>, gateway: seq<Byte>, src: seq<Byte>,
                             attrTable: nat, priority: nat, scope: nat, kind: nat, flags: bv32, protocol: nat,
                             outIface: nat, mtu: Option<nat>)

  const V4_IN_V6: seq<Byte> := [0, 0, 0, 0, 0, 0, 0, 0, 0, 0, 255, 255]

  /** net.IP.Equal: an IPv4 address equals its IPv6 form. */
  predicate IpEqual(x: seq<Byte>, y: seq<Byte>)
  {
    if |x| == |y| then x == y
    else if |x| == 4 && |y| == 16 then y == V4_IN_V6 + x
    else if |x| == 16 && |y| == 4 then x == V4_IN_V6 + y
    else false
  }

  const DEFAULT_ROUTE_METRIC: nat := 1024

  function FamilyNumber(f: Family): nat {
    if f.Inet4? then 2 else 10
  }

  predicate FamilyMatches(r: Route, s: RouteSpec) {
    r.family == FamilyNumber(s.family)
  }

  predicate DestinationMatches(r: Route, s: RouteSpec) {
    r.dstLength == BitsCorrected(s.destination) && (r.dstLength == 0 || IpEqual(r.dst, s.destination.addr.AsSlice()))
  }

  predicate GatewayMatches(r: Route, s: RouteSpec) {
    IpEqual(r.gateway, s.gateway.AsSlice())
  }

  predicate TableMatches(r: Route, s: RouteSpec) {
    r.table == s.table
  }

  predicate PriorityMatches(r: Route, s: RouteSpec) {
    r.priority == s.priority || (s.family.Inet6? && s.priority == 0 && r.priority == DEFAULT_ROUTE_METRIC)
  }

  predicate Matches(r: Route, s: RouteSpec) {
    FamilyMatches(r, s) && DestinationMatches(r, s) && GatewayMatches(r, s) && TableMatches(r, s) && PriorityMatches(r, s)
  }

  predicate ScopeMatches(r: Route, s: RouteSpec) {
    s.family.Inet6? || r.scope == s.scope
  }

  predicate LinkMatches(actual: nat, expected: nat) {
    expected == 0 || actual == expected
  }

  // The flags that RouteFlags.Equal looks at. The model holds for any mask.
  const ROUTE_FLAGS_MASK: bv32

  function Masked(flags: bv32): bv32 {
    flags & ROUTE_FLAGS_MASK
  }

  predicate SameFlags(x: bv32, y: bv32) {
    Masked(x) == Masked(y)
  }

  function Mtu(r: Route): nat {
    if r.mtu.Some? then r.mtu.value else 0
  }

  /** The matching route is what the spec wants. */
  predicate Conforms(r: Route, s: RouteSpec, link: nat)
  {
    && ScopeMatches(r, s)
    && SameFlags(r.flags, s.flags)
    && r.protocol == s.protocol
    && LinkMatches(r.outIface, link)
    && (s.source == NoAddr || IpEqual(r.src, s.source.AsSlice()))
    && Mtu(r) == s.mtu
    && r.kind == s.kind
  }

  function RequestFor(s: RouteSpec, link: nat): Request {
    Request(FamilyNumber(s.family), BitsCorrected(s.destination) % 256, s.destination.addr.AsSlice(), s.gateway.AsSlice(),
            s.source.AsSlice(), s.table, s.priority, s.scope, s.kind, s.flags, s.protocol, link,
            if s.mtu != 0 then Some(s.mtu) else None)
  }

  /** What the kernel reports for a route that it accepted: what was asked, with the table in the header, an output
      interface of its own if none was asked for, and flags outside the mask as it likes. */
  predicate Echoes(q: Request, r: Route)
  {
    && r.family == q.family && r.dstLength == q.dstLength && (q.dstLength != 0 ==> r.dst == q.dst)
    && r.gateway == q.gateway && r.src == q.src
    && (q.attrTable < 256 ==> r.table == q.attrTable)
    && r.priority == q.priority && r.scope == q.scope && r.kind == q.kind && r.protocol == q.protocol
    && SameFlags(r.flags, q.flags)
    && (q.outIface != 0 ==> r.outIface == q.outIface)
    && r.mtu == q.mtu
  }

  function PlainEcho(q: Request): Route {
    Route(q.family, q.dstLength, q.dst, q.gateway, q.src, q.attrTable, q.priority, q.scope, q.kind, q.flags, q.protocol,
          q.outIface, q.mtu, 0)
  }

  // ---------------------------------------------------------------------------------------------
  // The kernel

  /** The kernel's table of routes. Any call may fail; ops counts the changes that were asked for, faults the calls that failed. */
  class Kernel {
    var table: multiset<Route>
    var ops: nat
    var faults: nat

    constructor (table: multiset<Route>)
      ensures this.table == table && ops == 0 && faults == 0
    {
      this.table, ops, faults := table, 0, 0;
    }

    method List() returns (ok: bool, routes: seq<Route>)
      modifies this`faults
      ensures ok ==> multiset(routes) == table
      ensures faults == old(faults) + if ok then 0 else 1
    {
      ok := *;
      faults := faults + if ok then 0 else 1;
      routes := [];
      var left := table;
      while left != multiset{}
        invariant multiset(routes) + left == table
        decreases |left|
      {
        var r :| r in left;
        routes := routes + [r];
        left := left - multiset{r};
      }
    }

    method Delete(r: Route) returns (ok: bool)
      modifies this
      ensures ops == old(ops) + 1 && faults == old(faults) + if ok then 0 else 1
      ensures ok ==> r in old(table) && table == old(table) - multiset{r}
      ensures !ok ==> table == old(table)
    {
      ops := ops + 1;
      ok := *;
      ok := ok && r in table;
      faults := faults + if ok then 0 else 1;
      if ok {
        table := table - multiset{r};
      }
    }

    method Add(q: Request) returns (ok: bool, ghost added: Route)
      modifies this
      ensures ops == old(ops) + 1 && faults == (old(faults) + if ok then 0 else 1) && Echoes(q, added)
      ensures ok ==> table == old(table) + multiset{added}
      ensures !ok ==> table == old(table)
    {
      ops := ops + 1;
      ok := *;
      faults := faults + if ok then 0 else 1;
      assert Echoes(q, PlainEcho(q));
      var r :| Echoes(q, r);
      added := r;
      if ok {
        table := table + multiset{r};
      }
    }
  }

  // ---------------------------------------------------------------------------------------------
  // Finding routes

  function Matching(routes: seq<Route>, s: RouteSpec): seq<Route>
  {
    if routes == [] then []
    else Matching(routes[..|routes| - 1], s) + if Matches(Last(routes), s) then [Last(routes)] else []
  }

  function Mismatched(routes: seq<Route>, s: RouteSpec, link: nat): seq<Route>
  {
    if routes == [] then []
    else Mismatched(routes[..|routes| - 1], s, link) + if Conforms(Last(routes), s, link) then [] else [Last(routes)]
  }

  lemma {:induction false} MatchingCounts(routes: seq<Route>, s: RouteSpec)
    ensures forall r :: multiset(Matching(routes, s))[r] == if Matches(r, s) then multiset(routes)[r] else 0
  {
    if routes != [] {
      MatchingCounts(routes[..|routes| - 1], s);
      assert routes == routes[..|routes| - 1] + [Last(routes)];
    }
  }

  lemma {:induction false} MismatchedCounts(routes: seq<Route>, s: RouteSpec, link: nat)
    ensures forall r :: multiset(Mismatched(routes, s, link))[r] == if Conforms(r, s, link) then 0 else multiset(routes)[r]
  {
    if routes != [] {
      MismatchedCounts(routes[..|routes| - 1], s, link);
      assert routes == routes[..|routes| - 1] + [Last(routes)];
    }
  }

  method FindMatchingRoutes(routes: seq<Route>, s: RouteSpec) returns (result: seq<Route>)
    ensures result == Matching(routes, s)
  {
    result := [];
    for i := 0 to |routes|
      invariant result == Matching(routes[..i], s)
    {
      assert routes[..i + 1][..i] == routes[..i];
      var r := routes[i];
      if !FamilyMatches(r, s) { continue; }
      if !DestinationMatches(r, s) { continue; }
      if !GatewayMatches(r, s) { continue; }
      if !TableMatches(r, s) { continue; }
      if !PriorityMatches(r, s) { continue; }
      result := result + [r];
    }
    assert routes[..|routes|] == routes;
  }

  method ResolveLinkName(links: seq<Link>, name: string) returns (index: nat)
    ensures index == LinkIndex(links, name) && IsIndexOf(links, name, index)
  {
    LinkIndexMeans(links, name);
    if name == "" { return 0; }
    var i := 0;
    while i < |links|
      invariant i <= |links| && LinkIndex(links[i..], name) == LinkIndex(links, name)
    {
      assert links[i..][1..] == links[i + 1..];
      if links[i].name == name { return links[i].index; }
      i := i + 1;
    }
    index := 0;
  }

  // ---------------------------------------------------------------------------------------------
  // One resource

  datatype Phase = Running | TearingDown

  /** network.RouteSpec with its phase. */
  datatype Resource = Resource(spec: RouteSpec, phase: Phase) {
    function Id(): string {
      IdOf(spec)
    }
  }

  /** A running resource whose link is named but does not exist is skipped. */
  predicate Skipped(links: seq<Link>, res: Resource) {
    res.phase.Running? && res.spec.outLinkName != "" && LinkIndex(links, res.spec.outLinkName) == 0
  }

  /** What syncRoute deletes, judging by the snapshot. */
  function Deletes(links: seq<Link>, routes: seq<Route>, res: Resource): seq<Route> {
    var found := Matching(routes, res.spec);
    if res.phase.TearingDown? then found
    else if Skipped(links, res) then []
    else Mismatched(found, res.spec, LinkIndex(links, res.spec.outLinkName))
  }

  /** syncRoute adds a route: nothing that the snapshot holds for the spec conforms. */
  predicate Adds(links: seq<Link>, routes: seq<Route>, res: Resource) {
    && res.phase.Running? && !Skipped(links, res)
    && !SomeConforms(Matching(routes, res.spec), res.spec, LinkIndex(links, res.spec.outLinkName))
  }

  /** What one call may do to the table: remove a part of what the snapshot asks for, and add an echo of the request. */
  ghost predicate Changed(links: seq<Link>, routes: seq<Route>, res: Resource, t: multiset<Route>, t': multiset<Route>,
                          deleted: seq<Route>, added: Option<Route>)
  {
    && deleted <= Deletes(links, routes, res)
    && multiset(deleted) <= t
    && t' == t - multiset(deleted) + (if added.Some? then multiset{added.value} else multiset{})
    && (added.Some? ==> deleted == Deletes(links, routes, res) && Adds(links, routes, res)
                        && Echoes(RequestFor(res.spec, LinkIndex(links, res.spec.outLinkName)), added.value))
  }

  lemma {:induction false} MismatchedPrefix(routes: seq<Route>, s: RouteSpec, link: nat, n: nat)
    requires n <= |routes|
    ensures Mismatched(routes[..n], s, link) <= Mismatched(routes, s, link)
    decreases |routes|
  {
    if n < |routes| {
      MismatchedPrefix(routes[..|routes| - 1], s, link, n);
      assert routes[..|routes| - 1][..n] == routes[..n];
    } else {
      assert routes[..n] == routes;
    }
  }

  lemma MatchingHas(routes: seq<Route>, s: RouteSpec, r: Route)
    ensures r in Matching(routes, s) <==> r in routes && Matches(r, s)
  {
    MatchingCounts(routes, s);
    assert r in Matching(routes, s) <==> multiset(Matching(routes, s))[r] > 0;
    assert r in routes <==> multiset(routes)[r] > 0;
  }

  predicate SomeConforms(routes: seq<Route>, s: RouteSpec, link: nat) {
    exists r :: r in routes && Conforms(r, s, link)
  }

  lemma MismatchedMore(routes: seq<Route>, s: RouteSpec, link: nat, i: nat)
    requires i < |routes|
    ensures Mismatched(routes[..i + 1], s, link)
         == Mismatched(routes[..i], s, link) + if Conforms(routes[i], s, link) then [] else [routes[i]]
    ensures SomeConforms(routes[..i + 1], s, link) <==> SomeConforms(routes[..i], s, link) || Conforms(routes[i], s, link)
    ensures Mismatched(routes[..i + 1], s, link) <= Mismatched(routes, s, link)
  {
    TakeMore(routes, i);
    MismatchedPrefix(routes, s, link, i + 1);
    assert forall r :: r in routes[..i] + [routes[i]] <==> r in routes[..i] || r == routes[i];
  }

  /** t' is t without the deleted ones. */
  ghost predicate Removed(t: multiset<Route>, t': multiset<Route>, deleted: seq<Route>)
  {
    multiset(deleted) <= t && t' == t - multiset(deleted)
  }

  lemma RemovedOneMore(t: multiset<Route>, t': multiset<Route>, deleted: seq<Route>, r: Route)
    requires Removed(t, t', deleted) && r in t'
    ensures Removed(t, t' - multiset{r}, deleted + [r])
  {
    assert multiset(deleted + [r]) == multiset(deleted) + multiset{r};
  }

  // ---------------------------------------------------------------------------------------------
  // Keys that do not overlap

  /** An IPv6 resource, or a canonical IPv4 one whose table fits the header of a route. */
  predicate Proper(res: Resource) {
    res.spec.family.Inet4? ==> Canonical4(res.spec) && res.spec.table < 256
  }

  predicate AllCanonical(list: seq<Resource>) {
    forall k :: 0 <= k < |list| ==> Proper(list[k])
  }

  predicate DistinctIds(list: seq<Resource>) {
    forall j, k :: 0 <= j < k < |list| ==> list[j].Id() != list[k].Id()
  }

  /** A kernel route matches at most one id. */
  lemma KeysApart(r: Route, s: RouteSpec, t: RouteSpec)
    requires Canonical4(s) && Canonical4(t) && Matches(r, s) && Matches(r, t)
    ensures IdOf(s) == IdOf(t)
  {
    var gs, gt := s.gateway.AsSlice(), t.gateway.AsSlice();
    assert gs == gt by {
      assert |r.gateway| == 16 && |gs| == 4 && |gt| == 4 ==> r.gateway[12..] == gs && r.gateway[12..] == gt;
    }
    var ds, dt := s.destination.addr.AsSlice(), t.destination.addr.AsSlice();
    assert ds == dt by {
      assert |r.dst| == 16 && |ds| == 4 && |dt| == 4 ==> V4_IN_V6 + ds == V4_IN_V6 + dt;
      assert |r.dst| == 16 && |ds| == 4 && |dt| == 4 && r.dstLength != 0 ==> r.dst[12..] == ds && r.dst[12..] == dt;
    }
    SameIdSameKey(s, t);
  }

  lemma EchoMatches(s: RouteSpec, link: nat, r: Route)
    requires Canonical4(s) && s.table < 256 && Echoes(RequestFor(s, link), r)
    ensures Matches(r, s)
  {
    SmallByte(BitsCorrected(s.destination));
    assert DestinationMatches(r, s);
  }

  /** What the kernel makes of the request for a spec is a route that matches the spec and conforms to it. */
  lemma EchoConforms(s: RouteSpec, link: nat, r: Route)
    requires Canonical4(s) && s.table < 256 && Echoes(RequestFor(s, link), r)
    ensures Matches(r, s) && Conforms(r, s, link) && RequestFor(s, link).flags == s.flags
  {
    EchoMatches(s, link, r);
  }

  lemma SmallByte(n: nat)
    requires n < 256
    ensures n % 256 == n
  {
  }

  /** The table is what the resource wants: nothing that matches is left at its tear-down; while it runs and its link exists,
      some route matches and all that match conform. */
  ghost predicate Settled(links: seq<Link>, t: multiset<Route>, res: Resource)
  {
    var link := LinkIndex(links, res.spec.outLinkName);
    if res.phase.TearingDown? then (forall r :: r in t ==> !Matches(r, res.spec))
    else
      || Skipped(links, res)
      || (&& (exists r :: r in t && Matches(r, res.spec) && Conforms(r, res.spec, link))
          && (forall r :: r in t && Matches(r, res.spec) ==> Conforms(r, res.spec, link)))
  }

  // The same, field by field, for addresses as netip makes them.

  /** The same address, where an IPv4 address may be in its IPv6 form. */
  predicate SameIp(x: seq<Byte>, y: seq<Byte>)
  {
    || x == y
    || (|x| == 4 && y == [0, 0, 0, 0, 0, 0, 0, 0, 0, 0, 255, 255] + x)
    || (|y| == 4 && x == [0, 0, 0, 0, 0, 0, 0, 0, 0, 0, 255, 255] + y)
  }

  predicate IsAddr(bytes: seq<Byte>, x: Addr)
  {
    match x
    case NoAddr => bytes == []
    case V4(a, b, c, d) => SameIp(bytes, [a, b, c, d])
    case V6(b, _) => SameIp(bytes, b)
  }

  predicate Sized(x: Addr) {
    x.V6? ==> |x.bytes| == 16
  }

  /** The route has the family, destination, gateway, table and priority of the spec. */
  predicate UnderKey(r: Route, s: RouteSpec)
  {
    && r.family == (if s.family.Inet4? then 2 else 10)
    && (if s.destination.addr.NoAddr? then r.dstLength == 0
        else r.dstLength == s.destination.bits && (r.dstLength == 0 || IsAddr(r.dst, s.destination.addr)))
    && IsAddr(r.gateway, s.gateway)
    && r.table == s.table
    && (r.priority == s.priority || (s.family.Inet6? && s.priority == 0 && r.priority == 1024))
  }

  /** The route is otherwise as the spec wants it: the scope (of IPv4), the protocol, the type, the masked flags, the MTU
      (none for 0), the link if one is asked for, and the source if one is given. */
  predicate AsWanted(r: Route, s: RouteSpec, link: nat)
  {
    && (s.family.Inet4? ==> r.scope == s.scope)
    && r.protocol == s.protocol && r.kind == s.kind
    && Masked(r.flags) == Masked(s.flags)
    && (if s.mtu == 0 then r.mtu == None || r.mtu == Some(0) else r.mtu == Some(s.mtu))
    && (link != 0 ==> r.outIface == link)
    && (s.source == NoAddr || IsAddr(r.src, s.source))
  }

  lemma IpEqualMeans(x: seq<Byte>, y: seq<Byte>)
    ensures IpEqual(x, y) <==> SameIp(x, y)
  {
  }

  lemma IsAddrMeans(bytes: seq<Byte>, x: Addr)
    requires Sized(x)
    ensures IsAddr(bytes, x) <==> IpEqual(bytes, x.AsSlice())
    ensures x.AsSlice() == [] <==> x == NoAddr
  {
    IpEqualMeans(bytes, x.AsSlice());
  }

  lemma DestinationMeans(r: Route, s: RouteSpec)
    requires Sized(s.destination.addr)
    ensures DestinationMatches(r, s)
       <==> if s.destination.addr.NoAddr? then r.dstLength == 0
            else r.dstLength == s.destination.bits && (r.dstLength == 0 || IsAddr(r.dst, s.destination.addr))
  {
    IsAddrMeans(r.dst, s.destination.addr);
  }

  /** What findMatchingRoutes finds for a spec. */
  lemma KeyMeans(r: Route, s: RouteSpec)
    requires Sized(s.destination.addr) && Sized(s.gateway)
    ensures Matches(r, s) <==> UnderKey(r, s)
  {
    DestinationMeans(r, s);
    IsAddrMeans(r.gateway, s.gateway);
  }

  /** Which of these it leaves alone. */
  lemma ConformsMeans(r: Route, s: RouteSpec, link: nat)
    requires Sized(s.source)
    ensures Conforms(r, s, link) <==> AsWanted(r, s, link)
  {
    assert Mtu(r) == s.mtu <==> if s.mtu == 0 then r.mtu == None || r.mtu == Some(0) else r.mtu == Some(s.mtu);
    SourceMeans(r, s);
  }

  lemma SourceMeans(r: Route, s: RouteSpec)
    requires Sized(s.source)
    ensures (s.source == NoAddr || IpEqual(r.src, s.source.AsSlice())) <==> (s.source == NoAddr || IsAddr(r.src, s.source))
  {
    IsAddrMeans(r.src, s.source);
  }

  /** There is a route under the key of the spec, and all of them are as wanted. */
  ghost predicate RoutesAsWanted(t: multiset<Route>, s: RouteSpec, link: nat)
  {
    && (exists r :: r in t && UnderKey(r, s) && AsWanted(r, s, link))
    && (forall r :: r in t && UnderKey(r, s) ==> AsWanted(r, s, link))
  }

  /** The table is as the resource specifies: no route under its key at its tear-down; while it runs, with its link resolved if it
      names one, at least one, and all of them as wanted. */
  ghost predicate AsSpecified(links: seq<Link>, t: multiset<Route>, res: Resource)
  {
    && (res.phase.TearingDown? ==> forall r :: r in t ==> !UnderKey(r, res.spec))
    && (res.phase.Running? ==>
          forall link :: Resolves(links, res.spec.outLinkName, link) ==> RoutesAsWanted(t, res.spec, link))
  }

  lemma SettledIsAsSpecified(links: seq<Link>, t: multiset<Route>, res: Resource)
    requires Sized(res.spec.destination.addr) && Sized(res.spec.gateway) && Sized(res.spec.source)
    ensures Settled(links, t, res) <==> AsSpecified(links, t, res)
  {
    var link := LinkIndex(links, res.spec.outLinkName);
    forall r ensures Matches(r, res.spec) <==> UnderKey(r, res.spec) {
      KeyMeans(r, res.spec);
    }
    forall r ensures Conforms(r, res.spec, link) <==> AsWanted(r, res.spec, link) {
      ConformsMeans(r, res.spec, link);
    }
    forall l: nat ensures Resolves(links, res.spec.outLinkName, l) <==> l == link && (res.spec.outLinkName == "" || l != 0) {
      ResolvesIs(links, res.spec.outLinkName, l);
    }
    if res.phase.Running? && !Skipped(links, res) {
      assert Resolves(links, res.spec.outLinkName, link);
      assert RoutesAsWanted(t, res.spec, link) <==> Settled(links, t, res);
    }
  }

  /** The two tables hold the same routes that match s. */
  ghost predicate SameFor(t: multiset<Route>, t': multiset<Route>, s: RouteSpec)
  {
    forall r :: Matches(r, s) ==> t'[r] == t[r]
  }

  predicate Doomed(links: seq<Link>, res: Resource, r: Route) {
    && Matches(r, res.spec)
    && (res.phase.TearingDown?
        || (!Skipped(links, res) && !Conforms(r, res.spec, LinkIndex(links, res.spec.outLinkName))))
  }

  lemma DeletesCount(links: seq<Link>, routes: seq<Route>, res: Resource, r: Route)
    ensures multiset(Deletes(links, routes, res))[r] == if Doomed(links, res, r) then multiset(routes)[r] else 0
  {
    MatchingCounts(routes, res.spec);
    MismatchedCounts(Matching(routes, res.spec), res.spec, LinkIndex(links, res.spec.outLinkName));
  }

  lemma PrefixCount(deleted: seq<Route>, all: seq<Route>, r: Route)
    requires deleted <= all
    ensures multiset(deleted)[r] <= multiset(all)[r]
  {
    assert all == deleted + all[|deleted|..];
  }

  /** A call for an IPv4 resource leaves every route alone that does not match its spec, one for an IPv6 resource
      every IPv4 route -- also when it fails on the way. */
  lemma OthersKept(links: seq<Link>, routes: seq<Route>, res: Resource, t: multiset<Route>, t': multiset<Route>,
                   deleted: seq<Route>, added: Option<Route>, r: Route)
    requires Changed(links, routes, res, t, t', deleted, added)
    requires Proper(res) && !Matches(r, res.spec) && (res.spec.family.Inet6? ==> r.family == FamilyNumber(Inet4))
    ensures t'[r] == t[r]
  {
    DeletesCount(links, routes, res, r);
    PrefixCount(deleted, Deletes(links, routes, res), r);
    if added.Some? && res.spec.family.Inet4? {
      EchoMatches(res.spec, LinkIndex(links, res.spec.outLinkName), added.value);
    }
  }

  lemma OtherKeysKept(links: seq<Link>, routes: seq<Route>, res: Resource, t: multiset<Route>, t': multiset<Route>,
                      deleted: seq<Route>, added: Option<Route>, s: RouteSpec)
    requires Changed(links, routes, res, t, t', deleted, added)
    requires Proper(res) && Canonical4(s) && IdOf(s) != res.Id()
    ensures SameFor(t, t', s)
  {
    forall r | Matches(r, s) ensures t'[r] == t[r] {
      if res.spec.family.Inet4? && Matches(r, res.spec) {
        KeysApart(r, s, res.spec);
      }
      OthersKept(links, routes, res, t, t', deleted, added, r);
    }
  }

  /** What a completed call leaves under its key, but for what it added, conforms -- or, at a tear-down, is nothing. */
  lemma NoneDoomed(links: seq<Link>, routes: seq<Route>, res: Resource, t: multiset<Route>, t': multiset<Route>,
                   deleted: seq<Route>, added: Option<Route>)
    requires Changed(links, routes, res, t, t', deleted, added) && deleted == Deletes(links, routes, res)
    requires SameFor(multiset(routes), t, res.spec)
    ensures forall r :: r in t' && Matches(r, res.spec) && added != Some(r) ==> !Doomed(links, res, r)
  {
    forall r | r in t' && Matches(r, res.spec) && added != Some(r)
      ensures !Doomed(links, res, r)
    {
      DeletesCount(links, routes, res, r);
      assert t'[r] > 0;
    }
  }

  /** A call that adds a route leaves one that conforms. */
  lemma AddSettles(links: seq<Link>, routes: seq<Route>, res: Resource, t: multiset<Route>, t': multiset<Route>,
                   deleted: seq<Route>, added: Option<Route>)
    requires Changed(links, routes, res, t, t', deleted, added) && added.Some?
    requires Canonical4(res.spec) && res.spec.table < 256
    ensures added.value in t' && Matches(added.value, res.spec)
    ensures Conforms(added.value, res.spec, LinkIndex(links, res.spec.outLinkName))
  {
    EchoConforms(res.spec, LinkIndex(links, res.spec.outLinkName), added.value);
  }

  /** A call that has no need to add one keeps one that conforms. */
  lemma KeepSettles(links: seq<Link>, routes: seq<Route>, res: Resource, t: multiset<Route>, t': multiset<Route>,
                    deleted: seq<Route>, added: Option<Route>) returns (r: Route)
    requires Changed(links, routes, res, t, t', deleted, added) && deleted == Deletes(links, routes, res)
    requires added.None? && !Adds(links, routes, res) && res.phase.Running? && !Skipped(links, res)
    requires SameFor(multiset(routes), t, res.spec)
    ensures r in t' && Matches(r, res.spec) && Conforms(r, res.spec, LinkIndex(links, res.spec.outLinkName))
  {
    r :| r in Matching(routes, res.spec) && Conforms(r, res.spec, LinkIndex(links, res.spec.outLinkName));
    MatchingHas(routes, res.spec, r);
    DeletesCount(links, routes, res, r);
    assert multiset(routes)[r] > 0 && t'[r] == t[r];
  }

  /** A call that completes settles its resource, provided that the routes under its key are still those of the snapshot. */
  lemma SyncSettles(links: seq<Link>, routes: seq<Route>, res: Resource, t: multiset<Route>, t': multiset<Route>,
                    deleted: seq<Route>, added: Option<Route>)
    requires Changed(links, routes, res, t, t', deleted, added)
    requires deleted == Deletes(links, routes, res) && (added.Some? <==> Adds(links, routes, res))
    requires Canonical4(res.spec) && res.spec.table < 256 && SameFor(multiset(routes), t, res.spec)
    ensures Settled(links, t', res) && (Sized(res.spec.source) ==> AsSpecified(links, t', res))
    ensures Skipped(links, res) ==> SameFor(t, t', res.spec)
  {
    CallSettles(links, routes, res, t, t', deleted, added);
    if Sized(res.spec.source) {
      SettledIsAsSpecified(links, t', res);
    }
  }

  lemma CallSettles(links: seq<Link>, routes: seq<Route>, res: Resource, t: multiset<Route>, t': multiset<Route>,
                    deleted: seq<Route>, added: Option<Route>)
    requires Changed(links, routes, res, t, t', deleted, added)
    requires deleted == Deletes(links, routes, res) && (added.Some? <==> Adds(links, routes, res))
    requires Canonical4(res.spec) && res.spec.table < 256 && SameFor(multiset(routes), t, res.spec)
    ensures Settled(links, t', res)
    ensures Skipped(links, res) ==> SameFor(t, t', res.spec)
  {
    NoneDoomed(links, routes, res, t, t', deleted, added);
    if added.Some? {
      AddSettles(links, routes, res, t, t', deleted, added);
    } else if Skipped(links, res) {
      assert t' == t;
    } else if res.phase.Running? {
      var r := KeepSettles(links, routes, res, t, t', deleted, added);
    }
  }

  lemma SettledStays(links: seq<Link>, t: multiset<Route>, t': multiset<Route>, res: Resource)
    requires Settled(links, t, res) && SameFor(t, t', res.spec)
    ensures Settled(links, t', res)
  {
    assert forall r :: Matches(r, res.spec) ==> (r in t' <==> t'[r] > 0) && (r in t <==> t[r] > 0);
  }

  /** Of the routes that were found, those were deleted that are not as wanted; others there may be or not. */
  ghost predicate Judged(found: seq<Route>, s: RouteSpec, link: nat, deleted: seq<Route>, matchFound: bool)
  {
    && (forall r :: r in deleted <==> r in found && !AsWanted(r, s, link))
    && (matchFound <==> exists r :: r in found && AsWanted(r, s, link))
  }

  lemma MismatchedMeans(found: seq<Route>, s: RouteSpec, link: nat)
    requires Sized(s.source)
    ensures Judged(found, s, link, Mismatched(found, s, link), SomeConforms(found, s, link))
  {
    MismatchedCounts(found, s, link);
    forall r ensures r in Mismatched(found, s, link) <==> r in found && !AsWanted(r, s, link) {
      assert r in Mismatched(found, s, link) <==> multiset(Mismatched(found, s, link))[r] > 0;
      assert r in found <==> multiset(found)[r] > 0;
      ConformsMeans(r, s, link);
    }
    forall r ensures Conforms(r, s, link) <==> AsWanted(r, s, link) {
      ConformsMeans(r, s, link);
    }
  }

  // ---------------------------------------------------------------------------------------------
  // One pass

  /** An IPv4 route that matches no resource. */
  predicate Foreign(list: seq<Resource>, r: Route) {
    r.family == FamilyNumber(Inet4) && forall k :: 0 <= k < |list| ==> !Matches(r, list[k].spec)
  }

  ghost predicate ForeignKept(list: seq<Resource>, t0: multiset<Route>, t: multiset<Route>)
  {
    forall r :: Foreign(list, r) ==> t[r] == t0[r]
  }

  ghost predicate SettledUpto(links: seq<Link>, list: seq<Resource>, i: nat, t: multiset<Route>)
  {
    forall k :: 0 <= k < |list| && k < i && list[k].spec.family.Inet4? ==> Settled(links, t, list[k])
  }

  ghost predicate UntouchedFrom(links: seq<Link>, list: seq<Resource>, i: nat, t0: multiset<Route>, t: multiset<Route>)
  {
    forall k :: 0 <= k < |list| && list[k].spec.family.Inet4? && (i <= k || Skipped(links, list[k])) ==>
      SameFor(t0, t, list[k].spec)
  }

  /** The first i IPv4 resources are settled, the routes of the others are those of the snapshot t0. */
  ghost predicate Reached(links: seq<Link>, list: seq<Resource>, t0: multiset<Route>, t: multiset<Route>, i: nat)
  {
    SettledUpto(links, list, i, t) && UntouchedFrom(links, list, i, t0, t)
  }

  /** Every IPv4 resource has what it specifies in the table. */
  ghost predicate EachAsSpecified(links: seq<Link>, list: seq<Resource>, t: multiset<Route>)
  {
    forall k :: 0 <= k < |list| && list[k].spec.family.Inet4? && Sized(list[k].spec.source) ==> AsSpecified(links, t, list[k])
  }

  lemma ReachedIsSpecified(links: seq<Link>, list: seq<Resource>, t0: multiset<Route>, t: multiset<Route>)
    requires AllCanonical(list) && Reached(links, list, t0, t, |list|)
    ensures EachAsSpecified(links, list, t)
  {
    forall k | 0 <= k < |list| && list[k].spec.family.Inet4? && Sized(list[k].spec.source)
      ensures AsSpecified(links, t, list[k])
    {
      assert Proper(list[k]);
      SettledIsAsSpecified(links, t, list[k]);
    }
  }

  lemma ForeignStep(links: seq<Link>, routes: seq<Route>, list: seq<Resource>, i: nat, t: multiset<Route>,
                    t': multiset<Route>, deleted: seq<Route>, added: Option<Route>)
    requires i < |list| && AllCanonical(list) && Changed(links, routes, list[i], t, t', deleted, added)
    ensures ForeignKept(list, t, t')
  {
    forall r | Foreign(list, r) ensures t'[r] == t[r] {
      OthersKept(links, routes, list[i], t, t', deleted, added, r);
    }
  }

  /** A call for resource i disturbs no other IPv4 resource. */
  lemma OthersStep(links: seq<Link>, routes: seq<Route>, list: seq<Resource>, i: nat, k: nat, t: multiset<Route>,
                   t': multiset<Route>, deleted: seq<Route>, added: Option<Route>)
    requires i < |list| && k < |list| && k != i && AllCanonical(list) && DistinctIds(list)
    requires list[k].spec.family.Inet4?
    requires Changed(links, routes, list[i], t, t', deleted, added)
    ensures SameFor(t, t', list[k].spec)
    ensures Settled(links, t, list[k]) ==> Settled(links, t', list[k])
  {
    OtherKeysKept(links, routes, list[i], t, t', deleted, added, list[k].spec);
    if Settled(links, t, list[k]) {
      SettledStays(links, t, t', list[k]);
    }
  }

  lemma ReachedStep(links: seq<Link>, routes: seq<Route>, list: seq<Resource>, i: nat, t: multiset<Route>,
                    t': multiset<Route>, deleted: seq<Route>, added: Option<Route>)
    requires i < |list| && AllCanonical(list) && DistinctIds(list)
    requires Reached(links, list, multiset(routes), t, i)
    requires Changed(links, routes, list[i], t, t', deleted, added)
    requires deleted == Deletes(links, routes, list[i]) && (added.Some? <==> Adds(links, routes, list[i]))
    ensures Reached(links, list, multiset(routes), t', i + 1)
  {
    if list[i].spec.family.Inet4? {
      SyncSettles(links, routes, list[i], t, t', deleted, added);
    }
    forall k | 0 <= k < i && list[k].spec.family.Inet4? ensures Settled(links, t', list[k]) {
      OthersStep(links, routes, list, i, k, t, t', deleted, added);
    }
    forall k | 0 <= k < |list| && k != i && list[k].spec.family.Inet4? && (i < k || Skipped(links, list[k]))
      ensures SameFor(multiset(routes), t', list[k].spec)
    {
      OthersStep(links, routes, list, i, k, t, t', deleted, added);
      SameForTrans(multiset(routes), t, t', list[k].spec);
    }
    if list[i].spec.family.Inet4? && Skipped(links, list[i]) {
      SameForTrans(multiset(routes), t, t', list[i].spec);
    }
  }

  lemma SameForTrans(t0: multiset<Route>, t: multiset<Route>, t': multiset<Route>, s: RouteSpec)
    requires SameFor(t0, t, s) && SameFor(t, t', s)
    ensures SameFor(t0, t', s)
  {
  }

  /** The number of changes that a pass asks the kernel for. */
  function Work(links: seq<Link>, routes: seq<Route>, list: seq<Resource>): nat
  {
    if list == [] then 0
    else
      Work(links, routes, list[..|list| - 1])
      + |Deletes(links, routes, Last(list))| + if Adds(links, routes, Last(list)) then 1 else 0
  }

  lemma IdleIffSettled(links: seq<Link>, routes: seq<Route>, res: Resource)
    ensures Deletes(links, routes, res) == [] && !Adds(links, routes, res) <==> Settled(links, multiset(routes), res)
  {
    var deletes := Deletes(links, routes, res);
    forall r ensures r in deletes <==> r in routes && Doomed(links, res, r) {
      DeletesCount(links, routes, res, r);
      assert (r in deletes <==> multiset(deletes)[r] > 0) && (r in routes <==> multiset(routes)[r] > 0);
    }
    assert deletes == [] <==> forall r :: r in routes ==> !Doomed(links, res, r) by {
      if deletes != [] {
        assert deletes[0] in deletes;
      }
    }
    forall r ensures r in Matching(routes, res.spec) <==> r in routes && Matches(r, res.spec) {
      MatchingHas(routes, res.spec, r);
    }
  }

  ghost predicate AllSettled(links: seq<Link>, t: multiset<Route>, list: seq<Resource>)
  {
    forall k :: 0 <= k < |list| ==> Settled(links, t, list[k])
  }

  lemma SettledSnoc(links: seq<Link>, t: multiset<Route>, list: seq<Resource>)
    requires list != []
    ensures AllSettled(links, t, list) <==> AllSettled(links, t, list[..|list| - 1]) && Settled(links, t, Last(list))
  {
    var init := list[..|list| - 1];
    assert forall k :: 0 <= k < |init| ==> init[k] == list[k];
  }

  /** A pass has nothing to do exactly when its snapshot already settles every resource. */
  lemma {:induction false} NoWorkIffSettled(links: seq<Link>, routes: seq<Route>, list: seq<Resource>)
    ensures Work(links, routes, list) == 0 <==> AllSettled(links, multiset(routes), list)
  {
    if list != [] {
      NoWorkIffSettled(links, routes, list[..|list| - 1]);
      IdleIffSettled(links, routes, Last(list));
      SettledSnoc(links, multiset(routes), list);
    }
  }

  function IdsIn(list: seq<Resource>, phase: Phase): set<string>
  {
    if list == [] then {}
    else IdsIn(list[..|list| - 1], phase) + if Last(list).phase == phase then {Last(list).Id()} else {}
  }

  /** Convergence: after a pass that reached the end, the next pass over the same resources, from a snapshot of
      its own, asks the kernel for nothing on behalf of an IPv4 resource -- and for nothing at all if there are no others. */
  lemma SecondPassIsIdle(links: seq<Link>, list: seq<Resource>, t0: multiset<Route>, snapshot: seq<Route>)
    requires Reached(links, list, t0, multiset(snapshot), |list|)
    ensures forall k :: 0 <= k < |list| && list[k].spec.family.Inet4? ==>
      Deletes(links, snapshot, list[k]) == [] && !Adds(links, snapshot, list[k])
    ensures (forall k :: 0 <= k < |list| ==> list[k].spec.family.Inet4?) ==> Work(links, snapshot, list) == 0
  {
    NoWorkIffSettled(links, snapshot, list);
    forall k | 0 <= k < |list| && list[k].spec.family.Inet4?
      ensures Deletes(links, snapshot, list[k]) == [] && !Adds(links, snapshot, list[k])
    {
      IdleIffSettled(links, snapshot, list[k]);
    }
  }

  /** Why convergence is about IPv4 only: IPv6 specs that differ in nothing but the link have different ids, yet match the
      same routes. */
  lemma LinkIsNotInTheKey(s: RouteSpec, link: string)
    requires s.family.Inet6? && '/' !in s.outLinkName && '/' !in link && '/' !in s.gateway.Text()
    requires s.destination == NO_PREFIX || (s.destination.Valid() && '/' !in s.destination.addr.Text())
    ensures var s' := s.(outLinkName := link);
      && (IdOf(s') == IdOf(s) <==> link == s.outLinkName)
      && forall r :: Matches(r, s') <==> Matches(r, s)
  {
    LinkRead(s);
    LinkRead(s.(outLinkName := link));
    forall r ensures Matches(r, s.(outLinkName := link)) <==> Matches(r, s) {
      LinkIsNotMatched(s, link, r);
    }
  }

  /** The link is read back from an IPv6 id. */
  lemma LinkRead(s: RouteSpec)
    requires s.family.Inet6? && '/' !in s.outLinkName && '/' !in s.gateway.Text()
    requires s.destination == NO_PREFIX || (s.destination.Valid() && '/' !in s.destination.addr.Text())
    ensures ReadID(IdOf(s)).Some? && ReadID(IdOf(s)).value.link == Some(s.outLinkName)
  {
    IdReads(s.table, Inet6, s.destination, s.gateway, s.priority, s.outLinkName);
  }

  lemma LinkIsNotMatched(s: RouteSpec, link: string, r: Route)
    ensures Matches(r, s.(outLinkName := link)) <==> Matches(r, s)
  {
  }

  /** What a pass has achieved when it is done with i resources and asked for so many changes. */
  ghost predicate Progress(links: seq<Link>, routes: seq<Route>, list: seq<Resource>, t: multiset<Route>, i: nat, changes: int)
    requires i <= |list|
  {
    && (AllCanonical(list) ==> ForeignKept(list, multiset(routes), t))
    && (AllCanonical(list) && DistinctIds(list) ==> Reached(links, list, multiset(routes), t, i))
    && changes == Work(links, routes, list[..i])
    && (changes == 0 ==> t == multiset(routes))
  }

  /** Resource i of a pass, ok or not. */
  lemma PassStep(links: seq<Link>, routes: seq<Route>, list: seq<Resource>, i: nat, t: multiset<Route>,
                 t': multiset<Route>, deleted: seq<Route>, added: Option<Route>, ok: bool, changes: int)
    requires i < |list| && Changed(links, routes, list[i], t, t', deleted, added)
    requires ok ==> deleted == Deletes(links, routes, list[i]) && (added.Some? <==> Adds(links, routes, list[i]))
    requires Progress(links, routes, list, t, i, changes)
    ensures ok ==> Progress(links, routes, list, t', i + 1, changes + |deleted| + if added.Some? then 1 else 0)
    ensures AllCanonical(list) ==> ForeignKept(list, multiset(routes), t')
    ensures AllCanonical(list) && DistinctIds(list) ==> SettledUpto(links, list, i, t')
  {
    TakeMore(list, i);
    if AllCanonical(list) {
      ForeignStep(links, routes, list, i, t, t', deleted, added);
      if DistinctIds(list) {
        forall k | 0 <= k < i && list[k].spec.family.Inet4? ensures Settled(links, t', list[k]) {
          OthersStep(links, routes, list, i, k, t, t', deleted, added);
        }
        if ok {
          ReachedStep(links, routes, list, i, t, t', deleted, added);
        }
      }
    }
  }

  lemma {:induction false} IdsInHas(list: seq<Resource>, phase: Phase, id: string) returns (k: nat)
    requires id in IdsIn(list, phase)
    ensures k < |list| && list[k].Id() == id && list[k].phase == phase
  {
    if Last(list).phase == phase && Last(list).Id() == id {
      k := |list| - 1;
    } else {
      k := IdsInHas(list[..|list| - 1], phase, id);
    }
  }

  /** A finalizer that is gone was that of a torn-down resource, which if IPv4 has no route left. */
  ghost predicate RemovedSettled(links: seq<Link>, list: seq<Resource>, t: multiset<Route>, before: set<string>, now: set<string>)
  {
    forall k :: 0 <= k < |list| && list[k].Id() in before && list[k].Id() !in now ==>
      list[k].phase.TearingDown? && (list[k].spec.family.Inet4? ==> Settled(links, t, list[k]))
  }

  lemma RemovedAreSettled(links: seq<Link>, list: seq<Resource>, i: nat, t: multiset<Route>, before: set<string>)
    requires i <= |list|
    ensures DistinctIds(list) && SettledUpto(links, list, i, t) ==>
      RemovedSettled(links, list, t, before, before - IdsIn(list[..i], TearingDown))
  {
    if DistinctIds(list) && SettledUpto(links, list, i, t) {
      forall k | 0 <= k < |list| && list[k].Id() in IdsIn(list[..i], TearingDown)
        ensures list[k].phase.TearingDown? && (list[k].spec.family.Inet4? ==> Settled(links, t, list[k]))
      {
        var j := IdsInHas(list[..i], TearingDown, list[k].Id());
        assert j == k;
      }
    }
  }

  /** The controller. Adding or removing a finalizer may fail as well. */
  class Reconciler {
    const kernel: Kernel
    var finalizers: set<string>
    var faults: nat

    constructor (kernel: Kernel)
      ensures this.kernel == kernel && finalizers == {} && faults == 0
    {
      this.kernel, finalizers, faults := kernel, {}, 0;
    }

    /** The calls that have failed. */
    function Faults(): nat
      reads this, kernel
    {
      kernel.faults + faults
    }

    /** The loop of the tear-down: deletes what was found, up to the first failure. */
    method RemoveFound(found: seq<Route>) returns (ok: bool, ghost deleted: seq<Route>)
      modifies kernel
      ensures deleted <= found && Removed(old(kernel.table), kernel.table, deleted)
      ensures ok ==> deleted == found && kernel.ops == old(kernel.ops) + |found|
      ensures kernel.faults == old(kernel.faults) + if ok then 0 else 1
    {
      deleted := [];
      for i := 0 to |found|
        invariant deleted == found[..i] && Removed(old(kernel.table), kernel.table, deleted)
        invariant kernel.ops == old(kernel.ops) + i && kernel.faults == old(kernel.faults)
      {
        ghost var before := kernel.table;
        ok := kernel.Delete(found[i]);
        if !ok { return; }
        RemovedOneMore(old(kernel.table), before, deleted, found[i]);
        TakeMore(found, i);
        deleted := deleted + [found[i]];
      }
      ok := true;
    }

    /** The loop of a running resource: deletes what does not conform, up to the first failure. */
    method RemoveMismatched(found: seq<Route>, s: RouteSpec, link: nat)
      returns (ok: bool, matchFound: bool, ghost deleted: seq<Route>)
      modifies kernel
      ensures deleted <= Mismatched(found, s, link) && Removed(old(kernel.table), kernel.table, deleted)
      ensures ok ==> deleted == Mismatched(found, s, link) && kernel.ops == old(kernel.ops) + |deleted|
      ensures ok ==> (matchFound <==> SomeConforms(found, s, link))
      ensures ok && Sized(s.source) ==> Judged(found, s, link, deleted, matchFound)
      ensures kernel.faults == old(kernel.faults) + if ok then 0 else 1
    {
      matchFound, deleted := false, [];
      for i := 0 to |found|
        invariant deleted == Mismatched(found[..i], s, link) && deleted <= Mismatched(found, s, link)
        invariant Removed(old(kernel.table), kernel.table, deleted)
        invariant kernel.ops == old(kernel.ops) + |deleted| && kernel.faults == old(kernel.faults)
        invariant matchFound <==> SomeConforms(found[..i], s, link)
      {
        MismatchedMore(found, s, link, i);
        if Conforms(found[i], s, link) {
          matchFound := true;
          continue;
        }
        ghost var before := kernel.table;
        ok := kernel.Delete(found[i]);
        if !ok { return; }
        RemovedOneMore(old(kernel.table), before, deleted, found[i]);
        deleted := deleted + [found[i]];
      }
      TakeAll(found);
      ok := true;
      if Sized(s.source) {
        MismatchedMeans(found, s, link);
      }
    }

    /** The case of a torn-down resource. */
    method SyncTornDown(ghost links: seq<Link>, routes: seq<Route>, res: Resource)
      returns (ok: bool, ghost deleted: seq<Route>)
      requires res.phase.TearingDown?
      modifies kernel, this`finalizers, this`faults
      ensures Faults() == old(Faults()) + if ok then 0 else 1
      ensures Changed(links, routes, res, old(kernel.table), kernel.table, deleted, None)
      ensures ok ==> deleted == Deletes(links, routes, res) && kernel.ops == old(kernel.ops) + |deleted|
      ensures finalizers == if ok then old(finalizers) - {res.Id()} else old(finalizers)
    {
      var found := FindMatchingRoutes(routes, res.spec);
      ok, deleted := RemoveFound(found);
      if !ok { return; }
      ok := *;
      if ok {
        finalizers := finalizers - {res.Id()};
      } else {
        faults := faults + 1;
      }
    }

    /** The case of a running resource that is not skipped. */
    method SyncRunning(ghost links: seq<Link>, routes: seq<Route>, res: Resource, linkIndex: nat)
      returns (ok: bool, ghost deleted: seq<Route>, ghost added: Option<Route>)
      requires res.phase.Running? && !Skipped(links, res) && linkIndex == LinkIndex(links, res.spec.outLinkName)
      modifies kernel
      ensures Changed(links, routes, res, old(kernel.table), kernel.table, deleted, added)
      ensures ok ==> deleted == Deletes(links, routes, res) && (added.Some? <==> Adds(links, routes, res))
      ensures ok ==> kernel.ops == old(kernel.ops) + |deleted| + if added.Some? then 1 else 0
      ensures kernel.faults == old(kernel.faults) + if ok then 0 else 1
    {
      added := None;
      var found := FindMatchingRoutes(routes, res.spec);
      var matchFound;
      ok, matchFound, deleted := RemoveMismatched(found, res.spec, linkIndex);
      if !ok { return; }
      if matchFound { return; }
      ghost var r;
      ok, r := kernel.Add(RequestFor(res.spec, linkIndex));
      added := if ok then Some(r) else None;
    }

    /** One call changes the table exactly as the snapshot asks for, or stops on the way; a finalizer is removed only after
        everything that matches was deleted. */
    method SyncRoute(links: seq<Link>, routes: seq<Route>, res: Resource)
      returns (ok: bool, ghost deleted: seq<Route>, ghost added: Option<Route>)
      modifies kernel, this`finalizers, this`faults
      ensures Faults() == old(Faults()) + if ok then 0 else 1
      ensures Changed(links, routes, res, old(kernel.table), kernel.table, deleted, added)
      ensures ok ==> deleted == Deletes(links, routes, res) && (added.Some? <==> Adds(links, routes, res))
      ensures ok ==> kernel.ops == old(kernel.ops) + |deleted| + if added.Some? then 1 else 0
      ensures finalizers == if ok && res.phase.TearingDown? then old(finalizers) - {res.Id()} else old(finalizers)
    {
      deleted, added := [], None;
      var linkIndex := ResolveLinkName(links, res.spec.outLinkName);
      match res.phase
      case TearingDown =>
        ok, deleted := SyncTornDown(links, routes, res);
      case Running =>
        if linkIndex == 0 && res.spec.outLinkName != "" {
          return true, [], None;
        }
        ok, deleted, added := SyncRunning(links, routes, res, linkIndex);
    }

    /** The loop that adds a finalizer to every running resource. */
    method AddFinalizers(list: seq<Resource>) returns (ok: bool)
      modifies this`finalizers, this`faults
      ensures faults == old(faults) + if ok then 0 else 1
      ensures old(finalizers) <= finalizers
      ensures ok ==> finalizers == old(finalizers) + IdsIn(list, Running)
    {
      for i := 0 to |list|
        invariant finalizers == old(finalizers) + IdsIn(list[..i], Running) && faults == old(faults)
      {
        TakeMore(list, i);
        if list[i].phase != Running { continue; }
        ok := *;
        if !ok {
          faults := faults + 1;
          return;
        }
        finalizers := finalizers + {list[i].Id()};
      }
      TakeAll(list);
      ok := true;
    }

    /** Resource i of a pass. */
    method SyncNext(links: seq<Link>, routes: seq<Route>, list: seq<Resource>, i: nat, ghost changes: int) returns (ok: bool)
      requires i < |list| && Progress(links, routes, list, kernel.table, i, changes)
      modifies kernel, this`finalizers, this`faults
      ensures Faults() == old(Faults()) + if ok then 0 else 1
      ensures ok ==> Progress(links, routes, list, kernel.table, i + 1, changes + kernel.ops - old(kernel.ops))
      ensures AllCanonical(list) ==> ForeignKept(list, multiset(routes), kernel.table)
      ensures AllCanonical(list) && DistinctIds(list) ==> SettledUpto(links, list, i, kernel.table)
      ensures finalizers == if ok && list[i].phase.TearingDown? then old(finalizers) - {list[i].Id()} else old(finalizers)
    {
      ghost var deleted, added;
      ok, deleted, added := SyncRoute(links, routes, list[i]);
      PassStep(links, routes, list, i, old(kernel.table), kernel.table, deleted, added, ok, changes);
    }

    /** The loop over the resources, judged by the snapshot. */
    method SyncAll(links: seq<Link>, routes: seq<Route>, list: seq<Resource>) returns (ok: bool)
      requires multiset(routes) == kernel.table
      modifies kernel, this`finalizers, this`faults
      ensures Faults() == old(Faults()) + if ok then 0 else 1
      ensures ok ==> Progress(links, routes, list, kernel.table, |list|, kernel.ops - old(kernel.ops))
      ensures ok ==> finalizers == old(finalizers) - IdsIn(list, TearingDown)
      ensures AllCanonical(list) ==> ForeignKept(list, multiset(routes), kernel.table)
      ensures AllCanonical(list) && DistinctIds(list) ==> RemovedSettled(links, list, kernel.table, old(finalizers), finalizers)
    {
      for i := 0 to |list|
        invariant Progress(links, routes, list, kernel.table, i, kernel.ops - old(kernel.ops))
        invariant finalizers == old(finalizers) - IdsIn(list[..i], TearingDown) && Faults() == old(Faults())
      {
        ok := SyncNext(links, routes, list, i, kernel.ops - old(kernel.ops));
        TakeMore(list, i);
        if !ok {
          RemovedAreSettled(links, list, i, kernel.table, old(finalizers));
          return;
        }
      }
      TakeAll(list);
      RemovedAreSettled(links, list, |list|, kernel.table, old(finalizers));
      ok := true;
    }

    /** One pass over the resources, judged by one snapshot that goes stale. If the IPv4 specs are canonical, with tables
        below 256, whatever IPv6 specs there are beside them: IPv4 routes that match no resource are left alone whatever
        happens; with distinct ids, a pass without error settles every IPv4 resource and leaves the routes of
        a skipped one alone, and at no time is a finalizer gone before the routes of its resource are. A pass
        without error asks for exactly the changes that its snapshot calls for; and an error is a call that failed. */
    method Pass(links: seq<Link>, list: seq<Resource>) returns (ok: bool, ghost snapshot: seq<Route>)
      modifies kernel, this`finalizers, this`faults
      ensures Faults() == old(Faults()) + if ok then 0 else 1
      ensures AllCanonical(list) ==> ForeignKept(list, old(kernel.table), kernel.table)
      ensures ok && AllCanonical(list) && DistinctIds(list) ==>
        Reached(links, list, old(kernel.table), kernel.table, |list|) && EachAsSpecified(links, list, kernel.table)
      ensures AllCanonical(list) && DistinctIds(list) ==>
        RemovedSettled(links, list, kernel.table, old(finalizers), finalizers)
      ensures ok ==> multiset(snapshot) == old(kernel.table) && kernel.ops == old(kernel.ops) + Work(links, snapshot, list)
      ensures ok && Work(links, snapshot, list) == 0 ==> kernel.table == old(kernel.table)
      ensures ok ==> finalizers == old(finalizers) + IdsIn(list, Running) - IdsIn(list, TearingDown)
    {
      snapshot := [];
      ok := AddFinalizers(list);
      if !ok { return; }
      var routes;
      ok, routes := kernel.List();
      if !ok { return; }
      snapshot := routes;
      TakeAll(list);
      ok := SyncAll(links, routes, list);
      if ok && AllCanonical(list) && DistinctIds(list) {
        ReachedIsSpecified(links, list, multiset(routes), kernel.table);
      }
    }
  }
}
