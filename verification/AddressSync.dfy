/** The address reconciler (address_spec.go): one pass from a snapshot of the kernel's addresses that goes stale as it works. */
module AddressSync {
  import opened Common
  import opened RouteKey
  import opened RouteSync
  import Broadcast

  // ---------------------------------------------------------------------------------------------
  // Flags

  // The flags that AddressFlags.Managed keeps. The model holds for any mask.
  const MANAGED_FLAGS: bv32

  function Managed(flags: bv32): bv32 {
    flags & MANAGED_FLAGS
  }

  function Truncated(flags: bv32): bv32 {
    flags & 0xFF
  }

  /** rtnetlink.AddressMessage; header holds the 8 flag bits of the message header, attr the IFA_FLAGS attribute
      (0 where it is missing), other stands for what is not looked at. */
  datatype Entry = Entry(index: nat, prefixLength: nat, address: seq<Byte>, scope: nat, header: bv32, attr: bv32,
                         broadcast: Option<Addr>, other: nat)

  /** addressFlags. */
  function AddressFlags(e: Entry): bv32 {
    e.attr | e.header
  }

  /** What a kernel that has flags says about them, in the header and, unless it is old, in the attribute. */
  predicate Reports(e: Entry, flags: bv32, withAttribute: bool) {
    e.header == Truncated(flags) && e.attr == if withAttribute then flags else 0
  }

  /** The or of the truncated header and the full attribute gives the flags back; without the attribute the managed
      flags are recovered exactly if all of them are among the low 8 bits. */
  lemma FlagsRecovered(e: Entry, flags: bv32, withAttribute: bool)
    requires Reports(e, flags, withAttribute)
    ensures withAttribute ==> AddressFlags(e) == flags
    ensures Managed(AddressFlags(e)) == Managed(flags) <==> withAttribute || Managed(flags) < 256
  {
  }

  // ---------------------------------------------------------------------------------------------
  // Specs and entries

  /** AddressSpecSpec. */
  datatype AddressSpec = AddressSpec(address: Prefix, linkName: string, scope: nat, flags: bv32)

  datatype AddressResource = AddressResource(id: string, spec: AddressSpec, phase: Phase)

  /** The entry is for this prefix on this link. */
  predicate At(e: Entry, link: nat, p: Prefix) {
    e.index == link && e.prefixLength == p.bits && IpEqual(e.address, p.addr.AsSlice())
  }

  predicate SameEntryKey(e: Entry, f: Entry) {
    e.index == f.index && e.prefixLength == f.prefixLength && IpEqual(e.address, f.address)
  }

  /** The entry is as the spec wants it, as far as the reconciler can tell. */
  predicate EntryConforms(e: Entry, s: AddressSpec) {
    e.scope == s.scope && Managed(AddressFlags(e)) == Managed(s.flags)
  }

  /** The kernel holds at most one entry for a prefix on a link, and has no link 0. */
  ghost predicate WellFormed(t: set<Entry>)
  {
    && (forall e, f :: e in t && f in t && SameEntryKey(e, f) ==> e == f)
    && (forall e :: e in t ==> e.index != 0)
  }

  function FindAddress(addrs: seq<Entry>, link: nat, p: Prefix): Option<Entry>
  {
    if addrs == [] then None
    else if At(addrs[0], link, p) then Some(addrs[0])
    else FindAddress(addrs[1..], link, p)
  }

  lemma {:induction false} FindsAny(addrs: seq<Entry>, link: nat, p: Prefix)
    ensures FindAddress(addrs, link, p).None? <==> forall e :: e in addrs ==> !At(e, link, p)
    ensures FindAddress(addrs, link, p).Some? ==>
      FindAddress(addrs, link, p).value in addrs && At(FindAddress(addrs, link, p).value, link, p)
  {
    if addrs != [] {
      FindsAny(addrs[1..], link, p);
      assert addrs == [addrs[0]] + addrs[1..];
    }
  }

  method FindEntry(addrs: seq<Entry>, link: nat, p: Prefix) returns (found: Option<Entry>)
    ensures found == FindAddress(addrs, link, p)
  {
    for i := 0 to |addrs|
      invariant FindAddress(addrs[i..], link, p) == FindAddress(addrs, link, p)
    {
      assert addrs[i..][1..] == addrs[i + 1..];
      if addrs[i].index != link { continue; }
      if addrs[i].prefixLength != p.bits { continue; }
      if !IpEqual(addrs[i].address, p.addr.AsSlice()) { continue; }
      return Some(addrs[i]);
    }
    found := None;
  }

  // ---------------------------------------------------------------------------------------------
  // The kernel

  /** The message of a New. */
  datatype NewRequest = NewRequest(index: nat, prefixLength: nat, address: seq<Byte>, scope: nat, header: bv32, attr: bv32,
                                   broadcast: Option<Addr>)

  /** uint8 of the prefix length, which is -1 for the zero value. */
  function Uint8(n: int): nat {
    n % 256
  }

  function NewFor(s: AddressSpec, link: nat, broadcast: Option<Addr>): NewRequest {
    NewRequest(link, Uint8(s.address.bits), s.address.addr.AsSlice(), s.scope, Truncated(Managed(s.flags)),
               Managed(s.flags), broadcast)
  }

  /** What the kernel keeps of a New: what was asked, with any flags outside the mask. An old kernel sees only the header. */
  ghost predicate EchoesNew(q: NewRequest, e: Entry, withAttribute: bool)
  {
    && e.index == q.index && e.prefixLength == q.prefixLength && e.address == q.address && e.scope == q.scope
    && e.broadcast == q.broadcast
    && exists flags :: Reports(e, flags, withAttribute) && Managed(flags) == Managed(if withAttribute then q.attr else q.header)
  }

  datatype NewResult = Added | Exists | Failed

  class AddressKernel {
    var table: set<Entry>
    var ops: nat
    var faults: nat
    const withAttribute: bool

    constructor (table: set<Entry>, withAttribute: bool)
      ensures this.table == table && ops == 0 && faults == 0 && this.withAttribute == withAttribute
    {
      this.table, ops, faults, this.withAttribute := table, 0, 0, withAttribute;
    }

    method List() returns (ok: bool, addrs: seq<Entry>)
      modifies this`faults
      ensures ok ==> forall e :: e in addrs <==> e in table
      ensures faults == old(faults) + if ok then 0 else 1
    {
      ok, addrs := *, [];
      faults := faults + if ok then 0 else 1;
      var left := table;
      while left != {}
        invariant forall e :: e in table <==> e in addrs || e in left
        decreases |left|
      {
        var e :| e in left;
        addrs := addrs + [e];
        left := left - {e};
      }
    }

    method Delete(e: Entry) returns (ok: bool)
      modifies this`table, this`ops, this`faults
      ensures ops == old(ops) + 1 && faults == old(faults) + if ok then 0 else 1
      ensures ok ==> e in old(table) && table == old(table) - {e}
      ensures !ok ==> table == old(table)
    {
      ops := ops + 1;
      ok := *;
      ok := ok && e in table;
      faults := faults + if ok then 0 else 1;
      if ok {
        table := table - {e};
      }
    }

    /** Refuses with EEXIST, which is not counted as a fault, exactly a prefix that the link has. */
    method New(q: NewRequest) returns (result: NewResult, ghost added: Entry)
      modifies this`table, this`ops, this`faults
      ensures ops == old(ops) + 1 && faults == old(faults) + if result.Failed? then 1 else 0
      ensures EchoesNew(q, added, withAttribute)
      ensures WellFormed(old(table)) && q.index != 0 ==> WellFormed(table)
      ensures result.Added? ==> table == old(table) + {added} && forall e :: e in old(table) ==> !SameEntryKey(e, added)
      ensures !result.Added? ==> table == old(table)
      ensures result.Exists? ==> exists e :: e in table && SameEntryKey(e, added)
    {
      ops := ops + 1;
      var flags := if withAttribute then q.attr else q.header;
      var e := Entry(q.index, q.prefixLength, q.address, q.scope, Truncated(flags), if withAttribute then flags else 0,
                     q.broadcast, 0);
      assert Reports(e, flags, withAttribute);
      added := e;
      var fail := *;
      if fail {
        result := Failed;
        faults := faults + 1;
      } else if f :| f in table && SameEntryKey(f, e) {
        result := Exists;
      } else {
        result := Added;
        table := table + {e};
      }
    }
  }

  // ---------------------------------------------------------------------------------------------
  // One resource

  function LinkOf(links: seq<Link>, res: AddressResource): nat {
    LinkIndex(links, res.spec.linkName)
  }

  /** syncAddress looks for an entry: a running resource whose link exists, or -- as the code has it -- a torn-down one
      whose link does not. */
  predicate Touched(links: seq<Link>, res: AddressResource) {
    res.phase.Running? <==> LinkOf(links, res) != 0
  }

  function Found(links: seq<Link>, addrs: seq<Entry>, res: AddressResource): Option<Entry> {
    FindAddress(addrs, LinkOf(links, res), res.spec.address)
  }

  /** The snapshot gives no reason to change anything. */
  predicate Idle(links: seq<Link>, addrs: seq<Entry>, res: AddressResource) {
    var found := Found(links, addrs, res);
    || !Touched(links, res)
    || (if res.phase.Running? then found.Some? && EntryConforms(found.value, res.spec) else found.None?)
  }

  predicate Mine(links: seq<Link>, res: AddressResource, e: Entry) {
    Touched(links, res) && At(e, LinkOf(links, res), res.spec.address)
  }

  function Opt(e: Option<Entry>): set<Entry> {
    if e.Some? then {e.value} else {}
  }

  function Count(e: Option<Entry>): nat {
    if e.Some? then 1 else 0
  }

  /** What one call may do: delete what it found, and add an echo of its request. */
  ghost predicate EntryChanged(links: seq<Link>, addrs: seq<Entry>, res: AddressResource, withAttribute: bool,
                               t: set<Entry>, t': set<Entry>, deleted: Option<Entry>, added: Option<Entry>)
  {
    && t' == t - Opt(deleted) + Opt(added)
    && (deleted.Some? ==> !Idle(links, addrs, res) && deleted == Found(links, addrs, res) && deleted.value in t)
    && (added.Some? ==>
          && !Idle(links, addrs, res) && res.phase.Running? && deleted == Found(links, addrs, res)
          && exists b :: Broadcast.IsBroadcast(res.spec.address, b)
                       && EchoesNew(NewFor(res.spec, LinkOf(links, res), b), added.value, withAttribute))
  }

  /** What a call that returned no error did: everything that the snapshot called for, except that New may have found
      the prefix on its link. */
  ghost predicate EntryDone(links: seq<Link>, addrs: seq<Entry>, res: AddressResource, t': set<Entry>,
                            deleted: Option<Entry>, added: Option<Entry>)
  {
    && (!Idle(links, addrs, res) ==> deleted == Found(links, addrs, res))
    && (!Idle(links, addrs, res) && res.phase.Running? && added.None? ==>
          exists e, b, f, w :: e in t' && EchoesNew(NewFor(res.spec, LinkOf(links, res), b), f, w) && SameEntryKey(e, f))
  }

  // ---------------------------------------------------------------------------------------------
  // Places that do not overlap

  predicate SamePlace(r: AddressResource, s: AddressResource) {
    && r.spec.linkName == s.spec.linkName && r.spec.address.bits == s.spec.address.bits
    && IpEqual(r.spec.address.addr.AsSlice(), s.spec.address.addr.AsSlice())
  }

  predicate DistinctPlaces(list: seq<AddressResource>) {
    forall j, k :: 0 <= j < k < |list| ==> !SamePlace(list[j], list[k])
  }

  predicate DistinctLinks(links: seq<Link>) {
    forall i, j :: 0 <= i < j < |links| ==> links[i].index != links[j].index
  }

  /** The prefixes are valid, and the kernel can report their managed flags. */
  predicate Expressible(list: seq<AddressResource>, withAttribute: bool) {
    forall k :: 0 <= k < |list| ==>
      list[k].spec.address.Valid() && (withAttribute || Managed(list[k].spec.flags) < 256)
  }

  lemma {:induction false} LinkIndexFrom(links: seq<Link>, name: string) returns (i: nat)
    requires LinkIndex(links, name) != 0
    ensures i < |links| && links[i].name == name && links[i].index == LinkIndex(links, name)
  {
    if links[0].name == name {
      i := 0;
    } else {
      i := LinkIndexFrom(links[1..], name);
      i := i + 1;
    }
  }

  lemma LinkNames(links: seq<Link>, m: string, n: string)
    requires DistinctLinks(links) && LinkIndex(links, m) == LinkIndex(links, n) != 0
    ensures m == n
  {
    var i := LinkIndexFrom(links, m);
    var j := LinkIndexFrom(links, n);
    assert i == j;
  }

  lemma IpEqualTrans(x: seq<Byte>, y: seq<Byte>, z: seq<Byte>)
    requires IpEqual(y, x) && IpEqual(y, z)
    ensures IpEqual(x, z) && IpEqual(x, y)
  {
    if |x| == |z| == 4 && |y| == 16 {
      assert y[12..] == x && y[12..] == z;
    }
  }

  /** An entry of the kernel is the business of at most one resource. */
  lemma PlacesApart(links: seq<Link>, r: AddressResource, s: AddressResource, e: Entry)
    requires DistinctLinks(links) && e.index != 0 && Mine(links, r, e) && Mine(links, s, e)
    ensures SamePlace(r, s)
  {
    LinkNames(links, r.spec.linkName, s.spec.linkName);
    IpEqualTrans(r.spec.address.addr.AsSlice(), e.address, s.spec.address.addr.AsSlice());
  }

  lemma ManagedTwice(flags: bv32)
    ensures Managed(Managed(flags)) == Managed(flags)
  {
  }

  lemma EchoFlags(e: Entry, wanted: bv32, flags: bv32, withAttribute: bool)
    requires Managed(wanted) == wanted
    requires Reports(e, flags, withAttribute) && Managed(flags) == Managed(if withAttribute then wanted else Truncated(wanted))
    ensures Managed(AddressFlags(e)) == wanted <==> withAttribute || wanted < 256
  {
    if withAttribute {
      FlagsRecovered(e, flags, true);
    } else {
      HeaderFlags(wanted, flags);
      assert AddressFlags(e) == Truncated(flags);
    }
  }

  /** Flags that agree with the header of a request in what is managed. */
  lemma HeaderFlags(wanted: bv32, flags: bv32)
    requires Managed(wanted) == wanted && Managed(flags) == Managed(Truncated(wanted))
    ensures Managed(Truncated(flags)) == wanted <==> wanted < 256
  {
  }

  lemma EchoedFlags(e: Entry, wanted: bv32, withAttribute: bool)
    requires exists f :: wanted == Managed(f)
    requires exists flags ::
      Reports(e, flags, withAttribute) && Managed(flags) == Managed(if withAttribute then wanted else Truncated(wanted))
    ensures Managed(AddressFlags(e)) == wanted <==> withAttribute || wanted < 256
  {
    var flags :| Reports(e, flags, withAttribute) && Managed(flags) == Managed(if withAttribute then wanted else Truncated(wanted));
    var f :| wanted == Managed(f);
    ManagedTwice(f);
    EchoFlags(e, wanted, flags, withAttribute);
  }

  lemma ConformsByFlags(e: Entry, s: AddressSpec, wanted: bv32)
    requires e.scope == s.scope && wanted == Managed(s.flags)
    ensures EntryConforms(e, s) <==> Managed(AddressFlags(e)) == wanted
  {
  }

  /** A New asks for the place and the scope of the spec, and for no flag but its managed ones: all in the attribute, and the low
      8 bits of them in the header. */
  lemma AsksForManaged(s: AddressSpec, link: nat, broadcast: Option<Addr>)
    requires s.address.Valid()
    ensures var q := NewFor(s, link, broadcast);
      && q.index == link && q.prefixLength == s.address.bits && IsAddr(q.address, s.address.addr) && q.scope == s.scope
      && Managed(q.attr) == q.attr == Managed(s.flags) && q.header == q.attr & 0xFF && q.broadcast == broadcast
  {
    SmallByte(s.address.bits);
    ManagedTwice(s.flags);
  }

  lemma EchoAt(s: AddressSpec, link: nat, b: Option<Addr>, e: Entry, withAttribute: bool)
    requires s.address.Valid() && EchoesNew(NewFor(s, link, b), e, withAttribute)
    ensures At(e, link, s.address) && e.scope == s.scope
  {
    SmallByte(s.address.bits);
  }

  lemma NewConforms(s: AddressSpec, link: nat, b: Option<Addr>, e: Entry, withAttribute: bool)
    requires EchoesNew(NewFor(s, link, b), e, withAttribute)
    ensures EntryConforms(e, s) <==> withAttribute || Managed(s.flags) < 256
  {
    EchoedFlags(e, Managed(s.flags), withAttribute);
    ConformsByFlags(e, s, Managed(s.flags));
  }

  /** What the kernel makes of a New is an entry at the place of the spec; the next pass takes it for conforming unless
      the kernel is old and a managed flag is above the low 8 bits. */
  lemma EchoIsMine(s: AddressSpec, link: nat, b: Option<Addr>, e: Entry, withAttribute: bool)
    requires s.address.Valid() && EchoesNew(NewFor(s, link, b), e, withAttribute)
    ensures At(e, link, s.address)
    ensures EntryConforms(e, s) <==> withAttribute || Managed(s.flags) < 256
  {
    EchoAt(s, link, b, e, withAttribute);
    NewConforms(s, link, b, e, withAttribute);
  }

  /** A running resource whose link exists has an entry, and any entry it has conforms. */
  ghost predicate EntrySettled(links: seq<Link>, t: set<Entry>, res: AddressResource)
  {
    res.phase.Running? && LinkOf(links, res) != 0 ==>
      && (exists e :: e in t && Mine(links, res, e) && EntryConforms(e, res.spec))
      && (forall e :: e in t && Mine(links, res, e) ==> EntryConforms(e, res.spec))
  }

  // The same, field by field, for addresses as netip makes them.

  /** The entry is for this prefix, on the link of this index. */
  predicate InPlace(e: Entry, link: nat, p: Prefix) {
    e.index == link && e.prefixLength == p.bits && IsAddr(e.address, p.addr)
  }

  /** It has the scope of the spec, and its managed flags, as far as they are reported. */
  predicate AsAssigned(e: Entry, s: AddressSpec) {
    e.scope == s.scope && Managed(e.attr | e.header) == Managed(s.flags)
  }

  /** A running resource has an entry on the first link of its name, if there is one with an index other than 0; and any entry that
      it has there is as its spec says. */
  ghost predicate Assigned(links: seq<Link>, t: set<Entry>, res: AddressResource)
  {
    res.phase.Running? && res.spec.linkName != "" ==>
      forall i :: FirstNamed(links, res.spec.linkName, i) && links[i].index != 0 ==>
        && (exists e :: e in t && InPlace(e, links[i].index, res.spec.address) && AsAssigned(e, res.spec))
        && (forall e :: e in t && InPlace(e, links[i].index, res.spec.address) ==> AsAssigned(e, res.spec))
  }

  lemma InPlaceMeans(e: Entry, link: nat, p: Prefix)
    requires Sized(p.addr)
    ensures At(e, link, p) <==> InPlace(e, link, p)
  {
    IsAddrMeans(e.address, p.addr);
  }

  lemma SettledIsAssigned(links: seq<Link>, t: set<Entry>, res: AddressResource)
    requires Sized(res.spec.address.addr)
    ensures EntrySettled(links, t, res) <==> Assigned(links, t, res)
  {
    var link := LinkOf(links, res);
    LinkIndexMeans(links, res.spec.linkName);
    var i := SomeFirstNamed(links, res.spec.linkName);
    if res.phase.Running? {
      forall e ensures link != 0 ==> (Mine(links, res, e) <==> InPlace(e, link, res.spec.address)) {
        InPlaceMeans(e, link, res.spec.address);
      }
      forall e ensures EntryConforms(e, res.spec) <==> AsAssigned(e, res.spec) {
        assert AddressFlags(e) == e.attr | e.header;
      }
    }
  }

  ghost predicate SameMine(links: seq<Link>, res: AddressResource, t: set<Entry>, t': set<Entry>)
  {
    forall e :: Mine(links, res, e) ==> (e in t <==> e in t')
  }

  lemma EntryOthersKept(links: seq<Link>, addrs: seq<Entry>, res: AddressResource, withAttribute: bool, t: set<Entry>,
                        t': set<Entry>, deleted: Option<Entry>, added: Option<Entry>, e: Entry)
    requires EntryChanged(links, addrs, res, withAttribute, t, t', deleted, added)
    requires res.spec.address.Valid() && !Mine(links, res, e)
    ensures e in t' <==> e in t
  {
    var link := LinkOf(links, res);
    FindsAny(addrs, link, res.spec.address);
    if added.Some? {
      var b :| EchoesNew(NewFor(res.spec, link, b), added.value, withAttribute);
      EchoIsMine(res.spec, link, b, added.value, withAttribute);
    }
  }

  lemma AtMost(t: set<Entry>, link: nat, p: Prefix, e: Entry, f: Entry)
    requires WellFormed(t) && e in t && f in t && At(e, link, p) && At(f, link, p)
    ensures e == f
  {
    IpEqualSym(e.address, p.addr.AsSlice());
    IpEqualSym(f.address, p.addr.AsSlice());
    IpEqualTrans(e.address, p.addr.AsSlice(), f.address);
  }

  lemma IpEqualSym(x: seq<Byte>, y: seq<Byte>)
    ensures IpEqual(x, y) <==> IpEqual(y, x)
  {
  }

  ghost predicate Holds(addrs: seq<Entry>, t: set<Entry>) {
    forall e :: e in addrs <==> e in t
  }

  /** An entry was found for the resource exactly if the snapshot has one, and then it is the only one. */
  lemma FoundIsMine(links: seq<Link>, addrs: seq<Entry>, res: AddressResource, t0: set<Entry>)
    requires WellFormed(t0) && Holds(addrs, t0) && Touched(links, res)
    ensures var found := Found(links, addrs, res);
      && (found.Some? ==> Mine(links, res, found.value) && found.value in t0)
      && forall e :: e in t0 && Mine(links, res, e) ==> found == Some(e)
  {
    var link := LinkOf(links, res);
    FindsAny(addrs, link, res.spec.address);
    var found := Found(links, addrs, res);
    forall e | e in t0 && Mine(links, res, e) ensures found == Some(e) {
      AtMost(t0, link, res.spec.address, e, found.value);
    }
  }

  /** New said EEXIST only if an entry is at the place of the spec. */
  lemma ExistsIsMine(links: seq<Link>, res: AddressResource, b: Option<Addr>, e: Entry, f: Entry, w: bool)
    requires res.spec.address.Valid() && EchoesNew(NewFor(res.spec, LinkOf(links, res), b), f, w) && SameEntryKey(e, f)
    ensures At(e, LinkOf(links, res), res.spec.address)
  {
    EchoAt(res.spec, LinkOf(links, res), b, f, w);
  }

  lemma NewIsAdded(links: seq<Link>, addrs: seq<Entry>, res: AddressResource, w: bool, t0: set<Entry>, t: set<Entry>,
                   t': set<Entry>, deleted: Option<Entry>, added: Option<Entry>)
    requires WellFormed(t0) && Holds(addrs, t0) && SameMine(links, res, t0, t)
    requires EntryChanged(links, addrs, res, w, t, t', deleted, added) && EntryDone(links, addrs, res, t', deleted, added)
    requires res.spec.address.Valid() && res.phase.Running? && !Idle(links, addrs, res)
    ensures added.Some?
  {
    FoundIsMine(links, addrs, res, t0);
    assert added.None? ==> forall e :: e in t' ==> !At(e, LinkOf(links, res), res.spec.address) by {
      assert forall e :: At(e, LinkOf(links, res), res.spec.address) ==> Mine(links, res, e);
    }
    if added.None? {
      var e, b, f, w' :| e in t' && EchoesNew(NewFor(res.spec, LinkOf(links, res), b), f, w') && SameEntryKey(e, f);
      ExistsIsMine(links, res, b, e, f, w');
      assert false;
    }
  }

  lemma EntrySyncSettles(links: seq<Link>, addrs: seq<Entry>, res: AddressResource, w: bool, t0: set<Entry>, t: set<Entry>,
                         t': set<Entry>, deleted: Option<Entry>, added: Option<Entry>)
    requires WellFormed(t0) && Holds(addrs, t0) && SameMine(links, res, t0, t)
    requires EntryChanged(links, addrs, res, w, t, t', deleted, added) && EntryDone(links, addrs, res, t', deleted, added)
    requires res.spec.address.Valid() && (w || Managed(res.spec.flags) < 256)
    ensures EntrySettled(links, t', res) && (Sized(res.spec.address.addr) ==> Assigned(links, t', res))
  {
    EntryCallSettles(links, addrs, res, w, t0, t, t', deleted, added);
    if Sized(res.spec.address.addr) {
      SettledIsAssigned(links, t', res);
    }
  }

  lemma EntryCallSettles(links: seq<Link>, addrs: seq<Entry>, res: AddressResource, w: bool, t0: set<Entry>, t: set<Entry>,
                         t': set<Entry>, deleted: Option<Entry>, added: Option<Entry>)
    requires WellFormed(t0) && Holds(addrs, t0) && SameMine(links, res, t0, t)
    requires EntryChanged(links, addrs, res, w, t, t', deleted, added) && EntryDone(links, addrs, res, t', deleted, added)
    requires res.spec.address.Valid() && (w || Managed(res.spec.flags) < 256)
    ensures EntrySettled(links, t', res)
  {
    if res.phase.Running? && LinkOf(links, res) != 0 {
      FoundIsMine(links, addrs, res, t0);
      if Idle(links, addrs, res) {
        assert t' == t;
      } else {
        NewIsAdded(links, addrs, res, w, t0, t, t', deleted, added);
        var b :| EchoesNew(NewFor(res.spec, LinkOf(links, res), b), added.value, w);
        EchoIsMine(res.spec, LinkOf(links, res), b, added.value, w);
        assert added.value in t' && Mine(links, res, added.value);
        assert forall e :: e in t' && Mine(links, res, e) ==> e == added.value;
      }
    }
  }

  // ---------------------------------------------------------------------------------------------
  // One pass

  predicate ForeignEntry(links: seq<Link>, list: seq<AddressResource>, e: Entry) {
    forall k :: 0 <= k < |list| ==> !Mine(links, list[k], e)
  }

  ghost predicate ForeignEntriesKept(links: seq<Link>, list: seq<AddressResource>, t0: set<Entry>, t: set<Entry>)
  {
    forall e :: ForeignEntry(links, list, e) ==> (e in t <==> e in t0)
  }

  predicate AllValid(list: seq<AddressResource>) {
    forall k :: 0 <= k < |list| ==> list[k].spec.address.Valid()
  }

  ghost predicate EntriesSettledUpto(links: seq<Link>, list: seq<AddressResource>, i: nat, t: set<Entry>)
  {
    forall k :: 0 <= k < |list| && k < i ==> EntrySettled(links, t, list[k])
  }

  ghost predicate EntriesKeptFrom(links: seq<Link>, list: seq<AddressResource>, i: nat, t0: set<Entry>, t: set<Entry>)
  {
    forall k :: i <= k < |list| ==> SameMine(links, list[k], t0, t)
  }

  function AddressIds(list: seq<AddressResource>, phase: Phase): set<string>
  {
    if list == [] then {}
    else AddressIds(list[..|list| - 1], phase) + if Last(list).phase == phase then {Last(list).id} else {}
  }

  /** What the pass theorem assumes of its inputs. */
  predicate Separate(links: seq<Link>, list: seq<AddressResource>, w: bool) {
    DistinctLinks(links) && DistinctPlaces(list) && Expressible(list, w)
  }

  ghost predicate EntriesReached(links: seq<Link>, list: seq<AddressResource>, t0: set<Entry>, t: set<Entry>, i: nat)
  {
    EntriesSettledUpto(links, list, i, t) && EntriesKeptFrom(links, list, i, t0, t)
  }

  ghost predicate EachAssigned(links: seq<Link>, list: seq<AddressResource>, t: set<Entry>)
  {
    forall k :: 0 <= k < |list| && Sized(list[k].spec.address.addr) ==> Assigned(links, t, list[k])
  }

  lemma ReachedIsAssigned(links: seq<Link>, list: seq<AddressResource>, t: set<Entry>)
    requires EntriesSettledUpto(links, list, |list|, t)
    ensures EachAssigned(links, list, t)
  {
    forall k | 0 <= k < |list| && Sized(list[k].spec.address.addr) ensures Assigned(links, t, list[k]) {
      SettledIsAssigned(links, t, list[k]);
    }
  }

  lemma ForeignEntryStep(links: seq<Link>, addrs: seq<Entry>, list: seq<AddressResource>, i: nat, w: bool, t: set<Entry>,
                         t': set<Entry>, deleted: Option<Entry>, added: Option<Entry>)
    requires i < |list| && AllValid(list) && EntryChanged(links, addrs, list[i], w, t, t', deleted, added)
    ensures ForeignEntriesKept(links, list, t, t')
  {
    forall e | ForeignEntry(links, list, e) ensures e in t' <==> e in t {
      EntryOthersKept(links, addrs, list[i], w, t, t', deleted, added, e);
    }
  }

  /** A call for resource i disturbs no other resource. */
  lemma EntryOthersStep(links: seq<Link>, addrs: seq<Entry>, list: seq<AddressResource>, i: nat, k: nat, w: bool,
                        t: set<Entry>, t': set<Entry>, deleted: Option<Entry>, added: Option<Entry>)
    requires i < |list| && k < |list| && k != i && Separate(links, list, w) && WellFormed(t) && WellFormed(t')
    requires EntryChanged(links, addrs, list[i], w, t, t', deleted, added)
    ensures SameMine(links, list[k], t, t')
  {
    forall e | Mine(links, list[k], e) ensures e in t <==> e in t' {
      if Mine(links, list[i], e) {
        if e in t || e in t' {
          PlacesApart(links, list[i], list[k], e);
          PlacesApart(links, list[k], list[i], e);
        }
      } else {
        EntryOthersKept(links, addrs, list[i], w, t, t', deleted, added, e);
      }
    }
  }

  lemma EntrySettledStays(links: seq<Link>, t: set<Entry>, t': set<Entry>, res: AddressResource)
    requires EntrySettled(links, t, res) && SameMine(links, res, t, t')
    ensures EntrySettled(links, t', res)
  {
  }

  lemma SameMineTrans(links: seq<Link>, res: AddressResource, t0: set<Entry>, t: set<Entry>, t': set<Entry>)
    requires SameMine(links, res, t0, t) && SameMine(links, res, t, t')
    ensures SameMine(links, res, t0, t')
  {
  }

  lemma EntriesReachedStep(links: seq<Link>, addrs: seq<Entry>, list: seq<AddressResource>, i: nat, w: bool, t0: set<Entry>,
                           t: set<Entry>, t': set<Entry>, deleted: Option<Entry>, added: Option<Entry>)
    requires i < |list| && Separate(links, list, w) && WellFormed(t0) && WellFormed(t) && WellFormed(t') && Holds(addrs, t0)
    requires EntriesReached(links, list, t0, t, i)
    requires EntryChanged(links, addrs, list[i], w, t, t', deleted, added)
    requires EntryDone(links, addrs, list[i], t', deleted, added)
    ensures EntriesReached(links, list, t0, t', i + 1)
  {
    EntrySyncSettles(links, addrs, list[i], w, t0, t, t', deleted, added);
    forall k | 0 <= k < i ensures EntrySettled(links, t', list[k]) {
      EntryOthersStep(links, addrs, list, i, k, w, t, t', deleted, added);
      EntrySettledStays(links, t, t', list[k]);
    }
    forall k | i < k < |list| ensures SameMine(links, list[k], t0, t') {
      EntryOthersStep(links, addrs, list, i, k, w, t, t', deleted, added);
      SameMineTrans(links, list[k], t0, t, t');
    }
  }

  /** The changes that a call asks the kernel for. */
  function Changes(links: seq<Link>, addrs: seq<Entry>, res: AddressResource): nat {
    if Idle(links, addrs, res) then 0
    else Count(Found(links, addrs, res)) + if res.phase.Running? then 1 else 0
  }

  function EntryWork(links: seq<Link>, addrs: seq<Entry>, list: seq<AddressResource>): nat
  {
    if list == [] then 0 else EntryWork(links, addrs, list[..|list| - 1]) + Changes(links, addrs, Last(list))
  }

  /** In a table that the kernel can have, a resource calls for no change exactly if it is settled. */
  lemma IdleIffEntrySettled(links: seq<Link>, addrs: seq<Entry>, res: AddressResource, t: set<Entry>)
    requires WellFormed(t) && Holds(addrs, t)
    ensures Changes(links, addrs, res) == 0 <==> EntrySettled(links, t, res)
  {
    if Touched(links, res) {
      FoundIsMine(links, addrs, res, t);
    }
  }

  lemma {:induction false} NoEntryWorkIffSettled(links: seq<Link>, addrs: seq<Entry>, list: seq<AddressResource>, t: set<Entry>)
    requires WellFormed(t) && Holds(addrs, t)
    ensures EntryWork(links, addrs, list) == 0 <==> EntriesSettledUpto(links, list, |list|, t)
  {
    if list != [] {
      var init := list[..|list| - 1];
      NoEntryWorkIffSettled(links, addrs, init, t);
      IdleIffEntrySettled(links, addrs, Last(list), t);
      assert forall k :: 0 <= k < |init| ==> init[k] == list[k];
    }
  }

  /** The tear-down of an address deletes nothing: it looks for the entry only if the link is gone, and then under link
      0, which no entry has. */
  lemma TearDownDeletesNothing(links: seq<Link>, addrs: seq<Entry>, res: AddressResource, t: set<Entry>)
    requires WellFormed(t) && Holds(addrs, t) && res.phase.TearingDown?
    ensures Changes(links, addrs, res) == 0
  {
    IdleIffEntrySettled(links, addrs, res, t);
  }

  /** Convergence: after a pass that reached the end, the next pass over the same resources, from a snapshot of its own,
      asks the kernel for nothing. */
  lemma NextPassIsIdle(links: seq<Link>, list: seq<AddressResource>, t0: set<Entry>, t: set<Entry>, snapshot: seq<Entry>)
    requires WellFormed(t) && Holds(snapshot, t) && EntriesReached(links, list, t0, t, |list|)
    ensures EntryWork(links, snapshot, list) == 0
  {
    NoEntryWorkIffSettled(links, snapshot, list, t);
  }

  class AddressReconciler {
    const kernel: AddressKernel
    var finalizers: set<string>
    var faults: nat

    constructor (kernel: AddressKernel)
      ensures this.kernel == kernel && finalizers == {} && faults == 0
    {
      this.kernel, finalizers, faults := kernel, {}, 0;
    }

    /** The calls that have failed. */
    function Faults(): nat
      reads this, kernel
    {
      kernel.faults + faults
    }

    /** One call does exactly what the snapshot asks for, or stops on the way. The finalizer of a torn-down resource is
        removed first: before its entry is deleted if the link is gone, and without deleting anything if it exists. */
    method SyncAddress(links: seq<Link>, addrs: seq<Entry>, res: AddressResource)
      returns (ok: bool, ghost deleted: Option<Entry>, ghost added: Option<Entry>)
      modifies kernel`table, kernel`ops, kernel`faults, this`finalizers, this`faults
      ensures Faults() == old(Faults()) + if ok then 0 else 1
      ensures EntryChanged(links, addrs, res, kernel.withAttribute, old(kernel.table), kernel.table, deleted, added)
      ensures WellFormed(old(kernel.table)) ==> WellFormed(kernel.table)
      ensures ok ==> EntryDone(links, addrs, res, kernel.table, deleted, added)
      ensures ok ==> kernel.ops == old(kernel.ops) + Changes(links, addrs, res)
      ensures res.phase.Running? ==> finalizers == old(finalizers)
      ensures res.phase.TearingDown? ==>
        finalizers == old(finalizers) - {res.id} || (!ok && finalizers == old(finalizers) && kernel.ops == old(kernel.ops))
    {
      deleted, added := None, None;
      FindsAny(addrs, LinkOf(links, res), res.spec.address);
      var linkIndex := ResolveLinkName(links, res.spec.linkName);
      match res.phase
      case TearingDown =>
        ok := *;
        if !ok {
          faults := faults + 1;
          return;
        }
        finalizers := finalizers - {res.id};
        if linkIndex == 0 {
          var existing := FindEntry(addrs, linkIndex, res.spec.address);
          if existing.Some? {
            ok := kernel.Delete(existing.value);
            if !ok { return; }
            deleted := existing;
          }
        }
      case Running =>
        if linkIndex == 0 {
          return true, None, None;
        }
        var expectedFlags := Managed(res.spec.flags);
        var existing := FindEntry(addrs, linkIndex, res.spec.address);
        if existing.Some? {
          if existing.value.scope == res.spec.scope && Managed(AddressFlags(existing.value)) == expectedFlags {
            return true, None, None;
          }
          ok := kernel.Delete(existing.value);
          if !ok { return; }
          deleted := existing;
        }
        var broadcast := Broadcast.BroadcastAddr(res.spec.address);
        var result;
        ghost var e;
        result, e := kernel.New(NewFor(res.spec, linkIndex, broadcast));
        ok := !result.Failed?;
        added := if result.Added? then Some(e) else None;
    }

    /** The loop that adds a finalizer to every running resource. */
    method AddFinalizers(list: seq<AddressResource>) returns (ok: bool)
      modifies this`finalizers, this`faults
      ensures faults == old(faults) + if ok then 0 else 1
      ensures ok ==> finalizers == old(finalizers) + AddressIds(list, Running)
    {
      for i := 0 to |list|
        invariant finalizers == old(finalizers) + AddressIds(list[..i], Running) && faults == old(faults)
      {
        TakeMore(list, i);
        if list[i].phase != Running { continue; }
        ok := *;
        if !ok {
          faults := faults + 1;
          return;
        }
        finalizers := finalizers + {list[i].id};
      }
      TakeAll(list);
      ok := true;
    }

    /** The loop over the resources, judged by the snapshot. */
    method SyncAll(links: seq<Link>, addrs: seq<Entry>, list: seq<AddressResource>) returns (ok: bool)
      requires WellFormed(kernel.table) && Holds(addrs, kernel.table)
      modifies kernel`table, kernel`ops, kernel`faults, this`finalizers, this`faults
      ensures Faults() == old(Faults()) + if ok then 0 else 1
      ensures WellFormed(kernel.table)
      ensures AllValid(list) ==> ForeignEntriesKept(links, list, old(kernel.table), kernel.table)
      ensures ok && Separate(links, list, kernel.withAttribute) ==>
        EntriesReached(links, list, old(kernel.table), kernel.table, |list|)
      ensures ok ==> kernel.ops == old(kernel.ops) + EntryWork(links, addrs, list)
      ensures ok ==> finalizers == old(finalizers) - AddressIds(list, TearingDown)
    {
      ghost var t0, w := kernel.table, kernel.withAttribute;
      for i := 0 to |list|
        invariant WellFormed(kernel.table)
        invariant AllValid(list) ==> ForeignEntriesKept(links, list, t0, kernel.table)
        invariant Separate(links, list, w) ==> EntriesReached(links, list, t0, kernel.table, i)
        invariant kernel.ops == old(kernel.ops) + EntryWork(links, addrs, list[..i])
        invariant finalizers == old(finalizers) - AddressIds(list[..i], TearingDown) && Faults() == old(Faults())
      {
        ghost var t := kernel.table;
        ghost var deleted, added;
        ok, deleted, added := SyncAddress(links, addrs, list[i]);
        if AllValid(list) {
          ForeignEntryStep(links, addrs, list, i, w, t, kernel.table, deleted, added);
        }
        if !ok { return; }
        if Separate(links, list, w) {
          EntriesReachedStep(links, addrs, list, i, w, t0, t, kernel.table, deleted, added);
        }
        TakeMore(list, i);
      }
      TakeAll(list);
      ok := true;
    }

    /** One pass. Whatever happens, entries that are no resource's business stay; and if links and places are distinct and
        the kernel can report the flags, a pass without error leaves every running resource whose link exists with
        an entry that conforms. A pass without error asks for exactly the changes that its snapshot calls for; and an
        error is a call that failed, an EEXIST is none. */
    method Pass(links: seq<Link>, list: seq<AddressResource>) returns (ok: bool, ghost snapshot: seq<Entry>)
      requires WellFormed(kernel.table)
      modifies kernel`table, kernel`ops, kernel`faults, this`finalizers, this`faults
      ensures Faults() == old(Faults()) + if ok then 0 else 1
      ensures WellFormed(kernel.table)
      ensures AllValid(list) ==> ForeignEntriesKept(links, list, old(kernel.table), kernel.table)
      ensures ok && Separate(links, list, kernel.withAttribute) ==>
        EntriesReached(links, list, old(kernel.table), kernel.table, |list|) && EachAssigned(links, list, kernel.table)
      ensures ok ==> Holds(snapshot, old(kernel.table)) && kernel.ops == old(kernel.ops) + EntryWork(links, snapshot, list)
      ensures ok ==> finalizers == old(finalizers) + AddressIds(list, Running) - AddressIds(list, TearingDown)
    {
      snapshot := [];
      ok := AddFinalizers(list);
      if !ok { return; }
      var addrs;
      ok, addrs := kernel.List();
      if !ok { return; }
      snapshot := addrs;
      ok := SyncAll(links, addrs, list);
      if ok && Separate(links, list, kernel.withAttribute) {
        ReachedIsAssigned(links, list, kernel.table);
      }
    }
  }
}
