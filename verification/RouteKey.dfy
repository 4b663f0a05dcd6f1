/** Route specs, their canonical form (route.go) and their ids (network.go), with a parser that reads the ids back. */
module RouteKey {
  import opened Common

  type Byte = b: int | 0 <= b < 256

  /** netip.Addr. NoAddr is its zero value; an IPv6 address carries its text, whose canonical form is not modelled. */
  datatype Addr = NoAddr | V4(a: Byte, b: Byte, c: Byte, d: Byte) | V6(bytes: seq<Byte>, text: string) {
    function AsSlice(): seq<Byte> {
      match this
      case NoAddr => []
      case V4(a, b, c, d) => [a, b, c, d]
      case V6(bytes, _) => bytes
    }

    function BitLen(): nat {
      match this
      case NoAddr => 0
      case V4(_, _, _, _) => 32
      case V6(_, _) => 128
    }

    predicate IsZero4() {
      this == V4(0, 0, 0, 0)
    }

    predicate IsZero16() {
      V6? && text == "::"
    }

    predicate IsLoopback() {
      match this
      case NoAddr => false
      case V4(a, _, _, _) => a == 127
      case V6(_, text) => text == "::1"
    }

    /** MarshalText. */
    function Text(): string {
      match this
      case NoAddr => ""
      case V4(a, b, c, d) => Dotted(a, b, c, d)
      case V6(_, text) => text
    }
  }

  /** netip.Prefix; an invalid length reads as -1. */
  datatype Prefix = Prefix(addr: Addr, bits: int) {
    predicate Valid() {
      !addr.NoAddr? && 0 <= bits <= addr.BitLen()
    }

    /** MarshalText. */
    function Text(): string {
      if this == NO_PREFIX then ""
      else if !Valid() then "invalid Prefix"
      else addr.Text() + "/" + Decimal(bits)
    }
  }

  const NO_PREFIX := Prefix(NoAddr, -1)

  /** netipPrefixBitsCorrected. */
  function BitsCorrected(p: Prefix): int {
    if p.addr.AsSlice() == [] then 0 else p.bits
  }

  datatype Family = Inet4 | Inet6

  function FamilyText(f: Family): string {
    if f.Inet4? then "inet4" else "inet6"
  }

  const TABLE_MAIN: nat := 254
  const SCOPE_GLOBAL: nat := 0
  const SCOPE_LINK: nat := 253
  const SCOPE_HOST: nat := 254

  /** RouteSpecSpec. */
  datatype RouteSpec = RouteSpec(family: Family, destination: Prefix, source: Addr, gateway: Addr, outLinkName: string,
                                 table: nat, priority: nat, scope: nat, kind: nat, flags: bv32, protocol: nat, mtu: nat)

  // ---------------------------------------------------------------------------------------------
  // Texts

  function Digit(d: nat): char
    requires d < 10
  {
    "0123456789"[d]
  }

  function DigitValue(c: char): nat {
    if '0' <= c <= '9' then c as int - '0' as int else 0
  }

  function Decimal(n: nat): string {
    if n < 10 then [Digit(n)] else Decimal(n / 10) + [Digit(n % 10)]
  }

  function ReadDecimal(s: string): nat {
    if s == [] then 0 else 10 * ReadDecimal(s[..|s| - 1]) + DigitValue(Last(s))
  }

  lemma {:induction false} DecimalReads(n: nat)
    ensures Decimal(n) != [] && ReadDecimal(Decimal(n)) == n
    ensures forall i :: 0 <= i < |Decimal(n)| ==> '0' <= Decimal(n)[i] <= '9'
  {
    if n >= 10 {
      DecimalReads(n / 10);
      assert Decimal(n)[..|Decimal(n)| - 1] == Decimal(n / 10);
    } else {
      assert [Digit(n)][..0] == [];
    }
  }

  lemma DecimalInjective(m: nat, n: nat)
    requires Decimal(m) == Decimal(n)
    ensures m == n
  {
    DecimalReads(m);
    DecimalReads(n);
  }

  function Dotted(a: Byte, b: Byte, c: Byte, d: Byte): string {
    Decimal(a) + "." + Decimal(b) + "." + Decimal(c) + "." + Decimal(d)
  }

  // The names of nethelpers; the generated String method is not part of this model.
  function TableText(t: nat): string {
    if t == 0 then "unspec"
    else if t == 253 then "default"
    else if t == 254 then "main"
    else if t == 255 then "local"
    else if t < 253 then Decimal(t)
    else "RoutingTable(" + Decimal(t) + ")"
  }

  /** RouteID. */
  function RouteID(table: nat, family: Family, destination: Prefix, gateway: Addr, priority: nat, outLinkName: string): string
  {
    (if table != TABLE_MAIN then TableText(table) + "/" else "")
    + (if family.Inet6? then outLinkName + "/" else "")
    + FamilyText(family) + "/" + gateway.Text() + "/" + destination.Text() + "/" + Decimal(priority)
  }

  // ---------------------------------------------------------------------------------------------
  // Reading an id back, from right to left

  /** The parts before and after the last c. */
  function SplitLast(s: string, c: char): Option<(string, string)>
  {
    if s == "" then None
    else if Last(s) == c then Some((s[..|s| - 1], ""))
    else
      match SplitLast(s[..|s| - 1], c)
      case None => None
      case Some(p) => Some((p.0, p.1 + [Last(s)]))
  }

  lemma {:induction false} SplitsAt(x: string, y: string, c: char)
    requires c !in y
    ensures SplitLast(x + [c] + y, c) == Some((x, y))
  {
    var s := x + [c] + y;
    if y == "" {
      assert s == x + [c] && s[..|s| - 1] == x;
    } else {
      var y' := y[..|y| - 1];
      assert s[..|s| - 1] == x + [c] + y' && Last(s) == Last(y);
      assert Last(y) in y && forall k :: k in y' ==> k in y;
      SplitsAt(x, y', c);
      assert y' + [Last(y)] == y;
    }
  }

  lemma {:induction false} NoSplit(s: string, c: char)
    requires c !in s
    ensures SplitLast(s, c).None?
  {
    if s != "" {
      assert Last(s) in s && forall k :: k in s[..|s| - 1] ==> k in s;
      NoSplit(s[..|s| - 1], c);
    }
  }

  /** The parts of an id: table and link are None where the id does not name them. */
  datatype IdParts = IdParts(table: Option<string>, link: Option<string>, family: string, gateway: string,
                             destination: string, priority: string)

  function ReadDestination(s: string): Option<(string, string)>
  {
    match SplitLast(s, '/')
    case None => None
    case Some(p) =>
      if p.1 == "" then Some((p.0, ""))
      else
        match SplitLast(p.0, '/')
        case None => None
        case Some(q) => Some((q.0, q.1 + "/" + p.1))
  }

  /** What is left of the family: nothing, a table, a link, or a table and a link. */
  function ReadHead(s: string): (Option<string>, Option<string>, string)
  {
    match SplitLast(s, '/')
    case None => (None, None, s)
    case Some(p) =>
      if p.1 == "inet6" then
        match SplitLast(p.0, '/')
        case None => (None, Some(p.0), p.1)
        case Some(q) => (Some(q.0), Some(q.1), p.1)
      else (Some(p.0), None, p.1)
  }

  function ReadID(s: string): Option<IdParts>
  {
    match SplitLast(s, '/')
    case None => None
    case Some(p) =>
      match ReadDestination(p.0)
      case None => None
      case Some(d) =>
        match SplitLast(d.0, '/')
        case None => None
        case Some(g) =>
          var h := ReadHead(g.0);
          Some(IdParts(h.0, h.1, h.2, g.1, d.1, p.1))
  }

  lemma DecimalHas(n: nat, c: char)
    requires !('0' <= c <= '9')
    ensures c !in Decimal(n) && Decimal(n) != ""
  {
    DecimalReads(n);
  }

  lemma NotInConcat(c: char, x: string, y: string)
    requires c !in x && c !in y
    ensures c !in x + y
  {
  }

  lemma TableNoSlash(t: nat)
    ensures '/' !in TableText(t)
  {
    DecimalHas(t, '/');
    if t > 255 {
      NotInConcat('/', "RoutingTable(", Decimal(t));
      NotInConcat('/', "RoutingTable(" + Decimal(t), ")");
    }
  }

  lemma DestinationReads(head: string, p: Prefix)
    requires p == NO_PREFIX || (p.Valid() && '/' !in p.addr.Text())
    ensures ReadDestination(head + "/" + p.Text()) == Some((head, p.Text()))
  {
    if p == NO_PREFIX {
      SplitsAt(head, "", '/');
      assert head + ['/'] + "" == head + "/" + p.Text();
    } else {
      var bits := Decimal(p.bits);
      DecimalHas(p.bits, '/');
      SplitsAt(head + "/" + p.addr.Text(), bits, '/');
      assert head + "/" + p.Text() == head + "/" + p.addr.Text() + ['/'] + bits;
      SplitsAt(head, p.addr.Text(), '/');
      assert head + "/" + p.addr.Text() == head + ['/'] + p.addr.Text();
    }
  }

  function Head(table: nat, family: Family, link: string): string {
    (if table != TABLE_MAIN then TableText(table) + "/" else "")
    + (if family.Inet6? then link + "/" else "") + FamilyText(family)
  }

  lemma HeadReads(table: nat, family: Family, link: string)
    requires '/' !in link
    ensures ReadHead(Head(table, family, link))
         == (if table != TABLE_MAIN then Some(TableText(table)) else None,
             if family.Inet6? then Some(link) else None, FamilyText(family))
  {
    TableNoSlash(table);
    var t := TableText(table);
    if family.Inet4? {
      if table == TABLE_MAIN {
        assert Head(table, family, link) == "inet4";
        NoSplit("inet4", '/');
      } else {
        SplitsAt(t, "inet4", '/');
        assert Head(table, family, link) == t + ['/'] + "inet4";
      }
    } else if table == TABLE_MAIN {
      SplitsAt(link, "inet6", '/');
      assert Head(table, family, link) == link + ['/'] + "inet6";
      NoSplit(link, '/');
    } else {
      SplitsAt(t + "/" + link, "inet6", '/');
      assert Head(table, family, link) == t + "/" + link + ['/'] + "inet6";
      SplitsAt(t, link, '/');
      assert t + "/" + link == t + ['/'] + link;
    }
  }

  /** Round trip: from every id whose link and address texts hold no slash, the parser recovers the table, the link
      (which only an IPv6 id has), the family, the gateway, the destination and the priority. */
  lemma IdReads(table: nat, family: Family, destination: Prefix, gateway: Addr, priority: nat, link: string)
    requires '/' !in link && '/' !in gateway.Text()
    requires destination == NO_PREFIX || (destination.Valid() && '/' !in destination.addr.Text())
    ensures ReadID(RouteID(table, family, destination, gateway, priority, link))
         == Some(IdParts(if table != 254 then Some(TableText(table)) else None,
                         if family.Inet6? then Some(link) else None,
                         FamilyText(family), gateway.Text(), destination.Text(), Decimal(priority)))
  {
    var head := Head(table, family, link);
    var upToGateway := head + "/" + gateway.Text();
    var upToDestination := upToGateway + "/" + destination.Text();
    DecimalHas(priority, '/');
    SplitsAt(upToDestination, Decimal(priority), '/');
    assert RouteID(table, family, destination, gateway, priority, link) == upToDestination + ['/'] + Decimal(priority);
    DestinationReads(upToGateway, destination);
    SplitsAt(head, gateway.Text(), '/');
    assert upToGateway == head + ['/'] + gateway.Text();
    HeadReads(table, family, link);
  }

  // ---------------------------------------------------------------------------------------------
  // Equal ids, equal keys

  lemma TableTextInjective(s: nat, t: nat)
    requires TableText(s) == TableText(t)
    ensures s == t
  {
    DecimalReads(s);
    DecimalReads(t);
    if s > 255 && t > 255 {
      assert TableText(s)[13..|TableText(s)| - 1] == Decimal(s);
      assert TableText(t)[13..|TableText(t)| - 1] == Decimal(t);
    } else {
      assert TableText(s)[0] == TableText(t)[0];
    }
  }

  lemma DottedReads(a: Byte, b: Byte, c: Byte, d: Byte)
    ensures SplitLast(Dotted(a, b, c, d), '.') == Some((Decimal(a) + "." + Decimal(b) + "." + Decimal(c), Decimal(d)))
    ensures SplitLast(Decimal(a) + "." + Decimal(b) + "." + Decimal(c), '.') == Some((Decimal(a) + "." + Decimal(b), Decimal(c)))
    ensures SplitLast(Decimal(a) + "." + Decimal(b), '.') == Some((Decimal(a), Decimal(b)))
  {
    DecimalHas(b, '.');
    DecimalHas(c, '.');
    DecimalHas(d, '.');
    SplitsAt(Decimal(a) + "." + Decimal(b) + "." + Decimal(c), Decimal(d), '.');
    SplitsAt(Decimal(a) + "." + Decimal(b), Decimal(c), '.');
    SplitsAt(Decimal(a), Decimal(b), '.');
  }

  /** Dotted decimal text determines an IPv4 address, and holds no slash. */
  lemma DottedInjective(x: Addr, y: Addr)
    requires x.V4? && y.V4? && x.Text() == y.Text()
    ensures x == y
  {
    DottedReads(x.a, x.b, x.c, x.d);
    DottedReads(y.a, y.b, y.c, y.d);
    DecimalInjective(x.a, y.a);
    DecimalInjective(x.b, y.b);
    DecimalInjective(x.c, y.c);
    DecimalInjective(x.d, y.d);
  }

  lemma DottedNoSlash(x: Addr)
    requires !x.V6?
    ensures '/' !in x.Text() && (x.V4? <==> x.Text() != "")
  {
    if x.V4? {
      DecimalHas(x.a, '/');
      DecimalHas(x.b, '/');
      DecimalHas(x.c, '/');
      DecimalHas(x.d, '/');
    }
  }

  /** An IPv4 spec in the form that Normalize leaves it in: no gateway or an IPv4 one, and a destination that is the
      zero value or a valid IPv4 prefix of at least one bit. */
  predicate Canonical4(s: RouteSpec)
  {
    && s.family.Inet4?
    && !s.gateway.V6?
    && (s.destination == NO_PREFIX || (s.destination.Valid() && s.destination.addr.V4? && s.destination.bits > 0))
  }

  function IdOf(s: RouteSpec): string {
    RouteID(s.table, s.family, s.destination, s.gateway, s.priority, s.outLinkName)
  }

  /** What findMatchingRoutes looks at. */
  datatype Key = Key(family: Family, bits: int, dst: seq<Byte>, gateway: seq<Byte>, table: nat, priority: nat)

  function KeyOf(s: RouteSpec): Key {
    Key(s.family, BitsCorrected(s.destination), s.destination.addr.AsSlice(), s.gateway.AsSlice(), s.table, s.priority)
  }

  lemma SliceInjective(x: Addr, y: Addr)
    requires !x.V6? && !y.V6? && x.AsSlice() == y.AsSlice()
    ensures x == y
  {
    assert (x.V4? <==> |x.AsSlice()| == 4) && (y.V4? <==> |y.AsSlice()| == 4);
    if x.V4? && y.V4? {
      assert x.AsSlice()[0] == y.AsSlice()[0] && x.AsSlice()[1] == y.AsSlice()[1];
      assert x.AsSlice()[2] == y.AsSlice()[2] && x.AsSlice()[3] == y.AsSlice()[3];
    }
  }

  lemma PrefixTextInjective(p: Prefix, q: Prefix)
    requires p == NO_PREFIX || (p.Valid() && p.addr.V4?)
    requires q == NO_PREFIX || (q.Valid() && q.addr.V4?)
    requires p.Text() == q.Text()
    ensures p == q
  {
    assert (p == NO_PREFIX <==> p.Text() == "") && (q == NO_PREFIX <==> q.Text() == "");
    if p != NO_PREFIX && q != NO_PREFIX {
      DecimalHas(p.bits, '/');
      DecimalHas(q.bits, '/');
      SplitsAt(p.addr.Text(), Decimal(p.bits), '/');
      SplitsAt(q.addr.Text(), Decimal(q.bits), '/');
      assert p.Text() == p.addr.Text() + ['/'] + Decimal(p.bits);
      assert q.Text() == q.addr.Text() + ['/'] + Decimal(q.bits);
      DottedInjective(p.addr, q.addr);
      DecimalInjective(p.bits, q.bits);
    }
  }

  lemma SameIdSameParts(s: RouteSpec, t: RouteSpec)
    requires Canonical4(s) && Canonical4(t) && IdOf(s) == IdOf(t)
    ensures s.table == t.table && s.gateway == t.gateway && s.destination == t.destination && s.priority == t.priority
  {
    DottedNoSlash(s.gateway);
    DottedNoSlash(t.gateway);
    DottedNoSlash(s.destination.addr);
    DottedNoSlash(t.destination.addr);
    // The link is not part of an IPv4 id.
    IdReads(s.table, Inet4, s.destination, s.gateway, s.priority, "");
    IdReads(t.table, Inet4, t.destination, t.gateway, t.priority, "");
    assert IdOf(s) == RouteID(s.table, Inet4, s.destination, s.gateway, s.priority, "");
    assert IdOf(t) == RouteID(t.table, Inet4, t.destination, t.gateway, t.priority, "");
    if s.table != TABLE_MAIN && t.table != TABLE_MAIN {
      TableTextInjective(s.table, t.table);
    }
    if s.gateway.V4? && t.gateway.V4? {
      DottedInjective(s.gateway, t.gateway);
    }
    PrefixTextInjective(s.destination, t.destination);
    DecimalInjective(s.priority, t.priority);
  }

  /** On canonical IPv4 specs -- whatever their links, also with an empty gateway or a default destination -- two
      specs have the same id exactly when findMatchingRoutes cannot tell them apart. */
  lemma SameIdSameKey(s: RouteSpec, t: RouteSpec)
    requires Canonical4(s) && Canonical4(t)
    ensures IdOf(s) == IdOf(t) <==> KeyOf(s) == KeyOf(t)
  {
    if IdOf(s) == IdOf(t) {
      SameIdSameParts(s, t);
    }
    if KeyOf(s) == KeyOf(t) {
      SliceInjective(s.gateway, t.gateway);
      SliceInjective(s.destination.addr, t.destination.addr);
    }
  }

  // ---------------------------------------------------------------------------------------------
  // Normalize

  function ClearPrefix(p: Prefix): Prefix {
    if p.bits == 0 && (p.addr.IsZero4() || p.addr.IsZero16()) then NO_PREFIX else p
  }

  function ClearAddr(a: Addr): Addr {
    if a.IsZero4() || a.IsZero16() then NoAddr else a
  }

  function ScopeOf(destination: Prefix, gateway: Addr): nat {
    if gateway.NoAddr? && destination != NO_PREFIX then SCOPE_LINK
    else if destination.addr.IsLoopback() then SCOPE_HOST
    else SCOPE_GLOBAL
  }

  function Normalized(s: RouteSpec): RouteSpec {
    var d, g := ClearPrefix(s.destination), ClearAddr(s.gateway);
    s.(destination := d, gateway := g, source := ClearAddr(s.source), scope := ScopeOf(d, g))
  }

  /** The family of a zero address. */
  function ZeroFamily(a: Addr): Option<Family> {
    if a.IsZero4() then Some(Inet4) else if a.IsZero16() then Some(Inet6) else None
  }

  function OrElse<T>(a: Option<T>, b: Option<T>): Option<T> {
    if a.Some? then a else b
  }

  /** RouteSpecSpec as Normalize updates it in place; the other fields stay in rest. */
  class MutableSpec {
    var rest: RouteSpec
    var destination: Prefix
    var source: Addr
    var gateway: Addr
    var scope: nat

    constructor (s: RouteSpec)
      ensures Value() == s
    {
      rest, destination, source, gateway, scope := s, s.destination, s.source, s.gateway, s.scope;
    }

    function Value(): RouteSpec
      reads this
    {
      rest.(destination := destination, source := source, gateway := gateway, scope := scope)
    }

    /** Returns the family it could tell from a zero address, the last one deciding. */
    method Normalize() returns (family: Option<Family>)
      modifies this`destination, this`source, this`gateway, this`scope
      ensures Value() == Normalized(old(Value()))
      ensures family.None? <==> Value().(scope := 0) == old(Value()).(scope := 0)
      ensures family == OrElse(ZeroFamily(old(source)), OrElse(ZeroFamily(old(gateway)),
                                 if old(destination).bits == 0 then ZeroFamily(old(destination).addr) else None))
    {
      family := None;
      if destination.bits == 0 {
        if destination.addr.IsZero4() {
          family := Some(Inet4);
          destination := NO_PREFIX;
        }
        if destination.addr.IsZero16() {
          family := Some(Inet6);
          destination := NO_PREFIX;
        }
      }
      if gateway.IsZero4() {
        family := Some(Inet4);
        gateway := NoAddr;
      }
      if gateway.IsZero16() {
        family := Some(Inet6);
        gateway := NoAddr;
      }
      if source.IsZero4() {
        family := Some(Inet4);
        source := NoAddr;
      }
      if source.IsZero16() {
        family := Some(Inet6);
        source := NoAddr;
      }
      if gateway == NoAddr && destination != NO_PREFIX {
        scope := SCOPE_LINK;
      } else if destination.addr.IsLoopback() {
        scope := SCOPE_HOST;
      } else {
        scope := SCOPE_GLOBAL;
      }
    }
  }

  /** An address with no bits set below its prefix. */
  predicate Masked4(p: Prefix)
    requires p.addr.V4? && 0 <= p.bits <= 32
  {
    Value4(p.addr) % Power2(32 - p.bits) == 0
  }

  function Value4(a: Addr): nat
    requires a.V4?
  {
    ((a.a * 256 + a.b) * 256 + a.c) * 256 + a.d
  }

  function Power2(n: nat): (r: nat)
    ensures r > 0
  {
    if n == 0 then 1 else 2 * Power2(n - 1)
  }

  lemma Power32()
    ensures Power2(32) == 0x1_0000_0000
  {
    assert Power2(8) == 256;
    assert Power2(16) == 65536;
    assert Power2(24) == 0x100_0000;
  }

  predicate ZeroAddr(a: Addr) {
    a == V4(0, 0, 0, 0) || (a.V6? && a.text == "::")
  }

  /** What the normal form is: zero gateways, sources and default destinations are gone, and the scope is 253 (link) exactly for
      a destination without a gateway, else 254 (host) exactly for a loopback destination, else 0 (global). */
  lemma NormalForm(s: RouteSpec)
    ensures var n := Normalized(s);
      && n.gateway == (if ZeroAddr(s.gateway) then NoAddr else s.gateway)
      && n.source == (if ZeroAddr(s.source) then NoAddr else s.source)
      && n.destination == (if s.destination.bits == 0 && ZeroAddr(s.destination.addr) then NO_PREFIX else s.destination)
      && (n.scope == 253 <==> n.gateway == NoAddr && n.destination != NO_PREFIX)
      && (n.scope == 254 <==> n.gateway != NoAddr
                              && ((n.destination.addr.V4? && n.destination.addr.a == 127)
                                  || (n.destination.addr.V6? && n.destination.addr.text == "::1")))
      && (n.scope == 253 || n.scope == 254 || n.scope == 0)
      && n == s.(gateway := n.gateway, source := n.source, destination := n.destination, scope := n.scope)
  {
  }

  /** Normalizing once is enough, and an IPv4 spec whose destination is masked becomes canonical by it. */
  lemma NormalizeIsCanonical(s: RouteSpec)
    ensures Normalized(Normalized(s)) == Normalized(s)
    ensures s.family.Inet4? && !s.gateway.V6?
            && (s.destination == NO_PREFIX || (s.destination.Valid() && s.destination.addr.V4? && Masked4(s.destination)))
            ==> Canonical4(Normalized(s))
  {
    if s.destination.addr.V4? && s.destination.bits == 0 && Masked4(s.destination) {
      NoBitsIsZero(s.destination);
    }
  }

  /** A masked prefix of no bits is that of 0.0.0.0. */
  lemma NoBitsIsZero(p: Prefix)
    requires p.addr.V4? && p.bits == 0 && Masked4(p)
    ensures p.addr.IsZero4()
  {
    Power32();
    assert Value4(p.addr) == 0;
  }
}
