/**
  The byte key under which the quadruple generator groups flows: a fixed array, filled by writes at
  fixed offsets.
*/
module QuadrupleKey {
  import opened Basics

  const L3_EPC_ID_SIZE: nat := 2
  const TAP_PORT_SIZE: nat := 8
  const CLOSE_TYPE_SIZE: nat := 1
  const PROTOCOL_SIZE: nat := 1
  const PORT_SIZE: nat := 2
  const GPID_SIZE: nat := 4
  const IPV4_PATH_SIZE: nat := 8
  const IPV6_PATH_SIZE: nat := 32

  const OFFSET_L3_EPC_ID_0: nat := 0
  const OFFSET_L3_EPC_ID_1: nat := OFFSET_L3_EPC_ID_0 + L3_EPC_ID_SIZE
  const OFFSET_TAP_PORT: nat := OFFSET_L3_EPC_ID_1 + L3_EPC_ID_SIZE
  const OFFSET_RESERVED: nat := OFFSET_TAP_PORT + TAP_PORT_SIZE
  const OFFSET_PROTOCOL: nat := OFFSET_RESERVED + CLOSE_TYPE_SIZE
  const OFFSET_PORT: nat := OFFSET_PROTOCOL + PROTOCOL_SIZE
  const OFFSET_GPID_0: nat := OFFSET_PORT + PORT_SIZE
  const OFFSET_GPID_1: nat := OFFSET_GPID_0 + GPID_SIZE
  const OFFSET_IP: nat := OFFSET_GPID_1 + GPID_SIZE

  const IPV4_LRU_KEY_SIZE: nat := OFFSET_IP + IPV4_PATH_SIZE
  const IPV6_LRU_KEY_SIZE: nat := OFFSET_IP + IPV6_PATH_SIZE

  datatype Ip = V4(octets: seq<Byte>) | V6(octets: seq<Byte>) {
    predicate Valid() { |octets| == if V4? then 4 else 16 }
  }

  /** The fields of a flow the key is made of. Network ids are signed, the rest have their own widths. */
  datatype Flow = Flow(epc0: int, epc1: int, gpid0: nat, gpid1: nat, tapPort: nat, tapPortType: Byte, tapType: nat,
                       tunnelType: Byte, tapSide: Byte, protocol: Byte, portDst: nat, source: Source,
                       activeService: bool, l7Protocol: Byte, ipv6: bool, src: Ip, dst: Ip)
  {
    predicate Valid() {
      && gpid0 < 0x1_0000_0000 && gpid1 < 0x1_0000_0000 && tapPort < 0x1_0000_0000
      && tapType < 0x1_0000 && portDst < 0x1_0000
      && src.Valid() && dst.Valid()
    }

    /** The two addresses are of the family the Ethernet type says. */
    predicate FamilyMatches() { src.V6? == ipv6 && dst.V6? == ipv6 }
  }

  // ---------------------------------------------------------------- bytes

  function Low(n: int): Byte { (n % 256) as Byte }

  function Two(n: int): (r: seq<Byte>)
    ensures |r| == 2
  {
    [Low(n / 256), Low(n)]
  }

  function Four(n: nat): (r: seq<Byte>)
    ensures |r| == 4
  {
    [Low(n / 0x100_0000), Low(n / 0x1_0000), Low(n / 256), Low(n)]
  }

  /** The low sixteen bits, of a negative number too. */
  function Low16(n: int): nat { n % 0x1_0000 }

  lemma LowWord(a: int)
    ensures Low16(a) == a / 256 % 256 * 256 + a % 256
  {
  }

  lemma TwoTell(a: int, b: int)
    ensures Two(a) == Two(b) <==> Low16(a) == Low16(b)
  {
    LowWord(a);
    LowWord(b);
    Pair(Low(a / 256), Low(a), Low(b / 256), Low(b));
  }

  lemma Pair(a: Byte, b: Byte, c: Byte, d: Byte)
    ensures [a, b] == [c, d] <==> a as int * 256 + b as int == c as int * 256 + d as int
  {
  }

  lemma FourTell(a: nat, b: nat)
    requires a < 0x1_0000_0000 && b < 0x1_0000_0000
    ensures Four(a) == Four(b) <==> a == b
  {
    FourValue(a);
    FourValue(b);
    hide Four;
  }

  function Value(bytes: seq<Byte>): nat {
    if bytes == [] then 0 else Value(bytes[..|bytes| - 1]) * 256 + bytes[|bytes| - 1] as nat
  }

  lemma ValueSnoc(bytes: seq<Byte>, b: Byte)
    ensures Value(bytes + [b]) == Value(bytes) * 256 + b as nat
  {
    assert (bytes + [b])[..|bytes|] == bytes;
  }

  lemma LowByte(a: nat)
    ensures a == a / 256 * 256 + Low(a) as nat
    ensures a < 256 ==> Low(a) as nat == a
  {
  }

  lemma DivTwice(a: nat)
    ensures a / 0x1_0000 == a / 256 / 256
  {
  }

  lemma DivThrice(a: nat)
    ensures a / 0x100_0000 == a / 0x1_0000 / 256
    ensures a < 0x1_0000_0000 ==> a / 0x100_0000 < 256
  {
  }

  lemma FourIs(a: nat)
    requires a < 0x1_0000_0000
    ensures Four(a) == [Low(a / 256 / 256 / 256), Low(a / 256 / 256), Low(a / 256), Low(a)]
    ensures a / 256 / 256 / 256 < 256
  {
    hide Low;
    DivTwice(a);
    DivThrice(a);
  }

  lemma ValueOfFour(w: Byte, x: Byte, y: Byte, z: Byte)
    ensures Value([w, x, y, z]) == ((w as nat * 256 + x as nat) * 256 + y as nat) * 256 + z as nat
  {
    ValueSnoc([], w);
    ValueSnoc([w], x);
    ValueSnoc([w, x], y);
    ValueSnoc([w, x, y], z);
    assert [] + [w] == [w] && [w] + [x] == [w, x] && [w, x] + [y] == [w, x, y] && [w, x, y] + [z] == [w, x, y, z];
  }

  lemma FourValue(a: nat)
    requires a < 0x1_0000_0000
    ensures Value(Four(a)) == a
  {
    hide Low, Four, Value;
    FourIs(a);
    LowByte(a);
    LowByte(a / 256);
    LowByte(a / 256 / 256);
    LowByte(a / 256 / 256 / 256);
    ValueOfFour(Low(a / 256 / 256 / 256), Low(a / 256 / 256), Low(a / 256), Low(a));
  }

  // ---------------------------------------------------------------- writing and reading

  function Write(key: seq<Byte>, at: nat, bytes: seq<Byte>): (r: seq<Byte>)
    requires at + |bytes| <= |key|
    ensures |r| == |key|
  {
    key[..at] + bytes + key[at + |bytes|..]
  }

  function Read(key: seq<Byte>, at: nat, size: nat): seq<Byte>
    requires at + size <= |key|
  {
    key[at..at + size]
  }

  /** A write is read back, and leaves every range beside it alone. */
  lemma WriteRead(key: seq<Byte>, at: nat, bytes: seq<Byte>, other: nat, size: nat)
    requires at + |bytes| <= |key| && other + size <= |key|
    ensures Read(Write(key, at, bytes), at, |bytes|) == bytes
    ensures other + size <= at || at + |bytes| <= other ==>
      Read(Write(key, at, bytes), other, size) == Read(key, other, size)
  {
  }

  // ---------------------------------------------------------------- the key

  function TapBytes(f: Flow): (r: seq<Byte>)
    ensures |r| == TAP_PORT_SIZE
  {
    Four(f.tapPort) + [f.tapPortType, Low(f.tapType), f.tunnelType, f.tapSide]
  }

  /** For flows that are not packets the port is only kept for known services; traces put their protocol there. */
  function PortBytes(f: Flow): (r: seq<Byte>)
    ensures |r| == PORT_SIZE
  {
    if f.source.Packet? || f.activeService then Two(f.portDst)
    else if f.source.OTel? then [f.l7Protocol, 0]
    else [0, 0]
  }

  function PathSize(f: Flow): nat { if f.ipv6 then IPV6_PATH_SIZE else IPV4_PATH_SIZE }

  /** Both addresses if they are of the right family, and nothing otherwise. */
  function PathBytes(f: Flow): (r: seq<Byte>)
    requires f.Valid()
    ensures |r| == PathSize(f)
  {
    if f.FamilyMatches() then f.src.octets + f.dst.octets else seq(PathSize(f), _ => 0)
  }

  function SetKey(key: seq<Byte>, f: Flow): (r: seq<Byte>)
    requires |key| >= OFFSET_IP
    ensures |r| == |key|
  {
    var k1 := Write(key, OFFSET_L3_EPC_ID_0, Two(f.epc0));
    var k2 := Write(k1, OFFSET_L3_EPC_ID_1, Two(f.epc1));
    var k3 := Write(k2, OFFSET_GPID_0, Four(f.gpid0));
    var k4 := Write(k3, OFFSET_GPID_1, Four(f.gpid1));
    var k5 := Write(k4, OFFSET_TAP_PORT, TapBytes(f));
    var k6 := Write(k5, OFFSET_PROTOCOL, [f.protocol]);
    Write(k6, OFFSET_PORT, PortBytes(f))
  }

  function KeySize(f: Flow): nat { if f.ipv6 then IPV6_LRU_KEY_SIZE else IPV4_LRU_KEY_SIZE }

  /** The key; the two families are told apart by its size. */
  function GetKey(f: Flow): seq<Byte>
    requires f.Valid()
  {
    Write(SetKey(seq(KeySize(f), _ => 0), f), OFFSET_IP, PathBytes(f))
  }

  /** What the key says, section by section. */
  datatype Sections = Sections(epc0: seq<Byte>, epc1: seq<Byte>, tap: seq<Byte>, protocol: seq<Byte>, port: seq<Byte>,
                               gpid0: seq<Byte>, gpid1: seq<Byte>)

  function SectionsOf(key: seq<Byte>): Sections
    requires |key| >= OFFSET_IP
  {
    Sections(Read(key, OFFSET_L3_EPC_ID_0, L3_EPC_ID_SIZE), Read(key, OFFSET_L3_EPC_ID_1, L3_EPC_ID_SIZE),
             Read(key, OFFSET_TAP_PORT, TAP_PORT_SIZE), Read(key, OFFSET_PROTOCOL, PROTOCOL_SIZE),
             Read(key, OFFSET_PORT, PORT_SIZE), Read(key, OFFSET_GPID_0, GPID_SIZE),
             Read(key, OFFSET_GPID_1, GPID_SIZE))
  }

  function SectionsFor(f: Flow): Sections {
    Sections(Two(f.epc0), Two(f.epc1), TapBytes(f), [f.protocol], PortBytes(f), Four(f.gpid0), Four(f.gpid1))
  }

  /** A write changes the sections it covers and no other. */
  lemma WriteSections(key: seq<Byte>, at: nat, bytes: seq<Byte>)
    requires |key| >= OFFSET_IP && at + |bytes| <= |key|
    ensures var before, after := SectionsOf(key), SectionsOf(Write(key, at, bytes));
      && (at >= 2 ==> after.epc0 == before.epc0)
      && (at >= 4 || at + |bytes| <= 2 ==> after.epc1 == before.epc1)
      && (at >= 12 || at + |bytes| <= 4 ==> after.tap == before.tap)
      && (at >= 14 || at + |bytes| <= 13 ==> after.protocol == before.protocol)
      && (at >= 16 || at + |bytes| <= 14 ==> after.port == before.port)
      && (at >= 20 || at + |bytes| <= 16 ==> after.gpid0 == before.gpid0)
      && (at >= 24 || at + |bytes| <= 20 ==> after.gpid1 == before.gpid1)
  {
    WriteRead(key, at, bytes, 0, 2);
    WriteRead(key, at, bytes, 2, 2);
    WriteRead(key, at, bytes, 4, 8);
    WriteRead(key, at, bytes, 13, 1);
    WriteRead(key, at, bytes, 14, 2);
    WriteRead(key, at, bytes, 16, 4);
    WriteRead(key, at, bytes, 20, 4);
    hide Write, Read;
  }

  lemma SetKeySections(key: seq<Byte>, f: Flow)
    requires |key| >= OFFSET_IP
    ensures SectionsOf(SetKey(key, f)) == SectionsFor(f)
  {
    var k1 := Write(key, 0, Two(f.epc0));
    var k2 := Write(k1, 2, Two(f.epc1));
    var k3 := Write(k2, 16, Four(f.gpid0));
    var k4 := Write(k3, 20, Four(f.gpid1));
    var k5 := Write(k4, 4, TapBytes(f));
    var k6 := Write(k5, 13, [f.protocol]);
    var k7 := Write(k6, 14, PortBytes(f));
    assert k7 == SetKey(key, f);
    hide Write, SetKey, Two, Four, TapBytes, PortBytes;
    WriteRead(key, 0, Two(f.epc0), 0, 0);
    WriteSections(k1, 2, Two(f.epc1));
    WriteRead(k1, 2, Two(f.epc1), 0, 0);
    WriteSections(k2, 16, Four(f.gpid0));
    WriteRead(k2, 16, Four(f.gpid0), 0, 0);
    WriteSections(k3, 20, Four(f.gpid1));
    WriteRead(k3, 20, Four(f.gpid1), 0, 0);
    WriteSections(k4, 4, TapBytes(f));
    WriteRead(k4, 4, TapBytes(f), 0, 0);
    WriteSections(k5, 13, [f.protocol]);
    WriteRead(k5, 13, [f.protocol], 0, 0);
    WriteSections(k6, 14, PortBytes(f));
    WriteRead(k6, 14, PortBytes(f), 0, 0);
    hide Read;
  }

  lemma GetKeySections(f: Flow)
    requires f.Valid()
    ensures |GetKey(f)| == KeySize(f) && SectionsOf(GetKey(f)) == SectionsFor(f)
    ensures Read(GetKey(f), OFFSET_IP, PathSize(f)) == PathBytes(f)
  {
    var blank := seq(KeySize(f), _ => 0);
    var k := SetKey(blank, f);
    SetKeySections(blank, f);
    hide SetKey, SectionsFor, PathBytes;
    WriteSections(k, OFFSET_IP, PathBytes(f));
    WriteRead(k, OFFSET_IP, PathBytes(f), 0, 0);
    hide Write, Read;
  }

  /** Keys are made of the sections and the path, and of nothing else. */
  lemma GetKeyDepends(f: Flow, g: Flow)
    requires f.Valid() && g.Valid()
    requires SectionsFor(f) == SectionsFor(g) && f.ipv6 == g.ipv6 && PathBytes(f) == PathBytes(g)
    ensures GetKey(f) == GetKey(g)
  {
  }

  /** For any two flows, of any source: equal keys mean equal family, sections and path, and conversely. */
  lemma KeysEqualIff(f: Flow, g: Flow)
    requires f.Valid() && g.Valid()
    ensures GetKey(f) == GetKey(g) <==>
      f.ipv6 == g.ipv6 && SectionsFor(f) == SectionsFor(g) && PathBytes(f) == PathBytes(g)
  {
    GetKeySections(f);
    GetKeySections(g);
    if SectionsFor(f) == SectionsFor(g) && f.ipv6 == g.ipv6 && PathBytes(f) == PathBytes(g) { GetKeyDepends(f, g); }
    hide GetKey, SectionsFor, SectionsOf, PathBytes, Read;
  }

  lemma TapTell(f: Flow, g: Flow)
    requires f.Valid() && g.Valid()
    ensures TapBytes(f) == TapBytes(g) <==>
      && f.tapPort == g.tapPort && f.tapPortType == g.tapPortType && Low(f.tapType) == Low(g.tapType)
      && f.tunnelType == g.tunnelType && f.tapSide == g.tapSide
  {
    FourTell(f.tapPort, g.tapPort);
    hide Four;
    var a, b := TapBytes(f), TapBytes(g);
    assert a[..4] == Four(f.tapPort) && b[..4] == Four(g.tapPort);
    assert a[4..] == [f.tapPortType, Low(f.tapType), f.tunnelType, f.tapSide];
    assert b[4..] == [g.tapPortType, Low(g.tapType), g.tunnelType, g.tapSide];
    if a == b { assert a[4] == b[4] && a[5] == b[5] && a[6] == b[6] && a[7] == b[7]; }
  }

  lemma PathTell(f: Flow, g: Flow)
    requires f.Valid() && g.Valid() && f.ipv6 == g.ipv6 && f.FamilyMatches() && g.FamilyMatches()
    ensures PathBytes(f) == PathBytes(g) <==> f.src == g.src && f.dst == g.dst
  {
    var n := |f.src.octets|;
    assert PathBytes(f)[..n] == f.src.octets && PathBytes(g)[..n] == g.src.octets;
    assert PathBytes(f)[n..] == f.dst.octets && PathBytes(g)[n..] == g.dst.octets;
  }

  /**
    The number in the port section: the destination port of captured packets and of known services, the
    application protocol of other traces, shifted by a byte, and otherwise nothing.
  */
  function PortNumber(f: Flow): nat {
    match f.source
    case Packet => f.portDst
    case XFlow => if f.activeService then f.portDst else 0
    case EBPF => if f.activeService then f.portDst else 0
    case OTel => if f.activeService then f.portDst else f.l7Protocol as nat * 256
  }

  lemma PortValue(f: Flow)
    requires f.Valid()
    ensures PortBytes(f) == Two(PortNumber(f)) && PortNumber(f) < 0x1_0000
  {
  }

  lemma PortTell(f: Flow, g: Flow)
    requires f.Valid() && g.Valid()
    ensures PortBytes(f) == PortBytes(g) <==> PortNumber(f) == PortNumber(g)
  {
    hide PortBytes, PortNumber, Two;
    PortValue(f);
    PortValue(g);
    TwoTell(PortNumber(f), PortNumber(g));
  }

  lemma SectionsEqual(f: Flow, g: Flow)
    ensures SectionsFor(f) == SectionsFor(g) <==>
      && Two(f.epc0) == Two(g.epc0) && Two(f.epc1) == Two(g.epc1) && TapBytes(f) == TapBytes(g)
      && f.protocol == g.protocol && PortBytes(f) == PortBytes(g) && Four(f.gpid0) == Four(g.gpid0)
      && Four(f.gpid1) == Four(g.gpid1)
  {
  }

  lemma SectionsTell(f: Flow, g: Flow)
    requires f.Valid() && g.Valid()
    ensures SectionsFor(f) == SectionsFor(g) <==>
      && Low16(f.epc0) == Low16(g.epc0) && Low16(f.epc1) == Low16(g.epc1)
      && f.gpid0 == g.gpid0 && f.gpid1 == g.gpid1
      && f.tapPort == g.tapPort && f.tapPortType == g.tapPortType && Low(f.tapType) == Low(g.tapType)
      && f.tunnelType == g.tunnelType && f.tapSide == g.tapSide
      && f.protocol == g.protocol && PortNumber(f) == PortNumber(g)
  {
    hide PortNumber, Two, Four, TapBytes, PortBytes, SectionsFor, Low16, Low;
    SectionsEqual(f, g);
    TwoTell(f.epc0, g.epc0);
    TwoTell(f.epc1, g.epc1);
    PortTell(f, g);
    FourTell(f.gpid0, g.gpid0);
    FourTell(f.gpid1, g.gpid1);
    TapTell(f, g);
  }

  /**
    Two flows of any source whose addresses are of their family share a key exactly when they agree on the low
    sixteen bits of both network ids, both process ids, the tap port fields, the low byte of the tap type,
    tap side, protocol, the number in the port section and both addresses.
  */
  lemma FieldsEqualIff(f: Flow, g: Flow)
    requires f.Valid() && g.Valid() && f.FamilyMatches() && g.FamilyMatches()
    ensures GetKey(f) == GetKey(g) <==>
      && f.ipv6 == g.ipv6
      && Low16(f.epc0) == Low16(g.epc0) && Low16(f.epc1) == Low16(g.epc1)
      && f.gpid0 == g.gpid0 && f.gpid1 == g.gpid1
      && f.tapPort == g.tapPort && f.tapPortType == g.tapPortType && Low(f.tapType) == Low(g.tapType)
      && f.tunnelType == g.tunnelType && f.tapSide == g.tapSide
      && f.protocol == g.protocol && PortNumber(f) == PortNumber(g)
      && f.src == g.src && f.dst == g.dst
  {
    hide GetKey, SectionsFor, PathBytes, PortNumber, Low16, Low;
    KeysEqualIff(f, g);
    SectionsTell(f, g);
    if f.ipv6 == g.ipv6 { PathTell(f, g); }
  }

  /** For captured packets that number is the destination port. */
  lemma PacketKeysEqualIff(f: Flow, g: Flow)
    requires f.Valid() && g.Valid() && f.source.Packet? && g.source.Packet? && f.FamilyMatches() && g.FamilyMatches()
    ensures GetKey(f) == GetKey(g) <==>
      && f.ipv6 == g.ipv6
      && Low16(f.epc0) == Low16(g.epc0) && Low16(f.epc1) == Low16(g.epc1)
      && f.gpid0 == g.gpid0 && f.gpid1 == g.gpid1
      && f.tapPort == g.tapPort && f.tapPortType == g.tapPortType && Low(f.tapType) == Low(g.tapType)
      && f.tunnelType == g.tunnelType && f.tapSide == g.tapSide
      && f.protocol == g.protocol && f.portDst == g.portDst
      && f.src == g.src && f.dst == g.dst
  {
    hide GetKey, Low16, Low;
    FieldsEqualIff(f, g);
  }

  /** A trace without a known service shares its key with one of a known service on the port its protocol spells. */
  lemma TraceProtocolReadsAsPort(f: Flow)
    requires f.Valid() && f.source.OTel? && !f.activeService && f.FamilyMatches()
    ensures var g := f.(activeService := true, portDst := f.l7Protocol as nat * 256);
      g.Valid() && GetKey(f) == GetKey(g)
  {
    var g := f.(activeService := true, portDst := f.l7Protocol as nat * 256);
    FieldsEqualIff(f, g);
    hide GetKey;
  }

  /** A flow whose addresses are not of the family it claims gets a key without them. */
  lemma WrongFamilyLosesAddresses(f: Flow, g: Flow)
    requires f.Valid() && g.Valid() && !f.FamilyMatches() && !g.FamilyMatches()
    requires f == g.(src := f.src, dst := f.dst)
    ensures GetKey(f) == GetKey(g)
  {
  }
}
