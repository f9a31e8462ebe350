/**
  The collector's stash key: a tag packed into 128 bits by one of nine layouts, chosen by the tag's
  code. The shifts are those of the agent.
*/
module StashKey {
  import opened Options

  // ---------------------------------------------------------------- codes

  /** A code is a set of flags; these are the ones the collector uses. */
  datatype Code = Code(ip: bool, l3EpcId: bool, mac: bool, gpid: bool,
                       ipPath: bool, l3EpcPath: bool, macPath: bool, gpidPath: bool,
                       direction: bool, aclGid: bool, protocol: bool, serverPort: bool, tapType: bool, vtapId: bool,
                       tapPort: bool, l7Protocol: bool, tunnelIpId: bool)

  const NONE: Code := Code(false, false, false, false, false, false, false, false,
                           false, false, false, false, false, false, false, false, false)

  const SINGLE_IP: Code := NONE.(ip := true, l3EpcId := true, gpid := true, vtapId := true, protocol := true,
                                 direction := true, tapType := true)
  const SINGLE_IP_PORT: Code := SINGLE_IP.(serverPort := true)
  const SINGLE_MAC_IP_PORT: Code := SINGLE_IP.(mac := true, serverPort := true)
  const SINGLE_IP_PORT_APP: Code := SINGLE_IP.(serverPort := true, l7Protocol := true)
  const SINGLE_MAC_IP_PORT_APP: Code := SINGLE_IP.(serverPort := true, mac := true, l7Protocol := true)

  const EDGE_IP: Code := NONE.(ipPath := true, l3EpcPath := true, gpidPath := true, vtapId := true, protocol := true,
                               direction := true, tapType := true, tapPort := true)
  const EDGE_IP_PORT: Code := EDGE_IP.(serverPort := true)
  const EDGE_MAC_IP_PORT: Code := EDGE_IP.(macPath := true, serverPort := true)
  const EDGE_IP_PORT_APP: Code := EDGE_IP.(serverPort := true, l7Protocol := true)
  const EDGE_MAC_IP_PORT_APP: Code := EDGE_IP.(macPath := true, serverPort := true, l7Protocol := true)

  const ACL: Code := NONE.(aclGid := true, tunnelIpId := true, vtapId := true)

  /** The code a single-ended tag gets; the application path adds the protocol flag. */
  function SingleCode(hasMac: bool, app: bool): Code {
    NONE.(ip := true, l3EpcId := true, gpid := true, vtapId := true, protocol := true, serverPort := true,
          direction := true, tapType := true, mac := hasMac, l7Protocol := app)
  }

  function EdgeCode(hasMac: bool, app: bool): Code {
    NONE.(ipPath := true, l3EpcPath := true, gpidPath := true, vtapId := true, protocol := true, serverPort := true,
          direction := true, tapType := true, tapPort := true, macPath := hasMac, l7Protocol := app)
  }

  predicate IsSingle(code: Code) {
    code == SINGLE_IP_PORT || code == SINGLE_MAC_IP_PORT || code == SINGLE_IP_PORT_APP || code == SINGLE_MAC_IP_PORT_APP
  }

  predicate IsEdge(code: Code) {
    code == EDGE_IP_PORT || code == EDGE_MAC_IP_PORT || code == EDGE_IP_PORT_APP || code == EDGE_MAC_IP_PORT_APP
  }

  /** The codes the collector builds are exactly those with a layout. */
  lemma BuiltCodes(code: Code)
    ensures IsSingle(code) <==> exists mac, app :: code == SingleCode(mac, app)
    ensures IsEdge(code) <==> exists mac, app :: code == EdgeCode(mac, app)
  {
    assert SINGLE_IP_PORT == SingleCode(false, false) && SINGLE_MAC_IP_PORT == SingleCode(true, false);
    assert SINGLE_IP_PORT_APP == SingleCode(false, true) && SINGLE_MAC_IP_PORT_APP == SingleCode(true, true);
    assert EDGE_IP_PORT == EdgeCode(false, false) && EDGE_MAC_IP_PORT == EdgeCode(true, false);
    assert EDGE_IP_PORT_APP == EdgeCode(false, true) && EDGE_MAC_IP_PORT_APP == EdgeCode(true, true);
  }

  // ---------------------------------------------------------------- packing

  /** The fields of a tag that a key can hold. */
  datatype Tagger = Tagger(code: Code, l3EpcId: bv16, l3EpcId1: bv16, protocol: bv8, direction: bv8, serverPort: bv16,
                           tapType: bv16, l7Protocol: bv8, tapPort: bv64, aclGid: bv16)

  /** The two halves of a key; no field straddles them. */
  function Join(hi: bv64, lo: bv64): bv128 { ((hi as bv128) << 64) | (lo as bv128) }

  /** The bits from 48 on of a single-ended key: the tap type, with the code bits over its high byte. */
  function Middle(tap: bv16, n: bv16): bv16 { tap | (n << 8) }

  function SingleLow(epc: bv16, proto: bv8, dir: bv8, port: bv16, middle: bv16): bv64 {
    (epc as bv64) | ((proto as bv64) << 16) | ((dir as bv64) << 24) | ((port as bv64) << 32) | ((middle as bv64) << 48)
  }

  /** A single-ended key: code bits `n` from bit 56, the application protocol from bit 64. */
  function SingleKey(t: Tagger, n: bv16, l7: bv8): bv128 {
    Join(l7 as bv64, SingleLow(t.l3EpcId, t.protocol, t.direction, t.serverPort, Middle(t.tapType, n)))
  }

  /** Tap type, application protocol and code bits share twenty bits. */
  function Reserve(tap: bv16, l7: bv8, n: bv16): bv32 { (tap as bv32) | ((l7 as bv32) << 8) | ((n as bv32) << 16) }

  /** The tap port with those written over its reserved bits. */
  function TapWord(tapPort: bv64, reserve: bv32): bv64 { tapPort | (((reserve & 0xfffff) as bv64) << 40) }

  function EdgeLow(epc: bv16, epc1: bv16, proto: bv8, port: bv16, dir: bv8): bv64 {
    (epc as bv64) | ((epc1 as bv64) << 16) | ((proto as bv64) << 32) | ((port as bv64) << 40) | ((dir as bv64) << 56)
  }

  function EdgeKey(t: Tagger, n: bv16, l7: bv8): bv128 {
    Join(TapWord(t.tapPort, Reserve(t.tapType, l7, n)),
         EdgeLow(t.l3EpcId, t.l3EpcId1, t.protocol, t.serverPort, t.direction))
  }

  function AclLow(gid: bv16, port: bv16): bv64 { (gid as bv64) | ((port as bv64) << 16) }

  /**
    The packed key; `None` where the agent panics. Bit 3 of the code bits marks a MAC, and the
    low three number the layout.
  */
  function FastId(t: Tagger): Option<bv128> {
    if t.code == SINGLE_MAC_IP_PORT_APP then Some(SingleKey(t, 8 | 3, t.l7Protocol))
    else if t.code == SINGLE_MAC_IP_PORT then Some(SingleKey(t, 8 | 2, 0))
    else if t.code == SINGLE_IP_PORT then Some(SingleKey(t, 1, 0))
    else if t.code == SINGLE_IP_PORT_APP then Some(SingleKey(t, 4, t.l7Protocol))
    else if t.code == EDGE_MAC_IP_PORT_APP then Some(EdgeKey(t, 8 | 3, t.l7Protocol))
    else if t.code == EDGE_MAC_IP_PORT then Some(EdgeKey(t, 8 | 2, 0))
    else if t.code == EDGE_IP_PORT then Some(EdgeKey(t, 1, 0))
    else if t.code == EDGE_IP_PORT_APP then Some(EdgeKey(t, 4, 0))
    else if t.code == ACL then Some(Join(0, AclLow(t.aclGid, t.serverPort)))
    else None
  }

  /** A key exists for every tag the collector builds, and for no other. */
  lemma KeyIffBuilt(t: Tagger)
    ensures FastId(t).Some? <==> IsSingle(t.code) || IsEdge(t.code) || t.code == ACL
  {
  }

  // ---------------------------------------------------------------- reading fields back

  lemma Widen8(a: bv8, b: bv8)
    ensures a as bv64 == b as bv64 <==> a == b
  {
  }

  lemma Widen16(a: bv16, b: bv16)
    ensures a as bv64 == b as bv64 <==> a == b
  {
  }

  lemma Widen64(a: bv64, b: bv64)
    ensures a as bv128 == b as bv128 <==> a == b
  {
  }

  lemma JoinHigh(hi: bv64, lo: bv64)
    ensures Join(hi, lo) >> 64 == hi as bv128
  {
  }

  lemma JoinLow(hi: bv64, lo: bv64)
    ensures Join(hi, lo) & 0xffff_ffff_ffff_ffff == lo as bv128
  {
  }

  lemma JoinTell(hi: bv64, lo: bv64, hi': bv64, lo': bv64)
    ensures Join(hi, lo) == Join(hi', lo') <==> hi == hi' && lo == lo'
  {
    hide Join;
    JoinHigh(hi, lo);
    JoinHigh(hi', lo');
    JoinLow(hi, lo);
    JoinLow(hi', lo');
    Widen64(hi, hi');
    Widen64(lo, lo');
  }

  /** Reading a field of a half. */
  function Bits16(w: bv64): bv64 { w & 0xffff }
  function Bits8At16(w: bv64): bv64 { (w >> 16) & 0xff }
  function Bits16At16(w: bv64): bv64 { (w >> 16) & 0xffff }
  function Bits8At24(w: bv64): bv64 { (w >> 24) & 0xff }
  function Bits16At32(w: bv64): bv64 { (w >> 32) & 0xffff }
  function Bits8At32(w: bv64): bv64 { (w >> 32) & 0xff }
  function Bits16At40(w: bv64): bv64 { (w >> 40) & 0xffff }
  function From48(w: bv64): bv64 { w >> 48 }
  function From56(w: bv64): bv64 { w >> 56 }

  lemma ReadSingle0(epc: bv16, proto: bv8, dir: bv8, port: bv16, middle: bv16)
    ensures Bits16(SingleLow(epc, proto, dir, port, middle)) == epc as bv64
  {
  }

  lemma ReadSingle16(epc: bv16, proto: bv8, dir: bv8, port: bv16, middle: bv16)
    ensures Bits8At16(SingleLow(epc, proto, dir, port, middle)) == proto as bv64
  {
  }

  lemma ReadSingle24(epc: bv16, proto: bv8, dir: bv8, port: bv16, middle: bv16)
    ensures Bits8At24(SingleLow(epc, proto, dir, port, middle)) == dir as bv64
  {
  }

  lemma ReadSingle32(epc: bv16, proto: bv8, dir: bv8, port: bv16, middle: bv16)
    ensures Bits16At32(SingleLow(epc, proto, dir, port, middle)) == port as bv64
  {
  }

  lemma ReadSingle48(epc: bv16, proto: bv8, dir: bv8, port: bv16, middle: bv16)
    ensures From48(SingleLow(epc, proto, dir, port, middle)) == middle as bv64
  {
  }

  lemma SingleLowTell(epc: bv16, proto: bv8, dir: bv8, port: bv16, middle: bv16,
                      epc': bv16, proto': bv8, dir': bv8, port': bv16, middle': bv16)
    ensures SingleLow(epc, proto, dir, port, middle) == SingleLow(epc', proto', dir', port', middle')
            <==> epc == epc' && proto == proto' && dir == dir' && port == port' && middle == middle'
  {
    hide SingleLow, Bits16, Bits8At16, Bits8At24, Bits16At32, From48;
    ReadSingle0(epc, proto, dir, port, middle);
    ReadSingle0(epc', proto', dir', port', middle');
    ReadSingle16(epc, proto, dir, port, middle);
    ReadSingle16(epc', proto', dir', port', middle');
    ReadSingle24(epc, proto, dir, port, middle);
    ReadSingle24(epc', proto', dir', port', middle');
    ReadSingle32(epc, proto, dir, port, middle);
    ReadSingle32(epc', proto', dir', port', middle');
    ReadSingle48(epc, proto, dir, port, middle);
    ReadSingle48(epc', proto', dir', port', middle');
    Widen16(epc, epc');
    Widen8(proto, proto');
    Widen8(dir, dir');
    Widen16(port, port');
    Widen16(middle, middle');
  }

  lemma ReadEdge0(epc: bv16, epc1: bv16, proto: bv8, port: bv16, dir: bv8)
    ensures Bits16(EdgeLow(epc, epc1, proto, port, dir)) == epc as bv64
  {
  }

  lemma ReadEdge16(epc: bv16, epc1: bv16, proto: bv8, port: bv16, dir: bv8)
    ensures Bits16At16(EdgeLow(epc, epc1, proto, port, dir)) == epc1 as bv64
  {
  }

  lemma ReadEdge32(epc: bv16, epc1: bv16, proto: bv8, port: bv16, dir: bv8)
    ensures Bits8At32(EdgeLow(epc, epc1, proto, port, dir)) == proto as bv64
  {
  }

  lemma ReadEdge40(epc: bv16, epc1: bv16, proto: bv8, port: bv16, dir: bv8)
    ensures Bits16At40(EdgeLow(epc, epc1, proto, port, dir)) == port as bv64
  {
  }

  lemma ReadEdge56(epc: bv16, epc1: bv16, proto: bv8, port: bv16, dir: bv8)
    ensures From56(EdgeLow(epc, epc1, proto, port, dir)) == dir as bv64
  {
  }

  lemma EdgeLowTell(epc: bv16, epc1: bv16, proto: bv8, port: bv16, dir: bv8,
                    epc': bv16, epc1': bv16, proto': bv8, port': bv16, dir': bv8)
    ensures EdgeLow(epc, epc1, proto, port, dir) == EdgeLow(epc', epc1', proto', port', dir')
            <==> epc == epc' && epc1 == epc1' && proto == proto' && port == port' && dir == dir'
  {
    hide EdgeLow, Bits16, Bits16At16, Bits8At32, Bits16At40, From56;
    ReadEdge0(epc, epc1, proto, port, dir);
    ReadEdge0(epc', epc1', proto', port', dir');
    ReadEdge16(epc, epc1, proto, port, dir);
    ReadEdge16(epc', epc1', proto', port', dir');
    ReadEdge32(epc, epc1, proto, port, dir);
    ReadEdge32(epc', epc1', proto', port', dir');
    ReadEdge40(epc, epc1, proto, port, dir);
    ReadEdge40(epc', epc1', proto', port', dir');
    ReadEdge56(epc, epc1, proto, port, dir);
    ReadEdge56(epc', epc1', proto', port', dir');
    Widen16(epc, epc');
    Widen16(epc1, epc1');
    Widen8(proto, proto');
    Widen16(port, port');
    Widen8(dir, dir');
  }

  /** The bits of a tap port the reserve is not written to, and the twenty it is. */
  function Outside(w: bv64): bv64 { w & 0xf000_00ff_ffff_ffff }
  function Inside(w: bv64): bv64 { (w >> 40) & 0xfffff }

  lemma ReadOutside(tapPort: bv64, reserve: bv32)
    ensures Outside(TapWord(tapPort, reserve)) == Outside(tapPort)
  {
  }

  /** What the twenty bits hold afterwards: the reserve, over whatever the port had there. */
  function Stored(tapPort: bv64, reserve: bv32): bv64 { Inside(tapPort) | ((reserve & 0xfffff) as bv64) }

  function Rebuild(outside: bv64, inside: bv64): bv64 { outside | (inside << 40) }

  lemma ReadInside(tapPort: bv64, reserve: bv32)
    ensures Inside(TapWord(tapPort, reserve)) == Stored(tapPort, reserve)
  {
  }

  lemma Rebuilt(w: bv64)
    ensures w == Rebuild(Outside(w), Inside(w))
  {
  }

  lemma TapWordTell(tapPort: bv64, reserve: bv32, tapPort': bv64, reserve': bv32)
    ensures TapWord(tapPort, reserve) == TapWord(tapPort', reserve')
            <==> Outside(tapPort) == Outside(tapPort') && Stored(tapPort, reserve) == Stored(tapPort', reserve')
  {
    hide TapWord, Outside, Inside, Stored, Rebuild;
    ReadOutside(tapPort, reserve);
    ReadOutside(tapPort', reserve');
    ReadInside(tapPort, reserve);
    ReadInside(tapPort', reserve');
    Rebuilt(TapWord(tapPort, reserve));
    Rebuilt(TapWord(tapPort', reserve'));
  }

  lemma AclLowTell(gid: bv16, port: bv16, gid': bv16, port': bv16)
    ensures AclLow(gid, port) == AclLow(gid', port') <==> gid == gid' && port == port'
  {
    hide AclLow, Bits16, Bits16At16;
    ReadAcl(gid, port);
    ReadAcl(gid', port');
    Widen16(gid, gid');
    Widen16(port, port');
  }

  lemma ReadAcl(gid: bv16, port: bv16)
    ensures Bits16(AclLow(gid, port)) == gid as bv64 && Bits16At16(AclLow(gid, port)) == port as bv64
  {
  }

  // ---------------------------------------------------------------- the layout of a tag

  /** The code bits of a single-ended or edge layout. */
  function Bits(mac: bool, app: bool): bv16 {
    if mac then (if app then 8 | 3 else 8 | 2) else if app then 4 else 1
  }

  lemma BitsTell(mac: bool, app: bool, mac': bool, app': bool)
    ensures 0 < Bits(mac, app) <= 0xf
    ensures Bits(mac, app) == Bits(mac', app') <==> mac == mac' && app == app'
  {
  }

  /** The code bits and the application protocol a tag packs. An edge tag without MAC packs no protocol. */
  function CodeBits(t: Tagger): bv16 {
    if IsSingle(t.code) then Bits(t.code.mac, t.code.l7Protocol) else Bits(t.code.macPath, t.code.l7Protocol)
  }

  predicate PacksProtocol(code: Code) { code.l7Protocol && (IsSingle(code) || code.macPath) }

  function PackedProtocol(t: Tagger): bv8 { if PacksProtocol(t.code) then t.l7Protocol else 0 }

  lemma CodeShape(code: Code)
    ensures IsSingle(code) <==> code == SingleCode(code.mac, code.l7Protocol)
    ensures IsEdge(code) <==> code == EdgeCode(code.macPath, code.l7Protocol)
    ensures !(IsSingle(code) && IsEdge(code)) && !IsSingle(ACL) && !IsEdge(ACL)
  {
  }

  lemma SingleId(t: Tagger)
    requires IsSingle(t.code)
    ensures FastId(t) == Some(SingleKey(t, CodeBits(t), PackedProtocol(t)))
  {
    hide SingleKey, EdgeKey, Join;
  }

  lemma EdgeId(t: Tagger)
    requires IsEdge(t.code)
    ensures FastId(t) == Some(EdgeKey(t, CodeBits(t), PackedProtocol(t)))
  {
    hide SingleKey, EdgeKey, Join;
  }

  lemma AclId(t: Tagger)
    requires t.code == ACL
    ensures FastId(t) == Some(Join(0, AclLow(t.aclGid, t.serverPort)))
  {
    hide SingleKey, EdgeKey, Join;
  }

  // ---------------------------------------------------------------- which tags share a key

  /** The fields of a tag that no other field is written over. */
  predicate SameEnd(t: Tagger, u: Tagger) {
    t.l3EpcId == u.l3EpcId && t.protocol == u.protocol && t.direction == u.direction && t.serverPort == u.serverPort
  }

  predicate SamePath(t: Tagger, u: Tagger) { SameEnd(t, u) && t.l3EpcId1 == u.l3EpcId1 }

  /** The twenty shared bits of an edge key. */
  function StoredReserve(t: Tagger): bv64 {
    Stored(t.tapPort, Reserve(t.tapType, PackedProtocol(t), CodeBits(t)))
  }

  predicate ShareSingle(t: Tagger, u: Tagger) {
    && SameEnd(t, u) && PackedProtocol(t) == PackedProtocol(u)
    && Middle(t.tapType, CodeBits(t)) == Middle(u.tapType, CodeBits(u))
  }

  predicate ShareEdge(t: Tagger, u: Tagger) {
    SamePath(t, u) && Outside(t.tapPort) == Outside(u.tapPort) && StoredReserve(t) == StoredReserve(u)
  }

  /** Tags of one family that put the same bits everywhere. */
  predicate ShareKey(t: Tagger, u: Tagger) {
    || (IsSingle(t.code) && IsSingle(u.code) && ShareSingle(t, u))
    || (IsEdge(t.code) && IsEdge(u.code) && ShareEdge(t, u))
    || (t.code == ACL && u.code == ACL && t.aclGid == u.aclGid && t.serverPort == u.serverPort)
  }

  lemma SinglesCollide(t: Tagger, u: Tagger)
    requires IsSingle(t.code) && IsSingle(u.code)
    ensures FastId(t) == FastId(u) <==> ShareSingle(t, u)
  {
    hide FastId, SingleLow, Join, Middle, CodeBits, PackedProtocol, IsSingle;
    SingleId(t);
    SingleId(u);
    var m, m' := Middle(t.tapType, CodeBits(t)), Middle(u.tapType, CodeBits(u));
    JoinTell(PackedProtocol(t) as bv64, SingleLow(t.l3EpcId, t.protocol, t.direction, t.serverPort, m),
             PackedProtocol(u) as bv64, SingleLow(u.l3EpcId, u.protocol, u.direction, u.serverPort, m'));
    Widen8(PackedProtocol(t), PackedProtocol(u));
    SingleLowTell(t.l3EpcId, t.protocol, t.direction, t.serverPort, m,
                  u.l3EpcId, u.protocol, u.direction, u.serverPort, m');
  }

  lemma EdgesCollide(t: Tagger, u: Tagger)
    requires IsEdge(t.code) && IsEdge(u.code)
    ensures FastId(t) == FastId(u) <==> ShareEdge(t, u)
  {
    hide FastId, EdgeLow, Join, TapWord, Reserve, Stored, Outside, CodeBits, PackedProtocol, IsEdge;
    EdgeId(t);
    EdgeId(u);
    var r, r' := Reserve(t.tapType, PackedProtocol(t), CodeBits(t)), Reserve(u.tapType, PackedProtocol(u), CodeBits(u));
    JoinTell(TapWord(t.tapPort, r), EdgeLow(t.l3EpcId, t.l3EpcId1, t.protocol, t.serverPort, t.direction),
             TapWord(u.tapPort, r'), EdgeLow(u.l3EpcId, u.l3EpcId1, u.protocol, u.serverPort, u.direction));
    TapWordTell(t.tapPort, r, u.tapPort, r');
    EdgeLowTell(t.l3EpcId, t.l3EpcId1, t.protocol, t.serverPort, t.direction,
                u.l3EpcId, u.l3EpcId1, u.protocol, u.serverPort, u.direction);
  }

  lemma AclsCollide(t: Tagger, u: Tagger)
    requires t.code == ACL && u.code == ACL
    ensures FastId(t) == FastId(u) <==> t.aclGid == u.aclGid && t.serverPort == u.serverPort
  {
    hide FastId, AclLow, Join;
    AclId(t);
    AclId(u);
    JoinTell(0, AclLow(t.aclGid, t.serverPort), 0, AclLow(u.aclGid, u.serverPort));
    AclLowTell(t.aclGid, t.serverPort, u.aclGid, u.serverPort);
  }

  lemma TapWordHigh(tapPort: bv64, tap: bv16, l7: bv8, n: bv16)
    requires 0 < n <= 0xf
    ensures TapWord(tapPort, Reserve(tap, l7, n)) > 0xff
  {
  }

  lemma MiddleSet(tap: bv16, n: bv16)
    requires 0 < n <= 0xf
    ensures Middle(tap, n) as bv64 != 0
  {
  }

  lemma AclUnset(gid: bv16, port: bv16)
    ensures From48(AclLow(gid, port)) == 0
  {
  }

  lemma CodeBitsSet(t: Tagger)
    ensures 0 < CodeBits(t) <= 0xf
  {
    hide IsSingle, Bits;
    BitsTell(t.code.mac, t.code.l7Protocol, false, false);
    BitsTell(t.code.macPath, t.code.l7Protocol, false, false);
  }

  lemma Small(a: bv8)
    ensures a as bv64 <= 0xff
  {
  }

  lemma SingleNotEdge(t: Tagger, u: Tagger)
    requires IsSingle(t.code) && IsEdge(u.code)
    ensures FastId(t) != FastId(u)
  {
    hide FastId, SingleLow, EdgeLow, Join, Middle, TapWord, Reserve, CodeBits, PackedProtocol, IsSingle, IsEdge;
    SingleId(t);
    EdgeId(u);
    CodeBitsSet(u);
    Small(PackedProtocol(t));
    TapWordHigh(u.tapPort, u.tapType, PackedProtocol(u), CodeBits(u));
    JoinTell(PackedProtocol(t) as bv64,
             SingleLow(t.l3EpcId, t.protocol, t.direction, t.serverPort, Middle(t.tapType, CodeBits(t))),
             TapWord(u.tapPort, Reserve(u.tapType, PackedProtocol(u), CodeBits(u))),
             EdgeLow(u.l3EpcId, u.l3EpcId1, u.protocol, u.serverPort, u.direction));
  }

  lemma SingleNotAcl(t: Tagger, u: Tagger)
    requires IsSingle(t.code) && u.code == ACL
    ensures FastId(t) != FastId(u)
  {
    hide FastId, SingleLow, AclLow, Join, Middle, From48, CodeBits, PackedProtocol, IsSingle;
    SingleId(t);
    AclId(u);
    CodeBitsSet(t);
    var m := Middle(t.tapType, CodeBits(t));
    MiddleSet(t.tapType, CodeBits(t));
    ReadSingle48(t.l3EpcId, t.protocol, t.direction, t.serverPort, m);
    AclUnset(u.aclGid, u.serverPort);
    JoinTell(PackedProtocol(t) as bv64, SingleLow(t.l3EpcId, t.protocol, t.direction, t.serverPort, m),
             0, AclLow(u.aclGid, u.serverPort));
  }

  lemma EdgeNotAcl(t: Tagger, u: Tagger)
    requires IsEdge(t.code) && u.code == ACL
    ensures FastId(t) != FastId(u)
  {
    hide FastId, EdgeLow, AclLow, Join, TapWord, Reserve, CodeBits, PackedProtocol, IsEdge;
    EdgeId(t);
    AclId(u);
    CodeBitsSet(t);
    TapWordHigh(t.tapPort, t.tapType, PackedProtocol(t), CodeBits(t));
    JoinTell(TapWord(t.tapPort, Reserve(t.tapType, PackedProtocol(t), CodeBits(t))),
             EdgeLow(t.l3EpcId, t.l3EpcId1, t.protocol, t.serverPort, t.direction),
             0, AclLow(u.aclGid, u.serverPort));
  }

  /**
    For all tags that have a key, whatever their tap types and tap ports: two of them share it exactly when
    they are of one family and put the same bits everywhere.
  */
  lemma KeysCollide(t: Tagger, u: Tagger)
    requires FastId(t).Some? && FastId(u).Some?
    ensures FastId(t) == FastId(u) <==> ShareKey(t, u)
  {
    KeyIffBuilt(t);
    KeyIffBuilt(u);
    CodeShape(t.code);
    CodeShape(u.code);
    hide FastId, IsSingle, IsEdge, SingleCode, EdgeCode, ShareSingle, ShareEdge;
    if IsSingle(t.code) {
      if IsSingle(u.code) {
        SinglesCollide(t, u);
      } else if IsEdge(u.code) {
        SingleNotEdge(t, u);
      } else {
        SingleNotAcl(t, u);
      }
    } else if IsEdge(t.code) {
      if IsSingle(u.code) {
        SingleNotEdge(u, t);
      } else if IsEdge(u.code) {
        EdgesCollide(t, u);
      } else {
        EdgeNotAcl(t, u);
      }
    } else {
      if IsSingle(u.code) {
        SingleNotAcl(u, t);
      } else if IsEdge(u.code) {
        EdgeNotAcl(u, t);
      } else {
        AclsCollide(t, u);
      }
    }
  }

  /** The policy code is never confused with another, so a key tells which kind of meter it is for. */
  lemma KeyTellsPolicy(t: Tagger, u: Tagger)
    requires FastId(t).Some? && FastId(t) == FastId(u)
    ensures t.code == ACL <==> u.code == ACL
  {
    CodeShape(t.code);
    CodeShape(u.code);
    hide FastId, IsSingle, IsEdge, SingleCode, EdgeCode, ShareSingle, ShareEdge;
    KeysCollide(t, u);
  }

  // ---------------------------------------------------------------- when every packed field can be read back

  /**
    Nothing is written over anything else: a tap type of one byte where code bits or a protocol lie above
    it, and a tap port that leaves the reserved bits free.
  */
  predicate InRange(t: Tagger) {
    && (IsSingle(t.code) || PacksProtocol(t.code) ==> t.tapType <= 0xff)
    && (IsEdge(t.code) ==> Inside(t.tapPort) == 0)
  }

  /** Tags that agree on what the layout of their code holds. */
  predicate SameKey(t: Tagger, u: Tagger) {
    && t.code == u.code
    && (t.code == ACL ==> t.aclGid == u.aclGid && t.serverPort == u.serverPort)
    && (t.code != ACL ==> SameEnd(t, u) && t.tapType == u.tapType)
    && (PacksProtocol(t.code) ==> t.l7Protocol == u.l7Protocol)
    && (IsEdge(t.code) ==> t.l3EpcId1 == u.l3EpcId1 && t.tapPort == u.tapPort)
  }

  lemma MiddleTell(tap: bv16, n: bv16, tap': bv16, n': bv16)
    requires tap <= 0xff && tap' <= 0xff && n <= 0xf && n' <= 0xf
    ensures Middle(tap, n) == Middle(tap', n') <==> tap == tap' && n == n'
  {
  }

  lemma Masked(reserve: bv32)
    requires reserve <= 0xfffff
    ensures reserve & 0xfffff == reserve
  {
  }

  lemma Widen32(a: bv32, b: bv32)
    ensures a as bv64 == b as bv64 <==> a == b
  {
  }

  lemma StoredFree(tapPort: bv64, reserve: bv32)
    requires Inside(tapPort) == 0 && reserve <= 0xfffff
    ensures Stored(tapPort, reserve) == reserve as bv64
  {
    hide Inside;
    Masked(reserve);
  }

  lemma OutsideFree(tapPort: bv64)
    requires Inside(tapPort) == 0
    ensures Outside(tapPort) == tapPort
  {
  }

  lemma ReserveFits(tap: bv16, l7: bv8, n: bv16)
    requires n <= 0xf
    ensures Reserve(tap, l7, n) <= 0xfffff
  {
  }

  lemma ReserveTop(tap: bv16, l7: bv8, n: bv16)
    requires n <= 0xf
    ensures Reserve(tap, l7, n) >> 16 == n as bv32
  {
  }

  lemma Widen16To32(a: bv16, b: bv16)
    ensures a as bv32 == b as bv32 <==> a == b
  {
  }

  lemma ReserveCode(tap: bv16, l7: bv8, n: bv16, tap': bv16, l7': bv8, n': bv16)
    requires n <= 0xf && n' <= 0xf && Reserve(tap, l7, n) == Reserve(tap', l7', n')
    ensures n == n'
  {
    hide Reserve;
    ReserveTop(tap, l7, n);
    ReserveTop(tap', l7', n');
    Widen16To32(n, n');
  }

  lemma ReserveTell(tap: bv16, l7: bv8, n: bv16, tap': bv16, l7': bv8)
    requires n <= 0xf && ((tap <= 0xff && tap' <= 0xff) || (l7 == 0 && l7' == 0))
    ensures Reserve(tap, l7, n) == Reserve(tap', l7', n) <==> tap == tap' && l7 == l7'
  {
  }

  lemma EdgeBits(t: Tagger)
    requires IsEdge(t.code)
    ensures CodeBits(t) == Bits(t.code.macPath, t.code.l7Protocol)
  {
    CodeShape(t.code);
    hide Bits;
  }

  lemma StoredTell(tapPort: bv64, r: bv32, tapPort': bv64, r': bv32)
    requires Inside(tapPort) == 0 && Inside(tapPort') == 0 && r <= 0xfffff && r' <= 0xfffff
    ensures Stored(tapPort, r) == Stored(tapPort', r') <==> r == r'
  {
    hide Stored, Inside;
    StoredFree(tapPort, r);
    StoredFree(tapPort', r');
    Widen32(r, r');
  }

  lemma StoredEqual(t: Tagger, u: Tagger)
    requires Inside(t.tapPort) == 0 && Inside(u.tapPort) == 0
    ensures StoredReserve(t) == StoredReserve(u) <==>
      Reserve(t.tapType, PackedProtocol(t), CodeBits(t)) == Reserve(u.tapType, PackedProtocol(u), CodeBits(u))
  {
    hide Reserve, Stored, Inside, CodeBits, PackedProtocol;
    var r, r' := Reserve(t.tapType, PackedProtocol(t), CodeBits(t)), Reserve(u.tapType, PackedProtocol(u), CodeBits(u));
    CodeBitsSet(t);
    CodeBitsSet(u);
    ReserveFits(t.tapType, PackedProtocol(t), CodeBits(t));
    ReserveFits(u.tapType, PackedProtocol(u), CodeBits(u));
    StoredTell(t.tapPort, r, u.tapPort, r');
  }

  lemma SinglesInRange(t: Tagger, u: Tagger)
    requires IsSingle(t.code) && IsSingle(u.code) && InRange(t) && InRange(u)
    ensures ShareSingle(t, u) <==> SameKey(t, u)
  {
    CodeShape(t.code);
    CodeShape(u.code);
    CodeBitsSet(t);
    CodeBitsSet(u);
    MiddleTell(t.tapType, CodeBits(t), u.tapType, CodeBits(u));
    BitsTell(t.code.mac, t.code.l7Protocol, u.code.mac, u.code.l7Protocol);
    hide Middle, Bits, SingleCode, EdgeCode, IsSingle, IsEdge, SameEnd;
  }

  lemma EdgesInRange(t: Tagger, u: Tagger)
    requires IsEdge(t.code) && IsEdge(u.code) && InRange(t) && InRange(u)
    ensures ShareEdge(t, u) <==> SameKey(t, u)
  {
    var n, n', l7, l7' := CodeBits(t), CodeBits(u), PackedProtocol(t), PackedProtocol(u);
    CodeShape(t.code);
    CodeShape(u.code);
    BitsTell(t.code.macPath, t.code.l7Protocol, u.code.macPath, u.code.l7Protocol);
    EdgeBits(t);
    EdgeBits(u);
    CodeBitsSet(t);
    CodeBitsSet(u);
    StoredEqual(t, u);
    OutsideFree(t.tapPort);
    OutsideFree(u.tapPort);
    if n == n' { ReserveTell(t.tapType, l7, n, u.tapType, l7'); }
    if Reserve(t.tapType, l7, n) == Reserve(u.tapType, l7', n') { ReserveCode(t.tapType, l7, n, u.tapType, l7', n'); }
    hide Reserve, Bits, SingleCode, EdgeCode, IsSingle, IsEdge, SameEnd;
    hide Stored, Outside, Inside, CodeBits, StoredReserve;
  }

  /** In range, two tags share a key exactly when they have one code and agree on every field its layout holds. */
  lemma KeysCollideIff(t: Tagger, u: Tagger)
    requires InRange(t) && InRange(u) && FastId(t).Some? && FastId(u).Some?
    ensures FastId(t) == FastId(u) <==> SameKey(t, u)
  {
    KeyIffBuilt(t);
    KeyIffBuilt(u);
    CodeShape(t.code);
    CodeShape(u.code);
    assert !PacksProtocol(ACL);
    hide FastId, InRange, IsSingle, IsEdge, SingleCode, EdgeCode, ShareSingle, ShareEdge, SameEnd, PacksProtocol;
    KeysCollide(t, u);
    if IsSingle(t.code) && IsSingle(u.code) {
      SinglesInRange(t, u);
    } else if IsEdge(t.code) && IsEdge(u.code) {
      EdgesInRange(t, u);
    }
  }

  // ---------------------------------------------------------------- what is lost out of range

  /**
    Without a MAC the edge layout drops the application protocol, so every two protocols on one
    path share a key.
  */
  lemma EdgeAppLosesProtocol(t: Tagger, l7: bv8)
    requires t.code == EDGE_IP_PORT_APP
    ensures FastId(t) == FastId(t.(l7Protocol := l7))
  {
    hide Join, TapWord, EdgeLow, Reserve;
  }

  lemma MiddleFull(n: bv16)
    ensures Middle(0xffff, n) == 0xffff
  {
  }

  /** With the tap type of an unknown network even the code is lost: only a packed protocol tells tags apart. */
  lemma UnknownTapTypeHidesCode(t: Tagger, code: Code)
    requires IsSingle(t.code) && IsSingle(code) && t.tapType == 0xffff
    ensures FastId(t) == FastId(t.(code := code)) <==> PackedProtocol(t) == PackedProtocol(t.(code := code))
  {
    hide FastId, IsSingle, CodeBits, PackedProtocol, Middle;
    var u := t.(code := code);
    MiddleFull(CodeBits(t));
    MiddleFull(CodeBits(u));
    SinglesCollide(t, u);
  }

  lemma ReserveFull(l7: bv8, l7': bv8, n: bv16)
    ensures Reserve(0xffff, l7, n) == Reserve(0xffff, l7', n)
  {
  }

  /** And every edge key loses the protocol it packs. */
  lemma UnknownTapTypeHidesProtocol(t: Tagger, l7: bv8)
    requires IsEdge(t.code) && t.tapType == 0xffff
    ensures FastId(t) == FastId(t.(l7Protocol := l7))
  {
    var u := t.(l7Protocol := l7);
    assert CodeBits(u) == CodeBits(t);
    hide FastId, IsEdge, CodeBits, PackedProtocol, Reserve, Stored, Outside;
    ReserveFull(PackedProtocol(t), PackedProtocol(u), CodeBits(t));
    EdgesCollide(t, u);
  }

  // ---------------------------------------------------------------- the tap types there are

  /** The values a capture network type converts to: a byte, `Max` and `Unknown`. */
  predicate IsTapType(tap: bv16) { tap <= 0x100 || tap == 0xffff }

  predicate ZeroOrMax(tap: bv16) { tap == 0 || tap == 0x100 }

  predicate IsSingleBits(n: bv16) { n == 1 || n == 4 || n == 8 | 2 || n == 8 | 3 }

  /** `Max` under the bits of a MAC reads like `Any` or `Max` under those of a MAC with a protocol. */
  predicate MaxBlurs(tap: bv16, n: bv16, tap': bv16, n': bv16) {
    tap == 0x100 && n == 8 | 2 && n' == 8 | 3 && ZeroOrMax(tap')
  }

  /** Tap type and code bits that a single-ended key cannot tell from others. */
  predicate Blurred(tap: bv16, n: bv16, tap': bv16, n': bv16) {
    || (tap == tap' && n == n')
    || (tap == 0xffff && tap' == 0xffff)
    || (n == n' && (n == 1 || n == 8 | 3) && ZeroOrMax(tap) && ZeroOrMax(tap'))
    || MaxBlurs(tap, n, tap', n') || MaxBlurs(tap', n', tap, n)
  }

  lemma MiddleBlurs(tap: bv16, n: bv16, tap': bv16, n': bv16)
    requires IsTapType(tap) && IsTapType(tap') && IsSingleBits(n) && IsSingleBits(n')
    ensures Middle(tap, n) == Middle(tap', n') <==> Blurred(tap, n, tap', n')
  {
  }

  /** Tap type and application protocol that an edge key of one code cannot tell from others. */
  predicate EdgeBlurred(tap: bv16, l7: bv8, tap': bv16, l7': bv8) {
    || (tap == tap' && l7 == l7')
    || (tap == 0xffff && tap' == 0xffff)
    || (tap == 0x100 && tap' == 0x100 && l7 | 1 == l7' | 1)
    || (tap == 0x100 && tap' == 0 && l7 | 1 == l7') || (tap == 0 && tap' == 0x100 && l7 == l7' | 1)
    || (tap == 0xffff && tap' == 0xff && l7' == 0xff) || (tap == 0xff && tap' == 0xffff && l7 == 0xff)
  }

  /** `Max` sets the lowest bit of the protocol. */
  lemma MaxAsByte(l7: bv8, n: bv16)
    ensures Reserve(0x100, l7, n) == Reserve(0, l7 | 1, n)
  {
  }

  lemma UnknownAndByte(l7: bv8, tap: bv16, l7': bv8, n: bv16)
    requires tap <= 0xff
    ensures Reserve(0xffff, l7, n) == Reserve(tap, l7', n) <==> tap == 0xff && l7' == 0xff
  {
  }

  lemma UnknownAndMax(l7: bv8, l7': bv8, n: bv16)
    ensures Reserve(0xffff, l7, n) != Reserve(0x100, l7', n)
  {
  }

  lemma TapCases(tap: bv16)
    ensures IsTapType(tap) <==> tap <= 0xff || tap == 0x100 || tap == 0xffff
  {
  }

  lemma ReserveBlurs(tap: bv16, l7: bv8, n: bv16, tap': bv16, l7': bv8)
    requires IsTapType(tap) && IsTapType(tap') && n <= 0xf
    ensures Reserve(tap, l7, n) == Reserve(tap', l7', n) <==> EdgeBlurred(tap, l7, tap', l7')
  {
    hide Reserve, IsTapType;
    TapCases(tap);
    TapCases(tap');
    MaxAsByte(l7, n);
    MaxAsByte(l7', n);
    if tap <= 0xff && tap' <= 0xff {
      ReserveTell(tap, l7, n, tap', l7');
    } else if tap == 0xffff && tap' == 0xffff {
      ReserveFull(l7, l7', n);
    } else if tap == 0xffff && tap' == 0x100 {
      UnknownAndMax(l7, l7', n);
    } else if tap == 0xffff {
      UnknownAndByte(l7, tap', l7', n);
    } else if tap' == 0xffff && tap == 0x100 {
      UnknownAndMax(l7', l7, n);
    } else if tap' == 0xffff {
      UnknownAndByte(l7', tap, l7, n);
    } else if tap == 0x100 && tap' == 0x100 {
      ReserveTell(0, l7 | 1, n, 0, l7' | 1);
    } else if tap == 0x100 {
      ReserveTell(0, l7 | 1, n, tap', l7');
    } else {
      ReserveTell(tap, l7, n, 0, l7' | 1);
    }
  }

  /** As the agent builds them: a tap type it has, and a tap port that leaves the reserved bits free. */
  predicate Built(t: Tagger) { IsTapType(t.tapType) && (IsEdge(t.code) ==> Inside(t.tapPort) == 0) }

  predicate BuiltSingles(t: Tagger, u: Tagger) {
    && SameEnd(t, u) && PackedProtocol(t) == PackedProtocol(u)
    && Blurred(t.tapType, CodeBits(t), u.tapType, CodeBits(u))
  }

  predicate BuiltEdges(t: Tagger, u: Tagger) {
    && SamePath(t, u) && t.tapPort == u.tapPort && t.code == u.code
    && EdgeBlurred(t.tapType, PackedProtocol(t), u.tapType, PackedProtocol(u))
  }

  lemma SingleBits(t: Tagger)
    requires IsSingle(t.code)
    ensures IsSingleBits(CodeBits(t))
  {
  }

  lemma BuiltSinglesCollide(t: Tagger, u: Tagger)
    requires IsSingle(t.code) && IsSingle(u.code) && IsTapType(t.tapType) && IsTapType(u.tapType)
    ensures FastId(t) == FastId(u) <==> BuiltSingles(t, u)
  {
    hide FastId, IsSingle, CodeBits, PackedProtocol, Middle, Blurred, IsSingleBits, IsTapType;
    SingleBits(t);
    SingleBits(u);
    MiddleBlurs(t.tapType, CodeBits(t), u.tapType, CodeBits(u));
    SinglesCollide(t, u);
  }

  lemma EdgeCodes(t: Tagger, u: Tagger)
    requires IsEdge(t.code) && IsEdge(u.code)
    ensures CodeBits(t) == CodeBits(u) <==> t.code == u.code
  {
    CodeShape(t.code);
    CodeShape(u.code);
    EdgeBits(t);
    EdgeBits(u);
    BitsTell(t.code.macPath, t.code.l7Protocol, u.code.macPath, u.code.l7Protocol);
    hide CodeBits, Bits, IsEdge, IsSingle;
  }

  lemma BuiltEdgesCollide(t: Tagger, u: Tagger)
    requires IsEdge(t.code) && IsEdge(u.code) && Built(t) && Built(u)
    ensures FastId(t) == FastId(u) <==> BuiltEdges(t, u)
  {
    hide FastId, IsEdge, CodeBits, PackedProtocol, Reserve, EdgeBlurred, IsTapType;
    hide Stored, StoredReserve, Outside, Inside;
    var n, n', l7, l7' := CodeBits(t), CodeBits(u), PackedProtocol(t), PackedProtocol(u);
    EdgesCollide(t, u);
    EdgeCodes(t, u);
    CodeBitsSet(t);
    CodeBitsSet(u);
    StoredEqual(t, u);
    OutsideFree(t.tapPort);
    OutsideFree(u.tapPort);
    ReserveBlurs(t.tapType, l7, n, u.tapType, l7');
    if Reserve(t.tapType, l7, n) == Reserve(u.tapType, l7', n') { ReserveCode(t.tapType, l7, n, u.tapType, l7', n'); }
  }

  /** For the tags the agent builds: which of them share a key, field by field. */
  lemma BuiltKeysCollide(t: Tagger, u: Tagger)
    requires Built(t) && Built(u) && FastId(t).Some? && FastId(u).Some?
    ensures FastId(t) == FastId(u) <==>
      || (IsSingle(t.code) && IsSingle(u.code) && BuiltSingles(t, u))
      || (IsEdge(t.code) && IsEdge(u.code) && BuiltEdges(t, u))
      || (t.code == ACL && u.code == ACL && t.aclGid == u.aclGid && t.serverPort == u.serverPort)
  {
    KeyIffBuilt(t);
    KeyIffBuilt(u);
    CodeShape(t.code);
    CodeShape(u.code);
    hide FastId, IsSingle, IsEdge, SingleCode, EdgeCode, ShareSingle, ShareEdge, BuiltSingles, BuiltEdges, Built;
    KeysCollide(t, u);
    if IsSingle(t.code) && IsSingle(u.code) {
      assert IsTapType(t.tapType) && IsTapType(u.tapType) by { BuiltTap(t); BuiltTap(u); }
      BuiltSinglesCollide(t, u);
    } else if IsEdge(t.code) && IsEdge(u.code) {
      BuiltEdgesCollide(t, u);
    }
  }

  lemma BuiltTap(t: Tagger)
    requires Built(t)
    ensures IsTapType(t.tapType)
  {
  }

  /** The tap types under which a single-ended key is only that tag's. */
  predicate OwnTap(tap: bv16, n: bv16) {
    (0 < tap && tap <= 0xff) || (tap == 0 && (n == 4 || n == 8 | 2)) || (tap == 0x100 && n == 4)
  }

  lemma OwnTapTells(tap: bv16, n: bv16, tap': bv16, n': bv16)
    requires OwnTap(tap, n) && Blurred(tap, n, tap', n')
    ensures tap == tap' && n == n'
  {
  }

  /** A tag with the same key and another tap type or code, where there is one. */
  function Rival(t: Tagger): Tagger {
    if t.tapType == 0xffff then
      t.(code := SingleCode(!t.code.mac, t.code.l7Protocol))
    else if t.code == SINGLE_MAC_IP_PORT then t.(code := SINGLE_MAC_IP_PORT_APP, tapType := 0, l7Protocol := 0)
    else t.(tapType := if t.tapType == 0 then 0x100 else 0)
  }

  lemma RivalShares(t: Tagger)
    requires IsSingle(t.code) && IsTapType(t.tapType) && !OwnTap(t.tapType, CodeBits(t))
    ensures var u := Rival(t);
      IsSingle(u.code) && IsTapType(u.tapType) && BuiltSingles(t, u) && (u.code != t.code || u.tapType != t.tapType)
  {
  }

  lemma SingleCodes(t: Tagger, u: Tagger)
    requires IsSingle(t.code) && IsSingle(u.code) && CodeBits(t) == CodeBits(u)
    ensures t.code == u.code && !IsEdge(t.code) && t.code != ACL
  {
    CodeShape(t.code);
    CodeShape(u.code);
    BitsTell(t.code.mac, t.code.l7Protocol, u.code.mac, u.code.l7Protocol);
    hide Bits, IsEdge;
  }

  /**
    Which single-ended keys mean one tag only: those with a tap type from 1 to 255, and with `Any` or `Max`
    under the codes whose bits leave `Max` readable.
  */
  lemma SingleKeyIsOwnIff(t: Tagger)
    requires IsSingle(t.code) && IsTapType(t.tapType)
    ensures (forall u: Tagger :: IsSingle(u.code) && IsTapType(u.tapType) && FastId(u) == FastId(t) ==> SameKey(t, u))
            <==> OwnTap(t.tapType, CodeBits(t))
  {
    if OwnTap(t.tapType, CodeBits(t)) {
      forall u: Tagger | IsSingle(u.code) && IsTapType(u.tapType) && FastId(u) == FastId(t) ensures SameKey(t, u) {
        OwnKey(t, u);
      }
    } else {
      RivalShares(t);
      BuiltSinglesCollide(t, Rival(t));
      assert !SameKey(t, Rival(t));
    }
  }

  lemma OwnKey(t: Tagger, u: Tagger)
    requires IsSingle(t.code) && IsTapType(t.tapType) && IsSingle(u.code) && IsTapType(u.tapType)
    requires OwnTap(t.tapType, CodeBits(t)) && FastId(u) == FastId(t)
    ensures SameKey(t, u)
  {
    hide FastId, CodeBits, Blurred, OwnTap, IsTapType, IsSingle, IsEdge;
    BuiltSinglesCollide(t, u);
    OwnTapTells(t.tapType, CodeBits(t), u.tapType, CodeBits(u));
    SingleCodes(t, u);
  }
}
