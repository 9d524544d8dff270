/** Which interface, if any, the host reaches an address on without a gateway. */
module Localnet {
  import opened Wrappers
  import opened Bits

  datatype Ip = V4(bits: nat) | V6(bits: nat)

  datatype Route = Route(net: Ip, prefix: nat, gateway: Option<Ip>, reject: bool, device: string)

  function Width(ip: Ip): nat {
    if ip.V4? then 32 else 128
  }

  predicate ValidIp(ip: Ip) {
    ip.bits < Pow2(Width(ip))
  }

  // What the kernel's tables hold: no prefix is longer than the address.
  predicate ValidRoute(r: Route) {
    ValidIp(r.net) && r.prefix <= Width(r.net)
  }

  predicate ValidTable(table: seq<Route>) {
    forall i :: 0 <= i < |table| ==> ValidRoute(table[i])
  }

  // ---- Prefixes ----

  // A shift by the whole width of a u128 is refused.
  function CheckedShr(x: nat, s: nat): Option<nat> {
    if s < 128 then Some(Shr(x, s)) else None
  }

  predicate SamePrefix(a: nat, b: nat, width: nat, prefix: nat)
    requires prefix <= width
  {
    match CheckedShr(Xor(a, b), width - prefix)
    case None => true
    case Some(rest) => rest == 0
  }

  ghost predicate FirstBitsAgree(a: nat, b: nat, width: nat, prefix: nat)
    requires prefix <= width
  {
    forall k: nat :: width - prefix <= k < width ==> (Bit(a, k) <==> Bit(b, k))
  }

  // SamePrefix compares exactly the first `prefix` bits, for every prefix and width up to 128, /0 included.
  lemma SamePrefixComparesBits(a: nat, b: nat, width: nat, prefix: nat)
    requires prefix <= width <= 128 && a < Pow2(width) && b < Pow2(width)
    ensures SamePrefix(a, b, width, prefix) <==> FirstBitsAgree(a, b, width, prefix)
  {
    var s := width - prefix;
    if s < 128 {
      var rest := Shr(Xor(a, b), s);
      if rest == 0 {
        forall k: nat | s <= k < width ensures Bit(a, k) <==> Bit(b, k) {
          ZeroBit(k - s);
          ShrBit(Xor(a, b), s, k - s);
          XorBit(a, b, k);
        }
      } else {
        var k := SomeBit(rest);
        ShrBit(Xor(a, b), s, k);
        XorBit(a, b, s + k);
        if s + k >= width {
          HighBitsClear(a, width, s + k);
          HighBitsClear(b, width, s + k);
        }
      }
    }
  }

  // For a fixed prefix agreement is an equivalence, and a longer prefix agrees less often.
  lemma SamePrefixIsEquivalence(a: nat, b: nat, c: nat, width: nat, prefix: nat, shorter: nat)
    requires shorter <= prefix <= width <= 128 && a < Pow2(width) && b < Pow2(width) && c < Pow2(width)
    ensures SamePrefix(a, a, width, prefix)
    ensures SamePrefix(a, b, width, prefix) ==> SamePrefix(b, a, width, prefix)
    ensures SamePrefix(a, b, width, prefix) && SamePrefix(b, c, width, prefix) ==> SamePrefix(a, c, width, prefix)
    ensures SamePrefix(a, b, width, prefix) ==> SamePrefix(a, b, width, shorter)
    ensures prefix == width ==> (SamePrefix(a, b, width, prefix) <==> a == b)
  {
    SamePrefixComparesBits(a, a, width, prefix);
    SamePrefixComparesBits(a, b, width, prefix);
    SamePrefixComparesBits(b, a, width, prefix);
    SamePrefixComparesBits(b, c, width, prefix);
    SamePrefixComparesBits(a, c, width, prefix);
    SamePrefixComparesBits(a, b, width, shorter);
    if prefix == width && FirstBitsAgree(a, b, width, prefix) {
      forall k: nat ensures Bit(a, k) <==> Bit(b, k) {
        if k >= width {
          HighBitsClear(a, width, k);
          HighBitsClear(b, width, k);
        }
      }
      SameBitsSameNumber(a, b);
    }
  }

  predicate Contains(r: Route, ip: Ip)
    requires ValidRoute(r)
  {
    match (r.net, ip)
    case (V4(net), V4(bits)) => SamePrefix(net, bits, 32, r.prefix)
    case (V6(net), V6(bits)) => SamePrefix(net, bits, 128, r.prefix)
    case _ => false
  }

  // A route covers an address exactly when the two are equal under the prefix's netmask.
  lemma ContainsIsMasking(r: Route, ip: Ip)
    requires ValidRoute(r) && ValidIp(ip)
    ensures r.net.V4? != ip.V4? ==> !Contains(r, ip)
    ensures r.net.V4? == ip.V4? ==>
      (Contains(r, ip) <==>
         And(ip.bits, Mask(Width(ip), r.prefix)) == And(r.net.bits, Mask(Width(ip), r.prefix)))
  {
    if r.net.V4? == ip.V4? {
      var width, mask := Width(ip), Mask(Width(ip), r.prefix);
      SamePrefixComparesBits(r.net.bits, ip.bits, width, r.prefix);
      if Contains(r, ip) {
        forall k: nat ensures Bit(And(ip.bits, mask), k) <==> Bit(And(r.net.bits, mask), k) {
          MaskedBit(ip.bits, width, r.prefix, k);
          MaskedBit(r.net.bits, width, r.prefix, k);
        }
        SameBitsSameNumber(And(ip.bits, mask), And(r.net.bits, mask));
      } else if And(ip.bits, mask) == And(r.net.bits, mask) {
        forall k: nat | width - r.prefix <= k < width ensures Bit(ip.bits, k) <==> Bit(r.net.bits, k) {
          MaskedBit(ip.bits, width, r.prefix, k);
          MaskedBit(r.net.bits, width, r.prefix, k);
        }
      }
    }
  }

  lemma MaskedBit(x: nat, width: nat, prefix: nat, k: nat)
    requires prefix <= width
    ensures Bit(And(x, Mask(width, prefix)), k) <==> Bit(x, k) && width - prefix <= k < width
  {
    AndBit(x, Mask(width, prefix), k);
    MaskBits(width, prefix, k);
  }

  // ---- Reading the tables ----

  function HexDigit(c: char): Option<nat> {
    if '0' <= c <= '9' then Some(c as int - '0' as int)
    else if 'a' <= c <= 'f' then Some(c as int - 'a' as int + 10)
    else if 'A' <= c <= 'F' then Some(c as int - 'A' as int + 10)
    else None
  }

  function HexDigits(s: string): Option<nat> {
    if s == "" then Some(0)
    else
      match (HexDigits(s[..|s| - 1]), HexDigit(s[|s| - 1]))
      case (Some(high), Some(low)) => Some(16 * high + low)
      case _ => None
  }

  // from_str_radix: one leading '+' is taken, an empty number and one of more than `width` bits are not.
  function Hex(field: string, width: nat): (r: Option<nat>)
    ensures r.Some? ==> r.value < Pow2(width)
  {
    var digits := if field != "" && field[0] == '+' then field[1..] else field;
    match HexDigits(digits)
    case Some(n) => if digits != "" && n < Pow2(width) then Some(n) else None
    case None => None
  }

  const RTF_UP := 0
  const RTF_GATEWAY := 1
  const RTF_REJECT := 9

  lemma Pow32()
    ensures Pow2(32) == 0x1_0000_0000
  {
    assert Pow2(4) == 16;
    assert Pow2(8) == 256;
    assert Pow2(12) == 0x1000;
    assert Pow2(16) == 0x1_0000;
    assert Pow2(20) == 0x10_0000;
    assert Pow2(24) == 0x100_0000;
    assert Pow2(28) == 0x1000_0000;
  }

  // An address in /proc/net/route is a word in the machine's own byte order.
  function NativeV4(field: string, little: bool): Option<Ip> {
    match Hex(field, 32)
    case Some(w) => Some(V4(if little then SwapBytes(w) else w))
    case None => None
  }

  function V4Route(fields: seq<string>, little: bool): Option<Route> {
    if |fields| < 8 then None
    else
      match (Hex(fields[3], 32), NativeV4(fields[1], little), Hex(fields[7], 32))
      case (Some(flags), Some(net), Some(mask)) =>
        if !Bit(flags, RTF_UP) then None
        else
          Some(Route(net, CountOnes(mask),
                     if Bit(flags, RTF_GATEWAY) then NativeV4(fields[2], little) else None,
                     Bit(flags, RTF_REJECT), fields[0]))
      case _ => None
  }

  function V6Route(fields: seq<string>): Option<Route> {
    if |fields| < 10 then None
    else
      match (Hex(fields[8], 32), Hex(fields[0], 128), Hex(fields[1], 32))
      case (Some(flags), Some(net), Some(prefix)) =>
        if !Bit(flags, RTF_UP) then None
        else
          Some(Route(V6(net), prefix,
                     if Bit(flags, RTF_GATEWAY) then
                       match Hex(fields[4], 128) case Some(g) => Some(V6(g)) case None => None
                     else None,
                     Bit(flags, RTF_REJECT), fields[9]))
      case _ => None
  }

  // What an IPv4 line gives, in terms of its fields: a route exactly when it parses and its first flag bit is set, to the
  // network whose bytes stand in the line in the machine's own order.
  lemma V4RouteReadsItsLine(fields: seq<string>, little: bool)
    ensures V4Route(fields, little).Some? <==>
              |fields| >= 8 && Hex(fields[1], 32).Some? && Hex(fields[3], 32).Some? && Hex(fields[7], 32).Some?
              && Hex(fields[3], 32).value % 2 == 1
    ensures V4Route(fields, little).Some? ==>
      var (r, flags) := (V4Route(fields, little).value, Hex(fields[3], 32).value);
      && r.device == fields[0]
      && r.net == V4(InOrder(Hex(fields[1], 32).value, little))
      && r.gateway == (if flags / 2 % 2 == 1 && Hex(fields[2], 32).Some?
                       then Some(V4(InOrder(Hex(fields[2], 32).value, little))) else None)
      && (r.reject <==> flags / 512 % 2 == 1)
      && r.prefix == CountOnes(Hex(fields[7], 32).value)
  {
    hide Hex, CountOnes, SwapBytes;
    if |fields| >= 8 && Hex(fields[3], 32).Some? {
      FlagBits(Hex(fields[3], 32).value);
    }
  }

  // A word as the machine holds it, with its bytes in network order: on a little-endian one the lowest comes first.
  function InOrder(word: nat, little: bool): (r: nat)
    requires word < Pow2(32)
    ensures forall a: nat, b: nat, c: nat, d: nat ::
              a < 256 && b < 256 && c < 256 && d < 256 && word == (if little then Word(a, b, c, d) else Word(d, c, b, a)) ==>
                r == Word(d, c, b, a)
  {
    WordsSwap();
    if little then SwapBytes(word) else word
  }

  lemma WordsSwap()
    ensures forall a: nat, b: nat, c: nat, d: nat ::
              a < 256 && b < 256 && c < 256 && d < 256 ==> SwapBytes(Word(a, b, c, d)) == Word(d, c, b, a)
  {
    forall a: nat, b: nat, c: nat, d: nat | a < 256 && b < 256 && c < 256 && d < 256
      ensures SwapBytes(Word(a, b, c, d)) == Word(d, c, b, a)
    {
      SwapBytesMovesBytes(a, b, c, d);
    }
  }

  lemma FlagBits(flags: nat)
    ensures Bit(flags, RTF_UP) <==> flags % 2 == 1
    ensures Bit(flags, RTF_GATEWAY) <==> flags / 2 % 2 == 1
    ensures Bit(flags, RTF_REJECT) <==> flags / 512 % 2 == 1
  {
    BitIs(flags, 0);
    BitIs(flags, 1);
    BitIs(flags, 9);
    assert Pow2(4) == 16;
    assert Pow2(9) == 512;
  }

  // Whatever the byte order, a line with a contiguous netmask gives that mask's length as the prefix, and covers exactly
  // the addresses that, as words of this machine, equal the line's network under the line's mask.
  lemma V4RouteMeansItsMask(fields: seq<string>, little: bool, prefix: nat, ip: nat)
    requires V4Route(fields, little).Some? && prefix <= 32 && ip < Pow2(32)
    requires InOrder(Hex(fields[7], 32).value, little) == Mask(32, prefix)
    ensures var (r, net, mask) := (V4Route(fields, little).value, Hex(fields[1], 32).value, Hex(fields[7], 32).value);
      && r.prefix == prefix && ValidRoute(r)
      && (Contains(r, V4(ip)) <==> And(if little then SwapBytes(ip) else ip, mask) == And(net, mask))
      && (Contains(r, V4(ip)) <==> And(ip, Mask(32, prefix)) == And(InOrder(net, little), Mask(32, prefix)))
  {
    hide Hex, Mask, Contains, And, SwapBytes, CountOnes;
    var (r, net, mask) := (V4Route(fields, little).value, Hex(fields[1], 32).value, Hex(fields[7], 32).value);
    Pow32();
    V4RouteReadsItsLine(fields, little);
    SwapBytesKeepsOnes(mask);
    MaskOnes(32, prefix);
    SwapBytesTwice(net);
    ContainsIsMasking(r, V4(ip));
    if little {
      SwapBytesTwice(mask);
      SwapBytesTwice(ip);
      SwappedMasking(ip, net, mask);
    }
  }

  // Masking in network order is masking in the machine's.
  lemma SwappedMasking(ip: nat, net: nat, mask: nat)
    requires ip < 0x1_0000_0000 && net < 0x1_0000_0000 && mask < 0x1_0000_0000
    ensures And(SwapBytes(ip), mask) == And(net, mask) <==> And(ip, SwapBytes(mask)) == And(SwapBytes(net), SwapBytes(mask))
  {
    hide And, SwapBytes;
    SwapBytesTwice(ip);
    SwapBytesTwice(net);
    SwapBytesTwice(mask);
    SwapBytesOfAnd(SwapBytes(ip), mask);
    SwapBytesOfAnd(net, mask);
    AndFits(SwapBytes(ip), mask);
    AndFits(net, mask);
    SwapBytesTwice(And(SwapBytes(ip), mask));
    SwapBytesTwice(And(net, mask));
  }

  lemma AndFits(x: nat, y: nat)
    requires x < 0x1_0000_0000 && y < 0x1_0000_0000
    ensures And(x, y) < 0x1_0000_0000
  {
    hide And, Pow2;
    Pow32();
    AndSplits(x, 0, y, 0, 32);
  }

  // ---- The lines the kernel prints ----

  function HexChar(d: nat, upper: bool): char
    requires d < 16
  {
    if d < 10 then '0' + d as char else if upper then 'A' + (d - 10) as char else 'a' + (d - 10) as char
  }

  // A number in so many hexadecimal digits.
  function HexText(n: nat, digits: nat, upper: bool): (s: string)
    ensures |s| == digits && '+' !in s
  {
    if digits == 0 then "" else HexText(n / 16, digits - 1, upper) + [HexChar(n % 16, upper)]
  }

  lemma {:induction false} PrintedIsRead(n: nat, digits: nat, upper: bool)
    requires n < Pow2(4 * digits)
    ensures HexDigits(HexText(n, digits, upper)) == Some(n)
    decreases digits
  {
    hide HexDigits, HexDigit, HexChar, Pow2;
    DigitsEnd(HexText(n / 16, if digits > 0 then digits - 1 else 0, upper), n % 16, upper);
    FourBitsMore(n, digits);
    if digits > 0 {
      PrintedIsRead(n / 16, digits - 1, upper);
    }
  }

  lemma FourBitsMore(n: nat, digits: nat)
    requires n < Pow2(4 * digits)
    ensures if digits == 0 then n == 0 else n / 16 < Pow2(4 * (digits - 1))
  {
    if digits > 0 {
      Pow2Adds(4, 4 * (digits - 1));
      assert Pow2(4) == 16;
      hide Pow2;
    }
  }

  lemma DigitsEnd(s: string, d: nat, upper: bool)
    requires d < 16
    ensures HexDigits("") == Some(0)
    ensures HexDigits(s + [HexChar(d, upper)]) == match HexDigits(s) case Some(high) => Some(16 * high + d) case None => None
  {
    var t := s + [HexChar(d, upper)];
    assert t[..|t| - 1] == s && HexDigit(t[|t| - 1]) == Some(d);
  }

  lemma PrintedFieldIsRead(n: nat, digits: nat, upper: bool, width: nat)
    requires n < Pow2(4 * digits) && n < Pow2(width) && digits > 0
    ensures Hex(HexText(n, digits, upper), width) == Some(n)
  {
    hide HexDigits, Pow2;
    PrintedIsRead(n, digits, upper);
    var text := HexText(n, digits, upper);
    assert text[0] in text;
  }

  // A line as the kernel prints it, addresses and mask as words of this machine, is read as just the route it stands for.
  lemma V4LineIsRead(fields: seq<string>, device: string, net: nat, gateway: nat, flags: nat, prefix: nat,
                     little: bool, upper: bool)
    requires net < Pow2(32) && gateway < Pow2(32) && flags < 0x1_0000 && prefix <= 32
    requires var native := (x: nat) requires x < Pow2(32) => HexText(InOrder(x, little), 8, upper);
      && |fields| >= 8 && fields[0] == device && fields[1] == native(net) && fields[2] == native(gateway)
      && fields[3] == HexText(flags, 4, upper) && fields[7] == native(MaskOf(prefix))
    ensures V4Route(fields, little) ==
            if flags % 2 == 0 then None
            else Some(Route(V4(net), prefix, if flags / 2 % 2 == 1 then Some(V4(gateway)) else None,
                            flags / 512 % 2 == 1, device))
  {
    hide Hex, HexText, CountOnes, SwapBytes, Mask;
    Pow32();
    Pow16();
    Fits(net, little);
    Fits(gateway, little);
    Fits(MaskOf(prefix), little);
    PrintedFieldIsRead(InOrder(net, little), 8, upper, 32);
    PrintedFieldIsRead(InOrder(gateway, little), 8, upper, 32);
    PrintedFieldIsRead(flags, 4, upper, 32);
    PrintedFieldIsRead(InOrder(MaskOf(prefix), little), 8, upper, 32);
    SwapBytesKeepsOnes(MaskOf(prefix));
    MaskOnes(32, prefix);
    V4RouteReadsItsLine(fields, little);
  }

  // The netmask of a prefix.
  function MaskOf(prefix: nat): (r: nat)
    requires prefix <= 32
    ensures r < Pow2(32)
  {
    MaskFits(prefix);
    Mask(32, prefix)
  }

  lemma MaskFits(prefix: nat)
    requires prefix <= 32
    ensures Mask(32, prefix) < Pow2(32)
  {
    hide Pow2;
    Pow2Adds(prefix, 32 - prefix);
    assert Ones(prefix) * Pow2(32 - prefix) == Pow2(prefix) * Pow2(32 - prefix) - Pow2(32 - prefix);
  }

  lemma Fits(x: nat, little: bool)
    requires x < Pow2(32)
    ensures InOrder(x, little) < Pow2(32) && InOrder(InOrder(x, little), little) == x
  {
    hide SwapBytes, Pow2;
    Pow32();
    SwapBytesTwice(x);
  }

  lemma Pow16()
    ensures Pow2(16) == 0x1_0000
  {
    assert Pow2(8) == 256;
    assert Pow2(12) == 0x1000;
  }

  lemma V6LineIsRead(fields: seq<string>, device: string, net: nat, gateway: nat, flags: nat, prefix: nat, upper: bool)
    requires net < Pow2(128) && gateway < Pow2(128) && flags < Pow2(32) && prefix <= 128
    requires |fields| >= 10 && fields[9] == device && fields[0] == HexText(net, 32, upper)
    requires fields[1] == HexText(prefix, 2, upper) && fields[4] == HexText(gateway, 32, upper)
    requires fields[8] == HexText(flags, 8, upper)
    ensures V6Route(fields) ==
            if flags % 2 == 0 then None
            else Some(Route(V6(net), prefix, if flags / 2 % 2 == 1 then Some(V6(gateway)) else None,
                            flags / 512 % 2 == 1, device))
  {
    hide Hex, HexText, Pow2;
    Pow256();
    Pow32();
    PrintedFieldIsRead(net, 32, upper, 128);
    PrintedFieldIsRead(gateway, 32, upper, 128);
    PrintedFieldIsRead(prefix, 2, upper, 32);
    PrintedFieldIsRead(flags, 8, upper, 32);
    FlagBits(flags);
  }

  // ---- The decision ----

  predicate OnLink(r: Route) {
    r.gateway.None? && !r.reject && r.prefix > 0 && r.device != "lo"
  }

  // Whether a packet to the address goes to one host: not the unspecified, the broadcast or a multicast address.
  predicate IsUnicast(ip: Ip) {
    match ip
    case V4(bits) => bits != 0 && bits != 0xffff_ffff && bits / 0x1000_0000 != 0xe
    case V6(bits) => bits != 0 && Shr(bits, 120) != 0xff
  }

  function Matching(table: seq<Route>, ip: Ip): (r: seq<Route>)
    requires ValidTable(table)
    ensures forall q :: q in r <==> q in table && ValidRoute(q) && Contains(q, ip)
  {
    if table == [] then []
    else
      (if Contains(table[0], ip) then [table[0]] else []) + Matching(table[1..], ip)
  }

  function Longest(routes: seq<Route>): (r: nat)
    requires routes != []
    ensures exists i :: 0 <= i < |routes| && routes[i].prefix == r
    ensures forall i :: 0 <= i < |routes| ==> routes[i].prefix <= r
  {
    if |routes| == 1 then routes[0].prefix
    else
      var rest := Longest(routes[1..]);
      if routes[0].prefix > rest then routes[0].prefix else rest
  }

  function WithPrefix(routes: seq<Route>, prefix: nat): (r: seq<Route>)
    ensures forall q :: q in r <==> q in routes && q.prefix == prefix
  {
    if routes == [] then []
    else
      (if routes[0].prefix == prefix then [routes[0]] else []) + WithPrefix(routes[1..], prefix)
  }

  function Best(table: seq<Route>, ip: Ip): seq<Route>
    requires ValidTable(table)
  {
    var matching := Matching(table, ip);
    if matching == [] then [] else WithPrefix(matching, Longest(matching))
  }

  function Egress(table: seq<Route>, ip: Ip): Option<string>
    requires ValidTable(table)
  {
    if !IsUnicast(ip) then None
    else
      var best := Best(table, ip);
      if best != [] && (forall i :: 0 <= i < |best| ==> OnLink(best[i])) then Some(best[0].device) else None
  }

  // A route the kernel may pick: it covers the address and no route that does is more specific.
  predicate MayBePicked(table: seq<Route>, ip: Ip, r: Route)
    requires ValidTable(table)
  {
    r in table && ValidRoute(r) && Contains(r, ip) &&
    forall i :: 0 <= i < |table| && Contains(table[i], ip) ==> table[i].prefix <= r.prefix
  }

  lemma BestIsWhatMayBePicked(table: seq<Route>, ip: Ip, r: Route)
    requires ValidTable(table)
    ensures r in Best(table, ip) <==> MayBePicked(table, ip, r)
  {
    var matching := Matching(table, ip);
    if matching != [] {
      var longest := Longest(matching);
      if r in Best(table, ip) {
        forall i | 0 <= i < |table| && Contains(table[i], ip) ensures table[i].prefix <= r.prefix {
          assert table[i] in matching;
        }
      }
      if MayBePicked(table, ip, r) {
        var i :| 0 <= i < |matching| && matching[i].prefix == longest;
        assert matching[i] in matching;
        assert r in matching;
      }
    } else {
      assert r in table && ValidRoute(r) && Contains(r, ip) ==> r in matching;
    }
  }

  // Which addresses go to one host, range by range.
  lemma UnicastInPlainTerms(ip: Ip)
    requires ValidIp(ip)
    ensures ip.V4? ==>
      (IsUnicast(ip) <==> ip.bits != 0 && ip.bits != 0xffff_ffff && !(0xe000_0000 <= ip.bits <= 0xefff_ffff))
    ensures ip.V6? ==>
      (IsUnicast(ip) <==> ip.bits != 0 && ip.bits < 0xff00_0000_0000_0000_0000_0000_0000_0000)
  {
    hide Pow2, Shr;
    if ip.V6? {
      Pow120();
      var (q, r) := (ip.bits / Pow2(120), ip.bits % Pow2(120));
      ShrIs(q, r, 120);
      assert ip.bits == r + Pow2(120) * q;
      assert Pow2(128) == 256 * Pow2(120);
    } else {
      Pow32();
    }
  }

  lemma Pow120()
    ensures Pow2(120) == 0x1_0000_0000_0000_0000_0000_0000_0000_00
    ensures Pow2(128) == 0x1_0000_0000_0000_0000_0000_0000_0000_0000
  {
    Pow32();
    assert Pow2(24) == 0x100_0000 by {
      Pow16();
      Pow2Adds(16, 8);
      Pow256();
    }
    hide Pow2;
    Pow2Adds(32, 32);
    Pow2Adds(64, 32);
    Pow2Adds(96, 24);
    Pow2Adds(96, 32);
  }

  // An address is let out exactly when it is unicast, some route covers it, and every route the kernel may pick has no
  // gateway, rejects nothing, and is neither the loopback's nor a default one. The device is one of those routes'.
  lemma EgressRefinesTheKernel(table: seq<Route>, ip: Ip)
    requires ValidTable(table)
    ensures Egress(table, ip).Some? <==>
            IsUnicast(ip)
            && (exists i :: 0 <= i < |table| && Contains(table[i], ip))
            && (forall r :: MayBePicked(table, ip, r) ==>
                  r.gateway.None? && !r.reject && r.prefix > 0 && r.device != "lo")
    ensures Egress(table, ip).Some? ==>
            exists r :: MayBePicked(table, ip, r) && r.device == Egress(table, ip).value
  {
    hide Best, MayBePicked, Contains;
    var best := Best(table, ip);
    forall r ensures r in best <==> MayBePicked(table, ip, r) {
      BestIsWhatMayBePicked(table, ip, r);
    }
    SomethingIsBest(table, ip);
    assert (forall i :: 0 <= i < |best| ==> OnLink(best[i])) <==> (forall r :: r in best ==> OnLink(r));
    if best != [] {
      assert best[0] in best;
    }
  }

  // So no packet leaves for the unspecified, the broadcast or a multicast address, and one that leaves does so on the
  // device of a route as specific as any, which is no default route, no gateway's and not the loopback's.
  lemma EgressInPlainTerms(table: seq<Route>, ip: Ip)
    requires ValidTable(table) && ValidIp(ip)
    ensures ip.V4? && (ip.bits == 0 || ip.bits == 0xffff_ffff || 0xe000_0000 <= ip.bits <= 0xefff_ffff) ==>
              Egress(table, ip).None?
    ensures ip.V6? && (ip.bits == 0 || ip.bits >= 0xff00_0000_0000_0000_0000_0000_0000_0000) ==>
              Egress(table, ip).None?
    ensures Egress(table, ip).Some? ==>
      exists i :: 0 <= i < |table| && Contains(table[i], ip) && table[i].device == Egress(table, ip).value
                  && table[i].device != "lo" && table[i].prefix > 0 && table[i].gateway.None? && !table[i].reject
                  && (forall j :: 0 <= j < |table| && Contains(table[j], ip) ==> table[j].prefix <= table[i].prefix)
                  && (forall j :: 0 <= j < i && Contains(table[j], ip) ==> table[j].prefix < table[i].prefix)
  {
    hide Contains, IsUnicast, Longest, MayBePicked;
    UnicastInPlainTerms(ip);
    if Egress(table, ip).Some? {
      var matching := Matching(table, ip);
      var i := FirstPicked(table, ip, Longest(matching));
      assert Best(table, ip)[0] == table[i];
      forall j | 0 <= j < |table| && Contains(table[j], ip) ensures table[j].prefix <= table[i].prefix {
        assert table[j] in matching;
      }
    }
  }

  // Sorting out keeps the order of the table.
  lemma {:induction false} FirstPicked(table: seq<Route>, ip: Ip, prefix: nat) returns (i: nat)
    requires ValidTable(table) && WithPrefix(Matching(table, ip), prefix) != []
    ensures i < |table| && table[i] == WithPrefix(Matching(table, ip), prefix)[0]
    ensures Contains(table[i], ip) && table[i].prefix == prefix
    ensures forall j :: 0 <= j < i && Contains(table[j], ip) ==> table[j].prefix != prefix
  {
    hide Contains, ValidRoute, Matching, WithPrefix;
    PickedStep(table, ip, prefix);
    if table != [] && !(Contains(table[0], ip) && table[0].prefix == prefix) {
      i := FirstPicked(table[1..], ip, prefix);
      i := i + 1;
    } else {
      i := 0;
    }
  }

  lemma PickedStep(table: seq<Route>, ip: Ip, prefix: nat)
    requires ValidTable(table)
    ensures WithPrefix(Matching(table, ip), prefix) ==
            if table == [] then []
            else (if Contains(table[0], ip) && table[0].prefix == prefix then [table[0]] else [])
                 + WithPrefix(Matching(table[1..], ip), prefix)
  {
    hide Contains, ValidRoute;
    if table != [] {
      var (first, rest) := ([table[0]], Matching(table[1..], ip));
      assert Matching(table, ip) == if Contains(table[0], ip) then first + rest else rest;
      assert first[1..] == [] && WithPrefix(first[1..], prefix) == [];
      assert WithPrefix(first, prefix) == if table[0].prefix == prefix then first else [];
      WithPrefixSplits(first, rest, prefix);
    }
  }

  // Something may be picked exactly when something covers the address.
  lemma SomethingIsBest(table: seq<Route>, ip: Ip)
    requires ValidTable(table)
    ensures Best(table, ip) != [] <==> exists i :: 0 <= i < |table| && Contains(table[i], ip)
  {
    var matching := Matching(table, ip);
    if matching != [] {
      assert matching[0] in matching;
      var i :| 0 <= i < |table| && table[i] == matching[0];
      var j :| 0 <= j < |matching| && matching[j].prefix == Longest(matching);
      assert matching[j] in Best(table, ip);
    } else {
      assert forall i :: 0 <= i < |table| && Contains(table[i], ip) ==> table[i] in matching;
    }
  }

  // The verdict depends on which routes there are, not on the order the table lists them in.
  lemma OrderDoesNotMatter(table: seq<Route>, other: seq<Route>, ip: Ip)
    requires ValidTable(table) && ValidTable(other)
    requires forall r :: r in table <==> r in other
    ensures Egress(table, ip).Some? <==> Egress(other, ip).Some?
  {
    EgressRefinesTheKernel(table, ip);
    EgressRefinesTheKernel(other, ip);
    SameChoices(table, other, ip);
    SameChoices(other, table, ip);
  }

  lemma SameChoices(table: seq<Route>, other: seq<Route>, ip: Ip)
    requires ValidTable(table) && ValidTable(other)
    requires forall r :: r in table <==> r in other
    ensures forall r :: MayBePicked(table, ip, r) ==> MayBePicked(other, ip, r)
    ensures (exists i :: 0 <= i < |table| && Contains(table[i], ip)) ==>
            exists i :: 0 <= i < |other| && Contains(other[i], ip)
  {
    forall r | MayBePicked(table, ip, r) ensures MayBePicked(other, ip, r) {
      forall i | 0 <= i < |other| && Contains(other[i], ip) ensures other[i].prefix <= r.prefix {
        assert other[i] in table;
      }
    }
    if i :| 0 <= i < |table| && Contains(table[i], ip) {
      assert table[i] in other;
      var j :| 0 <= j < |other| && other[j] == table[i];
    }
  }

  // A line whose flags name a gateway or a rejection never gives an on-link route, so long as its gateway field is
  // a number. One that is not is read as no gateway at all, and exactly then can such a line look on-link.
  lemma FlagsAreSeen(fields: seq<string>, little: bool)
    requires V4Route(fields, little).Some?
    ensures var flags, r := Hex(fields[3], 32).value, V4Route(fields, little).value;
      && (Bit(flags, RTF_REJECT) ==> !OnLink(r))
      && (Bit(flags, RTF_GATEWAY) ==>
            (OnLink(r) <==> Hex(fields[2], 32).None? && OnLink(r.(gateway := None))))
  {
  }

  // A line of the IPv6 table says its prefix length outright; the rest is as above.
  lemma V6RouteMeansItsPrefix(fields: seq<string>, ip: nat)
    requires V6Route(fields).Some? && ValidRoute(V6Route(fields).value) && ip < Pow2(128)
    ensures var (r, flags) := (V6Route(fields).value, Hex(fields[8], 32).value);
      && r.prefix == Hex(fields[1], 32).value <= 128
      && (Contains(r, V6(ip)) <==>
            And(ip, Mask(128, r.prefix)) == And(Hex(fields[0], 128).value, Mask(128, r.prefix)))
      && (Bit(flags, RTF_REJECT) ==> !OnLink(r))
      && (Bit(flags, RTF_GATEWAY) ==>
            (OnLink(r) <==> Hex(fields[4], 128).None? && OnLink(r.(gateway := None))))
  {
    hide Pow2, Hex, Bit, And, Mask, Contains;
    ContainsIsMasking(V6Route(fields).value, V6(ip));
  }

  // ---- Less specific routes ----

  lemma {:induction false} MatchingSplits(a: seq<Route>, b: seq<Route>, ip: Ip)
    requires ValidTable(a) && ValidTable(b) && ValidTable(a + b)
    ensures Matching(a + b, ip) == Matching(a, ip) + Matching(b, ip)
  {
    hide Contains, ValidRoute;
    if a == [] {
      assert a + b == b;
    } else {
      assert (a + b)[1..] == a[1..] + b;
      MatchingSplits(a[1..], b, ip);
    }
  }

  lemma {:induction false} WithPrefixSplits(a: seq<Route>, b: seq<Route>, prefix: nat)
    ensures WithPrefix(a + b, prefix) == WithPrefix(a, prefix) + WithPrefix(b, prefix)
  {
    if a == [] {
      assert a + b == b;
    } else {
      assert (a + b)[1..] == a[1..] + b;
      WithPrefixSplits(a[1..], b, prefix);
    }
  }

  lemma LongestIsUnique(a: seq<Route>, b: seq<Route>)
    requires a != [] && b != []
    requires forall q :: q in a ==> q in b
    requires forall q :: q in b ==> q in a || exists p :: p in a && p.prefix > q.prefix
    ensures Longest(a) == Longest(b)
  {
    var i :| 0 <= i < |a| && a[i].prefix == Longest(a);
    assert a[i] in b;
    var j :| 0 <= j < |b| && b[j].prefix == Longest(b);
    assert b[j] in b;
  }

  lemma MatchingOne(r: Route, ip: Ip)
    requires ValidRoute(r)
    ensures Matching([r], ip) == if Contains(r, ip) then [r] else []
  {
    hide Contains;
    assert [r][1..] == [] && Matching([r][1..], ip) == [];
  }

  lemma MatchingInserted(a: seq<Route>, r: Route, b: seq<Route>, ip: Ip)
    requires ValidTable(a) && ValidTable(b) && ValidRoute(r) && ValidTable(a + [r] + b)
    ensures Matching(a + [r] + b, ip) == Matching(a, ip) + (if Contains(r, ip) then [r] else []) + Matching(b, ip)
  {
    hide Contains, ValidRoute;
    assert ValidTable([r]) && ValidTable(a + [r]);
    MatchingOne(r, ip);
    MatchingSplits(a, [r], ip);
    MatchingSplits(a + [r], b, ip);
  }

  lemma WithPrefixInserted(a: seq<Route>, r: Route, b: seq<Route>, prefix: nat)
    requires r.prefix != prefix
    ensures WithPrefix(a + [r] + b, prefix) == WithPrefix(a + b, prefix)
  {
    assert [r][1..] == [] && WithPrefix([r], prefix) == [];
    WithPrefixSplits(a, b, prefix);
    WithPrefixSplits(a, [r], prefix);
    WithPrefixSplits(a + [r], b, prefix);
    assert WithPrefix(a, prefix) + [] == WithPrefix(a, prefix);
  }

  lemma BestInserted(a: seq<Route>, r: Route, b: seq<Route>, ip: Ip)
    requires ValidTable(a) && ValidTable(b) && ValidRoute(r) && ValidTable(a + b) && ValidTable(a + [r] + b)
    requires Contains(r, ip) ==> exists q :: q in a + b && ValidRoute(q) && Contains(q, ip) && q.prefix > r.prefix
    ensures Best(a + [r] + b, ip) == Best(a + b, ip)
  {
    hide Contains, ValidRoute;
    MatchingSplits(a, b, ip);
    MatchingInserted(a, r, b, ip);
    var x, y := Matching(a, ip), Matching(b, ip);
    if Contains(r, ip) {
      var q :| q in a + b && ValidRoute(q) && Contains(q, ip) && q.prefix > r.prefix;
      assert q in x + y;
      LongestIsUnique(x + y, x + [r] + y);
      WithPrefixInserted(x, r, y, Longest(x + y));
    } else {
      assert x + [] + y == x + y;
    }
  }

  // Adding, anywhere, a route that does not cover the address or is less specific than one that does changes nothing.
  lemma LessSpecificChangesNothing(table: seq<Route>, at: nat, r: Route, ip: Ip)
    requires ValidTable(table) && ValidRoute(r) && at <= |table|
    requires Contains(r, ip) ==> exists i :: 0 <= i < |table| && Contains(table[i], ip) && table[i].prefix > r.prefix
    ensures ValidTable(table[..at] + [r] + table[at..])
    ensures Egress(table[..at] + [r] + table[at..], ip) == Egress(table, ip)
  {
    hide Contains, Best;
    var a, b := table[..at], table[at..];
    assert table == a + b;
    if Contains(r, ip) {
      var i :| 0 <= i < |table| && Contains(table[i], ip) && table[i].prefix > r.prefix;
      assert table[i] in a + b;
    }
    BestInserted(a, r, b, ip);
  }
}
