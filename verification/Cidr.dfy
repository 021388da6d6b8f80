/** Network matching: StringUtil::matchIPToCIDR and CephExecutor::getPublicNetworkIP. */
module Cidr {
  import opened Text

  /** The comparison loop from position `i` on; None is a read past the end of a token list. */
  function CompareFrom(ip: seq<string>, subnet: seq<string>, i: nat, n: int): Option<bool>
    decreases n - i
  {
    if i >= n then Some(true)
    else if i >= |ip| || i >= |subnet| then None
    else if ip[i] != subnet[i] then Some(false)
    else CompareFrom(ip, subnet, i + 1, n)
  }

  /** matchIPToCIDR; None is a missing token or a mask length that is not an integer. */
  function Match(ip: string, cidr: string): Option<bool> {
    var parts := Explode(cidr, '/');
    if |parts| < 2 then None
    else
      match ParseInt(parts[1])
      case None => None
      case Some(len) => CompareFrom(Explode(ip, '.'), Explode(parts[0], '.'), 0, Quotient(len, 8))
  }

  method MatchIPToCIDR(ip: string, cidr: string) returns (r: Option<bool>)
    ensures r == Match(ip, cidr)
  {
    var ipTokens := ExplodeText(ip, '.');
    var parts := ExplodeText(cidr, '/');
    if |parts| < 2 {
      return None;
    }
    var subnetTokens := ExplodeText(parts[0], '.');
    var netmaskLength := ParseInt(parts[1]);
    if netmaskLength == None {
      return None;
    }
    var n := Quotient(netmaskLength.value, 8);
    var i := 0;
    while i < n
      invariant 0 <= i
      invariant CompareFrom(ipTokens, subnetTokens, i, n) == Match(ip, cidr)
      decreases n - i
    {
      if i >= |ipTokens| || i >= |subnetTokens| {
        return None;
      }
      if ipTokens[i] != subnetTokens[i] {
        return Some(false);
      }
      i := i + 1;
    }
    r := Some(true);
  }

  /** getPublicNetworkIP: the first address that matches, else what `hostname -i` printed.
      None is an address or network that matchIPToCIDR cannot compare, met before any match. */
  method GetPublicNetworkIP(ips: string, cidr: string, hostnameOutput: string) returns (r: Option<string>)
    ensures var tokens := Explode(ips, ' ');
            match r
            case Some(ip) =>
              (exists i :: 0 <= i < |tokens| && ip == tokens[i] && Match(tokens[i], cidr) == Some(true)
                && forall j :: 0 <= j < i ==> Match(tokens[j], cidr) == Some(false))
              || (ip == hostnameOutput && forall j :: 0 <= j < |tokens| ==> Match(tokens[j], cidr) == Some(false))
            case None =>
              exists i :: 0 <= i < |tokens| && Match(tokens[i], cidr) == None
                && forall j :: 0 <= j < i ==> Match(tokens[j], cidr) == Some(false)
  {
    var tokens := ExplodeText(ips, ' ');
    for i := 0 to |tokens|
      invariant forall j :: 0 <= j < i ==> Match(tokens[j], cidr) == Some(false)
    {
      var m := MatchIPToCIDR(tokens[i], cidr);
      if m == None {
        return None;
      }
      if m.value {
        return Some(tokens[i]);
      }
    }
    r := Some(hostnameOutput);
  }

  // ---------------------------------------------------------------- addresses

  type Address = n: nat | n < 0x1_0000_0000

  function Octet(n: Address, i: nat): (r: nat)
    requires i < 4
    ensures r < 256
  {
    if i == 0 then n / 0x100_0000
    else if i == 1 then n / 0x1_0000 % 256
    else if i == 2 then n / 256 % 256
    else n % 256
  }

  /** The canonical dotted quad. */
  function QuadText(n: Address): string {
    IntText(Octet(n, 0)) + "." + (IntText(Octet(n, 1)) + "." + (IntText(Octet(n, 2)) + "." + IntText(Octet(n, 3))))
  }

  function CidrText(net: Address, len: nat): string {
    QuadText(net) + "/" + IntText(len)
  }

  /** The right shift of `n` by `k` bits. */
  function Shifted(n: nat, k: nat): nat {
    if k == 0 then n else Shifted(n / 2, k - 1)
  }

  /** Section 3.1 of RFC 4632: the leading `len` bits are those of the network. */
  predicate InPrefix(ip: Address, net: Address, len: nat)
    requires len <= 32
  {
    Shifted(ip, 32 - len) == Shifted(net, 32 - len)
  }

  lemma Freeness(n: Address, d: char)
    requires !IsDigit(d) && d != '-' && d != '.'
    ensures d !in QuadText(n)
  {
    forall i | 0 <= i < 4 ensures d !in IntText(Octet(n, i)) { DigitsFree(Octet(n, i), d); }
  }

  lemma ExplodeQuad(n: Address)
    ensures Explode(QuadText(n), '.') ==
            [IntText(Octet(n, 0)), IntText(Octet(n, 1)), IntText(Octet(n, 2)), IntText(Octet(n, 3))]
  {
    DigitsFree(Octet(n, 0), '.');
    DigitsFree(Octet(n, 1), '.');
    DigitsFree(Octet(n, 2), '.');
    DigitsFree(Octet(n, 3), '.');
    ExplodeFour(IntText(Octet(n, 0)), IntText(Octet(n, 1)), IntText(Octet(n, 2)), IntText(Octet(n, 3)), '.');
  }

  predicate SameOctets(ip: Address, net: Address, k: nat)
    requires k <= 4
  {
    forall i :: 0 <= i < k ==> Octet(ip, i) == Octet(net, i)
  }

  /** On canonical texts the loop compares whole octets. */
  lemma MatchComparesOctets(ip: Address, net: Address, len: nat)
    requires len <= 32
    ensures Match(QuadText(ip), CidrText(net, len)) == Some(SameOctets(ip, net, len / 8))
  {
    Freeness(net, '/');
    DigitsFree(len, '/');
    ExplodeTwo(QuadText(net), '/', IntText(len));
    assert Explode(CidrText(net, len), '/') == [QuadText(net), IntText(len)];
    IntTextRoundTrip(len);
    ExplodeQuad(ip);
    ExplodeQuad(net);
    CompareOctets(ip, net, 0, len / 8);
  }

  lemma {:induction false} CompareOctets(ip: Address, net: Address, i: nat, k: nat)
    requires i <= k <= 4 && SameOctets(ip, net, i)
    ensures CompareFrom(Explode(QuadText(ip), '.'), Explode(QuadText(net), '.'), i, k) == Some(SameOctets(ip, net, k))
    decreases k - i
  {
    ExplodeQuad(ip);
    ExplodeQuad(net);
    if i < k {
      if Octet(ip, i) == Octet(net, i) {
        CompareOctets(ip, net, i + 1, k);
      } else if IntText(Octet(ip, i)) == IntText(Octet(net, i)) {
        IntTextInjective(Octet(ip, i), Octet(net, i));
      }
    }
  }

  lemma {:induction false} ShiftTwice(n: nat, a: nat, b: nat)
    ensures Shifted(n, a + b) == Shifted(Shifted(n, a), b)
  {
    if a > 0 {
      ShiftTwice(n / 2, a - 1, b);
    }
  }

  lemma ShiftOctet(n: nat)
    ensures Shifted(n, 8) == n / 256
  {
    ShiftTwoBits(n);
    ShiftTwoBits(n / 4);
    ShiftTwoBits(n / 16);
    ShiftTwoBits(n / 64);
    ShiftTwice(n, 2, 6);
    ShiftTwice(n / 4, 2, 4);
    ShiftTwice(n / 16, 2, 2);
  }

  lemma ShiftTwoBits(n: nat)
    ensures Shifted(n, 2) == n / 4
  {
    assert Shifted(n, 2) == Shifted(n / 2, 1) == n / 2 / 2;
  }

  lemma OctetParts(n: Address)
    ensures n == 256 * (n / 256) + Octet(n, 3)
    ensures n / 256 == 256 * (n / 0x1_0000) + Octet(n, 2)
    ensures n / 0x1_0000 == 256 * Octet(n, 0) + Octet(n, 1)
  {
  }

  lemma ShiftsDivide(n: nat)
    ensures Shifted(n, 8) == n / 256
    ensures Shifted(n, 16) == n / 256 / 256
    ensures Shifted(n, 24) == n / 256 / 256 / 256
    ensures Shifted(n, 32) == n / 256 / 256 / 256 / 256
  {
    ShiftOctet(n);
    ShiftTwice(n, 8, 8);
    ShiftOctet(n / 256);
    ShiftTwice(n, 16, 8);
    ShiftOctet(n / 256 / 256);
    ShiftTwice(n, 24, 8);
    ShiftOctet(n / 256 / 256 / 256);
  }

  lemma Divisions(n: Address)
    ensures n / 256 / 256 == n / 0x1_0000
    ensures n / 256 / 256 / 256 == Octet(n, 0)
    ensures n / 256 / 256 / 256 / 256 == 0
  {
  }

  lemma ShiftOctets(n: Address)
    ensures Shifted(n, 0) == 256 * Shifted(n, 8) + Octet(n, 3)
    ensures Shifted(n, 8) == 256 * Shifted(n, 16) + Octet(n, 2)
    ensures Shifted(n, 16) == 256 * Shifted(n, 24) + Octet(n, 1)
    ensures Shifted(n, 24) == Octet(n, 0)
    ensures Shifted(n, 32) == 0
  {
    ShiftsDivide(n);
    Divisions(n);
    OctetParts(n);
  }

  lemma FewerOctets(ip: Address, net: Address, k: nat)
    requires k < 4
    ensures SameOctets(ip, net, k + 1) <==> SameOctets(ip, net, k) && Octet(ip, k) == Octet(net, k)
  {
  }

  /** A prefix longer by one octet is the prefix and that octet. */
  lemma NextOctet(n: Address, k: nat)
    requires k < 4
    ensures Shifted(n, 24 - 8 * k) == 256 * Shifted(n, 32 - 8 * k) + Octet(n, k)
  {
    ShiftOctets(n);
  }

  lemma {:induction false} OctetsArePrefix(ip: Address, net: Address, k: nat)
    requires k <= 4
    ensures SameOctets(ip, net, k) <==> InPrefix(ip, net, 8 * k)
  {
    if k == 0 {
      ShiftOctets(ip);
      ShiftOctets(net);
    } else {
      OctetsArePrefix(ip, net, k - 1);
      FewerOctets(ip, net, k - 1);
      NextOctet(ip, k - 1);
      NextOctet(net, k - 1);
    }
  }

  /** Equal prefixes stay equal when shortened. */
  lemma ShorterPrefix(ip: Address, net: Address, len: nat, cut: nat)
    requires cut <= len <= 32 && InPrefix(ip, net, len)
    ensures InPrefix(ip, net, len - cut)
  {
    ShiftTwice(ip, 32 - len, cut);
    ShiftTwice(net, 32 - len, cut);
  }

  /** What matchIPToCIDR decides: membership in the prefix shortened to whole octets. */
  lemma MatchIsOctetPrefix(ip: Address, net: Address, len: nat)
    requires len <= 32
    ensures Match(QuadText(ip), CidrText(net, len)) == Some(InPrefix(ip, net, 8 * (len / 8)))
  {
    MatchComparesOctets(ip, net, len);
    OctetsArePrefix(ip, net, len / 8);
  }

  lemma WholeOctets(len: nat)
    ensures len - len % 8 == 8 * (len / 8)
  {
  }

  /** A member of the network is never rejected. */
  lemma MembersMatch(ip: Address, net: Address, len: nat)
    requires len <= 32 && InPrefix(ip, net, len)
    ensures Match(QuadText(ip), CidrText(net, len)) == Some(true)
  {
    hide Match, Shifted, QuadText, CidrText;
    MatchIsOctetPrefix(ip, net, len);
    WholeOctets(len);
    ShorterPrefix(ip, net, len, len % 8);
  }

  /** `n` with bit `k` inverted. */
  function Flipped(n: nat, k: nat): nat {
    if k > 0 then 2 * Flipped(n / 2, k - 1) + n % 2
    else if n % 2 == 0 then n + 1 else n - 1
  }

  lemma {:induction false} FlippedBit(n: nat, k: nat)
    ensures Shifted(Flipped(n, k), k) != Shifted(n, k)
    ensures Shifted(Flipped(n, k), k + 1) == Shifted(n, k + 1)
  {
    if k > 0 {
      FlippedBit(n / 2, k - 1);
      assert Flipped(n, k) / 2 == Flipped(n / 2, k - 1);
    }
  }

  lemma ShiftedOut(n: nat)
    requires Shifted(n, 32) == 0
    ensures n < 0x1_0000_0000
  {
    ShiftsDivide(n);
  }

  /** Inverting the last bit of a `len`-bit prefix leaves the network but not its whole octets. */
  lemma FlippedIsOutside(net: Address, len: nat)
    requires 0 < len <= 32 && len % 8 != 0
    ensures var ip := Flipped(net, 32 - len);
            ip < 0x1_0000_0000 && !InPrefix(ip, net, len) && InPrefix(ip, net, 8 * (len / 8))
  {
    hide Shifted, Flipped;
    var ip := Flipped(net, 32 - len);
    FlippedBit(net, 32 - len);
    ShiftOctets(net);
    ShiftTwice(ip, 33 - len, len - 1);
    ShiftTwice(net, 33 - len, len - 1);
    ShiftedOut(ip);
    ShorterPrefix(ip, net, len - 1, len % 8 - 1);
    assert len - 1 - (len % 8 - 1) == 8 * (len / 8);
  }

  /** The match is prefix membership for every address exactly when the mask is a whole number of octets. */
  lemma MatchIsMembershipIffWholeOctets(net: Address, len: nat)
    requires len <= 32
    ensures (forall ip: Address :: Match(QuadText(ip), CidrText(net, len)) == Some(InPrefix(ip, net, len)))
            <==> len % 8 == 0
  {
    hide Match, QuadText, CidrText, InPrefix;
    if len % 8 == 0 {
      forall ip: Address ensures Match(QuadText(ip), CidrText(net, len)) == Some(InPrefix(ip, net, len)) {
        MatchIsOctetPrefix(ip, net, len);
      }
    } else {
      FlippedIsOutside(net, len);
      var ip: Address := Flipped(net, 32 - len);
      MatchIsOctetPrefix(ip, net, len);
      assert Match(QuadText(ip), CidrText(net, len)) != Some(InPrefix(ip, net, len));
    }
  }
}
