/** Address helpers: the IPv4-mapped prefix of section 2.5.5.2 of RFC 4291,
    MAC normalisation, and the filter that keeps only unicast device
    addresses (the IEEE 802 group bit, the multicast range of section 4 of
    RFC 1112, the loopback network of section 3.2.1.3 of RFC 1122). */
module Address {
  import opened Values
  import opened Text

  /** The prefix of an IPv4-mapped IPv6 address. */
  const MappedPrefix: string := "::ffff:"

  /** `normalizeIp`: strips one IPv4-mapped prefix, so that a client reached
      over IPv6 is keyed by its plain IPv4 address. */
  function NormalizeIp(ip: string): (r: string)
    ensures StartsWith(ip, MappedPrefix) ==> ip == MappedPrefix + r
    ensures !StartsWith(ip, MappedPrefix) ==> r == ip
  {
    if ip == "" then ""
    else if StartsWith(ip, MappedPrefix) then ip[|MappedPrefix|..]
    else ip
  }

  /** `normalizeMac`: lower case, then every '-' turned into ':'. */
  function NormalizeMac(mac: string): (r: string)
    ensures |r| == |mac|
  {
    if mac == "" then "" else ReplaceAll(Lower(mac), '-', ':')
  }

  /** The two passes combine position by position: the normalised MAC is as
      long as the input and holds ':' where the input had '-' and the
      lower-cased character everywhere else. */
  lemma NormalizeMacPositions(mac: string)
    ensures |NormalizeMac(mac)| == |mac|
    ensures forall i :: 0 <= i < |mac| ==>
      NormalizeMac(mac)[i] == (if mac[i] == '-' then ':' else LowerChar(mac[i]))
  {
    if mac != "" {
      var l := Lower(mac);
      forall i | 0 <= i < |mac|
        ensures NormalizeMac(mac)[i] == (if mac[i] == '-' then ':' else LowerChar(mac[i]))
      {
        assert l[i] == LowerChar(mac[i]);
        assert l[i] == '-' <==> mac[i] == '-';
      }
    }
  }

  /** A normalised MAC holds no '-' and no upper-case letter, so normalising
      it again changes nothing. */
  lemma NormalizeMacIdempotent(mac: string)
    ensures '-' !in NormalizeMac(mac)
    ensures forall i :: 0 <= i < |NormalizeMac(mac)| ==> !('A' <= NormalizeMac(mac)[i] <= 'Z')
    ensures NormalizeMac(NormalizeMac(mac)) == NormalizeMac(mac)
  {
    var n := NormalizeMac(mac);
    NormalizeMacPositions(mac);
    if mac != "" {
      forall i | 0 <= i < |n| ensures n[i] != '-' && !('A' <= n[i] <= 'Z') {
      }
      NormalizeMacPositions(n);
      assert NormalizeMac(n) == n;
    }
  }

  function HexValue(c: char): nat
    requires IsHexDigit(c)
    ensures HexValue(c) < 16
  {
    if '0' <= c <= '9' then c as int - '0' as int
    else if 'a' <= c <= 'f' then c as int - 'a' as int + 10
    else c as int - 'A' as int + 10
  }

  /** Length of the run of hexadecimal digits at the start of `s`. */
  function HexRun(s: string): (n: nat)
    ensures n <= |s|
    ensures forall i :: 0 <= i < n ==> IsHexDigit(s[i])
    ensures n < |s| ==> !IsHexDigit(s[n])
  {
    if s != [] && IsHexDigit(s[0]) then 1 + HexRun(s[1..]) else 0
  }

  function HexDigitsValue(s: string): nat
    requires forall i :: 0 <= i < |s| ==> IsHexDigit(s[i])
  {
    if s == [] then 0 else HexDigitsValue(s[..|s| - 1]) * 16 + HexValue(s[|s| - 1])
  }

  /** `parseInt(s, 16)`: leading white space, an optional sign, an optional
      "0x" prefix, then the longest run of hexadecimal digits; `None` (NaN)
      when that run is empty. */
  function ParseIntHex(s: string): Option<int> {
    var t := TrimStart(s);
    var neg := t != [] && t[0] == '-';
    var u := if t != [] && (t[0] == '-' || t[0] == '+') then t[1..] else t;
    var v := if |u| >= 2 && u[0] == '0' && (u[1] == 'x' || u[1] == 'X') then u[2..] else u;
    var n := HexRun(v);
    if n == 0 then None
    else
      var magnitude: int := HexDigitsValue(v[..n]);
      Some(if neg then -magnitude else magnitude)
  }

  /** The IEEE 802 group bit: the low bit of `parseInt(mac.substring(0, 2), 16)`
      (NaN counts as 0). */
  predicate GroupBit(mac: string) {
    var first := ParseIntHex(Prefix(mac, 2));
    first.Some? && first.value % 2 == 1
  }

  /** `Number(part)` for the parts of a dotted address: a run of decimal
      digits gives its value, the empty string gives 0, anything else NaN. */
  function DecimalNumber(s: string): Option<nat> {
    if s == "" then Some(0)
    else if forall i :: 0 <= i < |s| ==> IsDigit(s[i]) then Some(DigitsValue(s))
    else None
  }

  function DigitsValue(s: string): nat
    requires forall i :: 0 <= i < |s| ==> IsDigit(s[i])
  {
    if s == [] then 0
    else
      var last := s[|s| - 1];
      assert IsDigit(last);
      DigitsValue(s[..|s| - 1]) * 10 + (last as int - '0' as int)
  }

  /** The numbers of the dot-separated parts, or `None` if one is NaN. */
  function PartNumbers(parts: seq<string>): (r: Option<seq<nat>>)
    ensures r.Some? ==> |r.value| == |parts|
  {
    if parts == [] then Some([])
    else
      var head := DecimalNumber(parts[0]);
      var tail := PartNumbers(parts[1..]);
      if head.None? || tail.None? then None else Some([head.value] + tail.value)
  }

  const BroadcastMac: string := "ff:ff:ff:ff:ff:ff"

  /** The MAC half of `isValidDeviceAddress`: not the broadcast address and
      not a group address. */
  predicate UnicastMac(mac: string) {
    mac != BroadcastMac && !GroupBit(mac)
  }

  /** The IP half of `isValidDeviceAddress`: four dot-separated numbers up to
      255, the last neither 0 (network) nor 255 (broadcast), the first
      neither multicast (224..239) nor loopback (127). */
  predicate UnicastIp(ip: string) {
    var parts := PartNumbers(Split(ip, '.'));
    if parts.None? || |parts.value| != 4 then false
    else
      var p := parts.value;
      if p[0] > 255 || p[1] > 255 || p[2] > 255 || p[3] > 255 then false
      else if p[3] == 255 then false
      else if p[3] == 0 then false
      else if 224 <= p[0] <= 239 then false
      else if p[0] == 127 then false
      else true
  }

  /** `isValidDeviceAddress(ip, mac)`: the checks run in the source's order
      and none has a side effect, so they combine as a conjunction. */
  predicate IsValidDeviceAddress(ip: string, mac: string)
    ensures IsValidDeviceAddress(ip, mac) ==> |Split(ip, '.')| == 4 && !GroupBit(mac)
  {
    ip != "" && mac != "" && UnicastMac(mac) && UnicastIp(ip)
  }

  /** The dotted-quad text of four numbers. */
  function DottedQuad(a: nat, b: nat, c: nat, d: nat): string {
    Join([NatToString(a), NatToString(b), NatToString(c), NatToString(d)], '.')
  }

  lemma {:induction false} DigitsValueOfNatToString(n: nat)
    ensures forall i :: 0 <= i < |NatToString(n)| ==> IsDigit(NatToString(n)[i])
    ensures DigitsValue(NatToString(n)) == n
    decreases n
  {
    NatToStringDigits(n);
    if n >= 10 {
      DigitsValueOfNatToString(n / 10);
      var s := NatToString(n);
      assert s[..|s| - 1] == NatToString(n / 10);
    }
  }

  /** The decimal text of a number reads back as that number. */
  lemma DecimalRoundTrip(n: nat)
    ensures '.' !in NatToString(n)
    ensures DecimalNumber(NatToString(n)) == Some(n)
  {
    DigitsValueOfNatToString(n);
    NatToStringDigits(n);
  }

  lemma {:induction false} PartNumbersOfDecimals(ns: seq<nat>)
    ensures PartNumbers(seq(|ns|, i requires 0 <= i < |ns| => NatToString(ns[i]))) == Some(ns)
  {
    var parts := seq(|ns|, i requires 0 <= i < |ns| => NatToString(ns[i]));
    if ns != [] {
      DecimalRoundTrip(ns[0]);
      PartNumbersOfDecimals(ns[1..]);
      assert parts[1..] == seq(|ns[1..]|, i requires 0 <= i < |ns[1..]| => NatToString(ns[1..][i]));
      assert [ns[0]] + ns[1..] == ns;
    }
  }

  /** Reading a formatted dotted quad back gives the four numbers. */
  lemma QuadParts(a: nat, b: nat, c: nat, d: nat)
    ensures PartNumbers(Split(DottedQuad(a, b, c, d), '.')) == Some([a, b, c, d])
  {
    var ns: seq<nat> := [a, b, c, d];
    var parts := [NatToString(a), NatToString(b), NatToString(c), NatToString(d)];
    assert parts == seq(|ns|, i requires 0 <= i < |ns| => NatToString(ns[i]));
    PartNumbersOfDecimals(ns);
    DecimalRoundTrip(a);
    DecimalRoundTrip(b);
    DecimalRoundTrip(c);
    DecimalRoundTrip(d);
    SplitJoin(parts, '.');
  }

  /** For a MAC starting with two hexadecimal digits, the group bit is the
      low bit of the second digit. */
  lemma GroupBitOfHexPair(mac: string)
    requires |mac| >= 2 && IsHexDigit(mac[0]) && IsHexDigit(mac[1])
    ensures GroupBit(mac) <==> HexValue(mac[1]) % 2 == 1
  {
    var s := Prefix(mac, 2);
    assert s == [mac[0], mac[1]];
    assert TrimStart(s) == s by {
      assert !IsSpace(s[0]);
    }
    assert HexRun(s) == 2 by {
      assert HexRun(s[1..]) == 1 by {
        assert s[1..][1..] == [];
      }
    }
    assert s[..2] == s;
    assert HexDigitsValue(s) == HexValue(mac[0]) * 16 + HexValue(mac[1]) by {
      assert s[..|s| - 1] == [mac[0]];
      assert HexDigitsValue([mac[0]]) == HexValue(mac[0]) by {
        assert [mac[0]][..0] == [];
      }
    }
  }

  /** On a formatted address and a MAC that starts with two hexadecimal
      digits, the filter accepts exactly the unicast addresses: four octets
      up to 255, a last octet other than 0 and 255, a first octet outside the
      multicast range 224..239 and other than the loopback 127, and a MAC
      other than the broadcast one whose first octet is even. */
  lemma ValidDeviceAddressOnQuads(a: nat, b: nat, c: nat, d: nat, mac: string)
    requires |mac| >= 2 && IsHexDigit(mac[0]) && IsHexDigit(mac[1])
    ensures IsValidDeviceAddress(DottedQuad(a, b, c, d), mac) <==>
      && mac != BroadcastMac
      && HexValue(mac[1]) % 2 == 0
      && a <= 255 && b <= 255 && c <= 255 && d <= 255
      && d != 0 && d != 255
      && !(224 <= a <= 239) && a != 127
  {
    QuadParts(a, b, c, d);
    GroupBitOfHexPair(mac);
    var ip := DottedQuad(a, b, c, d);
    assert ip != "" by {
      NatToStringDigits(a);
      assert Split(ip, '.') != [""] by {
        assert [a, b, c, d] != [0];
      }
    }
  }

  /** A MAC whose first octet has its group bit set is never a device
      address, whatever the IP. */
  lemma GroupMacRejected(ip: string, mac: string)
    requires GroupBit(mac)
    ensures !IsValidDeviceAddress(ip, mac)
  {
  }
}
