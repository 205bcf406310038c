/** Parsing of the `arp -a` table: each line is matched against the Windows
    layout ("  192.168.0.1   aa-bb-cc-dd-ee-ff   dynamic") and then the Unix
    layout ("? (192.168.0.1) at aa:bb:cc:dd:ee:ff [ether] on en0"); the
    matched addresses are normalised and filtered, and the result keeps one
    entry per IP address. The two regular expressions are modelled by their
    leftmost-match behaviour, position by position in the line. */
module Arp {
  import opened Values
  import opened Text
  import opened Address

  datatype ArpEntry = ArpEntry(ip: string, mac: string)

  /** A match of a line pattern: the captured IP text and MAC text. */
  datatype Hit = Hit(ip: string, mac: string)

  /** The characters of `[0-9a-fA-F:\-]`. */
  predicate IsMacChar(c: char) { IsHexDigit(c) || c == ':' || c == '-' }

  /** The characters of `[0-9a-fA-F:]`. */
  predicate IsColonHex(c: char) { IsHexDigit(c) || c == ':' }

  /** The character classes the patterns repeat: `\d`, `\s`, and the two
      MAC classes. */
  datatype Class = Digits | Spaces | MacChars | ColonHex

  predicate In(c: char, k: Class) {
    match k
    case Digits => IsDigit(c)
    case Spaces => IsSpace(c)
    case MacChars => IsMacChar(c)
    case ColonHex => IsColonHex(c)
  }

  /** Length of the longest run of class `k` starting at position `i`, as a
      greedy repetition takes it. */
  function RunAt(s: string, i: nat, k: Class): (n: nat)
    ensures n == 0 || i + n <= |s|
    decreases |s| - i
  {
    if i < |s| && In(s[i], k) then 1 + RunAt(s, i + 1, k) else 0
  }

  /** One `\d+\.` at position `i`: where the text after the dot starts. */
  function DotGroup(s: string, i: nat): (r: Option<nat>)
    ensures r.Some? ==> i < r.value <= |s|
  {
    var a := RunAt(s, i, Digits);
    if 0 < a && i + a < |s| && s[i + a] == '.' then Some(i + a + 1) else None
  }

  /** `\d+\.\d+\.\d+\.\d+` at position `i`, each run maximal as the greedy
      pattern takes it: where the quad ends, or `None`. */
  function QuadEnd(s: string, i: nat): (r: Option<nat>)
    ensures r.Some? ==> i < r.value <= |s|
  {
    var p1 := DotGroup(s, i);
    if p1.None? then None
    else
      var p2 := DotGroup(s, p1.value);
      if p2.None? then None
      else
        var p3 := DotGroup(s, p2.value);
        if p3.None? then None
        else
          var a := RunAt(s, p3.value, Digits);
          if a == 0 then None else Some(p3.value + a)
  }

  /** A captured stretch `s[lo..hi]`. */
  datatype Span = Span(lo: nat, hi: nat)

  /** `\s+([0-9a-fA-F:\-]{11,17})\s+\w` from position `n`: the captured MAC.
      The run must be followed by white space, so it is the whole maximal run
      and its length is 11 to 17. */
  function WindowsMac(s: string, n: nat): (r: Option<Span>)
    ensures r.Some? ==> n <= r.value.lo <= r.value.hi <= |s|
  {
    var w1 := RunAt(s, n, Spaces);
    var t := n + w1;
    var r := RunAt(s, t, MacChars);
    var u := t + r;
    var w2 := RunAt(s, u, Spaces);
    if w1 == 0 || r < 11 || r > 17 || w2 == 0 || u + w2 >= |s| || !IsWordChar(s[u + w2]) then None
    else Some(Span(t, u))
  }

  /** `(\d+\.\d+\.\d+\.\d+)\s+([0-9a-fA-F:\-]{11,17})\s+\w+` matched from
      the first digit at position `q`. */
  function WindowsAt(s: string, q: nat): Option<Hit> {
    var e := QuadEnd(s, q);
    if e.None? then None
    else
      var m := WindowsMac(s, e.value);
      if m.None? then None
      else Some(Hit(s[q..e.value], s[m.value.lo..m.value.hi]))
  }

  /** `\s+at\s+([0-9a-fA-F:]{17})` after the `)` at position `n`: where the
      captured MAC starts. */
  function UnixMac(s: string, n: nat): (r: Option<nat>)
    ensures r.Some? ==> r.value + 17 <= |s|
  {
    var w1 := RunAt(s, n + 1, Spaces);
    var u := n + 1 + w1;
    if w1 == 0 || u + 2 > |s| || s[u] != 'a' || s[u + 1] != 't' then None
    else
      var w2 := RunAt(s, u + 2, Spaces);
      var v := u + 2 + w2;
      if w2 == 0 || RunAt(s, v, ColonHex) < 17 then None else Some(v)
  }

  /** `\((\d+\.\d+\.\d+\.\d+)\)\s+at\s+([0-9a-fA-F:]{17})` matched at
      position `q`. */
  function UnixAt(s: string, q: nat): Option<Hit> {
    if q >= |s| || s[q] != '(' then None
    else
      var e := QuadEnd(s, q + 1);
      if e.None? || e.value >= |s| || s[e.value] != ')' then None
      else
        var v := UnixMac(s, e.value);
        if v.None? then None else Some(Hit(s[q + 1..e.value], s[v.value..v.value + 17]))
  }

  /** The two line layouts the parser recognises. */
  datatype Layout = Windows | Unix

  function MatchAt(layout: Layout, s: string, q: nat): Option<Hit> {
    match layout
    case Windows => WindowsAt(s, q)
    case Unix => UnixAt(s, q)
  }

  /** The leftmost match of a layout at or after position `q`. (The leading
      `\s*` of the Windows pattern does not move the captures: the leftmost
      match starts where its first digit is.) */
  function Leftmost(layout: Layout, s: string, q: nat): Option<Hit>
    decreases |s| - q
  {
    if q >= |s| then None
    else if MatchAt(layout, s, q).Some? then MatchAt(layout, s, q)
    else Leftmost(layout, s, q + 1)
  }

  /** The lines of a text split at `\r?\n`. */
  function Lines(text: string): (ls: seq<string>)
    ensures |ls| == |Split(text, '\n')|
    ensures forall i :: 0 <= i < |ls| ==> ls[i] == Split(text, '\n')[i] || ls[i] + "\r" == Split(text, '\n')[i]
    ensures ls[|ls| - 1] == Split(text, '\n')[|ls| - 1]
  {
    var parts := Split(text, '\n');
    seq(|parts|, i requires 0 <= i < |parts| =>
      if i < |parts| - 1 && parts[i] != "" && parts[i][|parts[i]| - 1] == '\r'
      then parts[i][..|parts[i]| - 1] else parts[i])
  }

  /** The entry a line contributes: the Windows layout first and, only when
      it does not match, the Unix one; the MAC normalised, and the pair kept
      only when it is a unicast device address. */
  function LineEntry(line: string): (e: Option<ArpEntry>)
    ensures e.Some? ==> IsValidDeviceAddress(e.value.ip, e.value.mac)
    ensures e.Some? ==> exists m :: e.value.mac == NormalizeMac(m)
  {
    var w := Leftmost(Windows, line, 0);
    var h := if w.Some? then w else Leftmost(Unix, line, 0);
    if h.Some? && IsValidDeviceAddress(h.value.ip, NormalizeMac(h.value.mac))
    then Some(ArpEntry(h.value.ip, NormalizeMac(h.value.mac)))
    else None
  }

  /** The entries of the lines, in order, before de-duplication. */
  function Candidates(lines: seq<string>): (es: seq<ArpEntry>)
    ensures |es| <= |lines|
    ensures forall i :: 0 <= i < |es| ==> IsValidDeviceAddress(es[i].ip, es[i].mac)
    decreases |lines|
  {
    if lines == [] then []
    else
      var e := LineEntry(lines[|lines| - 1]);
      Candidates(lines[..|lines| - 1]) + (if e.Some? then [e.value] else [])
  }

  /** The de-duplication map as it is filled: the addresses in order of
      first insertion, and the MAC last set for each. */
  datatype Table = Table(order: seq<string>, last: map<string, string>)

  function Fill(ds: seq<ArpEntry>): Table
    decreases |ds|
  {
    if ds == [] then Table([], map[])
    else
      var t := Fill(ds[..|ds| - 1]);
      var d := ds[|ds| - 1];
      Table(if d.ip in t.last then t.order else t.order + [d.ip], t.last[d.ip := d.mac])
  }

  /** A well-formed table: its order lists every key once. */
  predicate TableOk(t: Table) {
    && (forall i :: 0 <= i < |t.order| ==> t.order[i] in t.last)
    && (forall k :: k in t.last ==> k in t.order)
    && (forall i, j :: 0 <= i < j < |t.order| ==> t.order[i] != t.order[j])
  }

  /** The values of a table in insertion order. */
  function TableEntries(t: Table): seq<ArpEntry>
    requires TableOk(t)
  {
    seq(|t.order|, i requires 0 <= i < |t.order| => ArpEntry(t.order[i], t.last[t.order[i]]))
  }

  lemma {:induction false} FillOk(ds: seq<ArpEntry>)
    ensures TableOk(Fill(ds))
    ensures forall k :: k in Fill(ds).last <==> exists i :: 0 <= i < |ds| && ds[i].ip == k
    decreases |ds|
  {
    if ds != [] {
      var init := ds[..|ds| - 1];
      FillOk(init);
      forall k | k in Fill(ds).last ensures exists i :: 0 <= i < |ds| && ds[i].ip == k {
        if k != ds[|ds| - 1].ip {
          var i :| 0 <= i < |init| && init[i].ip == k;
          assert ds[i].ip == k;
        }
      }
      forall k | exists i :: 0 <= i < |ds| && ds[i].ip == k ensures k in Fill(ds).last {
        var i :| 0 <= i < |ds| && ds[i].ip == k;
        if i < |init| {
          assert init[i].ip == k;
        }
      }
    }
  }

  /** The de-duplicated list: one entry per address, in order of first
      appearance, carrying the MAC of the last appearance. */
  function Dedup(ds: seq<ArpEntry>): (r: seq<ArpEntry>)
    ensures forall i, j :: 0 <= i < j < |r| ==> r[i].ip != r[j].ip
  {
    FillOk(ds);
    TableEntries(Fill(ds))
  }

  /** The matching loop of `parseArpTable`: the entries of the lines. */
  method CollectEntries(lines: seq<string>) returns (found: seq<ArpEntry>)
    ensures found == Candidates(lines)
  {
    found := [];
    for i := 0 to |lines|
      invariant found == Candidates(lines[..i])
    {
      assert lines[..i + 1][..i] == lines[..i];
      var e := LineEntry(lines[i]);
      if e.Some? {
        found := found + [e.value];
      }
    }
    assert lines[..|lines|] == lines;
  }

  /** The de-duplication of `parseArpTable`: a map from address to entry,
      read back in insertion order. */
  method DedupEntries(found: seq<ArpEntry>) returns (devices: seq<ArpEntry>)
    ensures devices == Dedup(found)
  {
    var order: seq<string> := [];
    var last: map<string, string> := map[];
    for j := 0 to |found|
      invariant Table(order, last) == Fill(found[..j])
    {
      assert found[..j + 1][..j] == found[..j];
      var d := found[j];
      if d.ip !in last {
        order := order + [d.ip];
      }
      last := last[d.ip := d.mac];
    }
    assert found[..|found|] == found;
    FillOk(found);
    devices := [];
    for k := 0 to |order|
      invariant devices == TableEntries(Table(order, last))[..k]
    {
      devices := devices + [ArpEntry(order[k], last[order[k]])];
    }
  }

  /** `parseArpTable(text)` */
  method ParseArpTable(text: string) returns (devices: seq<ArpEntry>)
    ensures devices == Dedup(Candidates(Lines(text)))
  {
    var found := CollectEntries(Lines(text));
    devices := DedupEntries(found);
  }

  /** Every candidate entry passes the device filter with a normalised MAC. */
  lemma {:induction false} CandidatesValid(lines: seq<string>)
    ensures forall i :: 0 <= i < |Candidates(lines)| ==>
      IsValidDeviceAddress(Candidates(lines)[i].ip, Candidates(lines)[i].mac)
      && NormalizeMac(Candidates(lines)[i].mac) == Candidates(lines)[i].mac
    decreases |lines|
  {
    if lines != [] {
      CandidatesValid(lines[..|lines| - 1]);
      var e := LineEntry(lines[|lines| - 1]);
      if e.Some? {
        var m :| e.value.mac == NormalizeMac(m);
        NormalizeMacIdempotent(m);
      }
    }
  }

  /** The last MAC recorded for an address is that of its last entry. */
  lemma {:induction false} FillKeepsLast(ds: seq<ArpEntry>, i: nat)
    requires i < |ds|
    requires forall j :: i < j < |ds| ==> ds[j].ip != ds[i].ip
    ensures ds[i].ip in Fill(ds).last && Fill(ds).last[ds[i].ip] == ds[i].mac
    decreases |ds|
  {
    if i < |ds| - 1 {
      FillKeepsLast(ds[..|ds| - 1], i);
    }
  }

  lemma DedupAt(cs: seq<ArpEntry>, i: nat)
    requires i < |Dedup(cs)|
    ensures Dedup(cs)[i] in cs
  {
    FillOk(cs);
    var t := Fill(cs);
    assert Dedup(cs)[i] == ArpEntry(t.order[i], t.last[t.order[i]]);
    LastIsCandidate(cs, t.order[i]);
  }

  lemma DedupDistinct(cs: seq<ArpEntry>)
    ensures forall i, j :: 0 <= i < j < |Dedup(cs)| ==> Dedup(cs)[i].ip != Dedup(cs)[j].ip
  {
    FillOk(cs);
    var t := Fill(cs);
    assert forall i :: 0 <= i < |Dedup(cs)| ==> Dedup(cs)[i].ip == t.order[i];
  }

  lemma DedupCovers(cs: seq<ArpEntry>, c: ArpEntry)
    requires c in cs
    ensures exists i :: 0 <= i < |Dedup(cs)| && Dedup(cs)[i].ip == c.ip
  {
    FillOk(cs);
    var t := Fill(cs);
    var k :| 0 <= k < |cs| && cs[k] == c;
    assert c.ip in t.last;
    var i :| 0 <= i < |t.order| && t.order[i] == c.ip;
    assert Dedup(cs)[i].ip == c.ip;
  }

  /** De-duplication keeps only entries of its input, at most one per
      address, and one for every address of its input. */
  lemma DedupProperties(cs: seq<ArpEntry>)
    ensures var ds := Dedup(cs);
      && (forall i :: 0 <= i < |ds| ==> ds[i] in cs)
      && (forall i, j :: 0 <= i < j < |ds| ==> ds[i].ip != ds[j].ip)
      && (forall c :: c in cs ==> exists i :: 0 <= i < |ds| && ds[i].ip == c.ip)
  {
    forall i | 0 <= i < |Dedup(cs)| ensures Dedup(cs)[i] in cs {
      DedupAt(cs, i);
    }
    DedupDistinct(cs);
    forall c | c in cs ensures exists i :: 0 <= i < |Dedup(cs)| && Dedup(cs)[i].ip == c.ip {
      DedupCovers(cs, c);
    }
  }

  /** `parseArpTable` returns only unicast device addresses with normalised
      MACs, at most one entry per IP address, and an entry for every address
      that had a valid line. */
  lemma ParseArpTableProperties(text: string)
    ensures var ds := Dedup(Candidates(Lines(text)));
      && (forall i :: 0 <= i < |ds| ==> IsValidDeviceAddress(ds[i].ip, ds[i].mac) && NormalizeMac(ds[i].mac) == ds[i].mac)
      && (forall i, j :: 0 <= i < j < |ds| ==> ds[i].ip != ds[j].ip)
      && (forall c :: c in Candidates(Lines(text)) ==> exists i :: 0 <= i < |ds| && ds[i].ip == c.ip)
  {
    var cs := Candidates(Lines(text));
    CandidatesValid(Lines(text));
    DedupProperties(cs);
  }

  /** The MAC recorded for an address belongs to one of its entries. */
  lemma {:induction false} LastIsCandidate(ds: seq<ArpEntry>, ip: string)
    requires ip in Fill(ds).last
    ensures exists i :: 0 <= i < |ds| && ds[i] == ArpEntry(ip, Fill(ds).last[ip])
    decreases |ds|
  {
    var d := ds[|ds| - 1];
    if d.ip == ip {
      assert ds[|ds| - 1] == ArpEntry(ip, Fill(ds).last[ip]);
    } else {
      LastIsCandidate(ds[..|ds| - 1], ip);
      var i :| 0 <= i < |ds| - 1 && ds[..|ds| - 1][i] == ArpEntry(ip, Fill(ds[..|ds| - 1]).last[ip]);
      assert ds[i] == ArpEntry(ip, Fill(ds).last[ip]);
    }
  }

  /** For a repeated address, the entry kept carries the MAC of the address's
      last line. */
  lemma DedupKeepsLast(ds: seq<ArpEntry>, i: nat)
    requires i < |ds|
    requires forall j :: i < j < |ds| ==> ds[j].ip != ds[i].ip
    ensures ds[i] in Dedup(ds)
  {
    FillOk(ds);
    FillKeepsLast(ds, i);
    var t := Fill(ds);
    var k :| 0 <= k < |t.order| && t.order[k] == ds[i].ip;
    assert Dedup(ds)[k] == ds[i];
  }

  /** Characters `i` up to `n` of `s` are of class `k`. */
  predicate Between(s: string, k: Class, i: nat, n: nat)
    requires i <= n <= |s|
  {
    forall j :: i <= j < n ==> In(s[j], k)
  }

  /** A run of class `k` from `i` that stops at `n`. */
  lemma {:induction false} RunAtFrom(s: string, k: Class, i: nat, n: nat)
    requires i <= n <= |s| && Between(s, k, i, n)
    requires n == |s| || !In(s[n], k)
    ensures RunAt(s, i, k) == n - i
    decreases n - i
  {
    if i < n {
      RunAtFrom(s, k, i + 1, n);
    }
  }

  /** A run of class `k` at least from `i` to `n`. */
  lemma {:induction false} RunAtAtLeast(s: string, k: Class, i: nat, n: nat)
    requires i <= n <= |s| && Between(s, k, i, n)
    ensures RunAt(s, i, k) >= n - i
    decreases n - i
  {
    if i < n {
      RunAtAtLeast(s, k, i + 1, n);
    }
  }

  lemma DotGroupOf(s: string, i: nat, n: nat)
    requires i < n < |s| && Between(s, Digits, i, n) && s[n] == '.'
    ensures DotGroup(s, i) == Some(n + 1)
  {
    RunAtFrom(s, Digits, i, n);
  }

  /** A dotted quad from `i`: digit runs ending at `a`, `b`, `c` and `n`,
      separated by dots, with no digit after `n`. */
  predicate QuadShape(s: string, i: nat, a: nat, b: nat, c: nat, n: nat) {
    && i < a && a + 1 < b && b + 1 < c && c + 1 < n <= |s|
    && Between(s, Digits, i, a) && s[a] == '.'
    && Between(s, Digits, a + 1, b) && s[b] == '.'
    && Between(s, Digits, b + 1, c) && s[c] == '.'
    && Between(s, Digits, c + 1, n) && (n == |s| || !IsDigit(s[n]))
  }

  lemma QuadEndOf(s: string, i: nat, a: nat, b: nat, c: nat, n: nat)
    requires QuadShape(s, i, a, b, c, n)
    ensures QuadEnd(s, i) == Some(n)
  {
    DotGroupOf(s, i, a);
    DotGroupOf(s, a + 1, b);
    DotGroupOf(s, b + 1, c);
    RunAtFrom(s, Digits, c + 1, n);
  }

  lemma WindowsMacOf(s: string, n: nat, t: nat, u: nat, v: nat)
    requires n < t <= |s| && Between(s, Spaces, n, t)
    requires t + 11 <= u <= t + 17 && u <= |s| && Between(s, MacChars, t, u)
    requires u < v < |s| && Between(s, Spaces, u, v) && IsWordChar(s[v])
    ensures WindowsMac(s, n) == Some(Span(t, u))
  {
    assert !In(s[t], Spaces);
    RunAtFrom(s, Spaces, n, t);
    assert !In(s[u], MacChars);
    RunAtFrom(s, MacChars, t, u);
    assert !In(s[v], Spaces);
    RunAtFrom(s, Spaces, u, v);
  }

  /** The Windows pattern at `q`: a quad, white space up to `t`, a MAC run
      up to `u` of 11 to 17 characters, white space up to `v` and a word
      character. */
  lemma WindowsAtShape(s: string, q: nat, a: nat, b: nat, c: nat, n: nat, t: nat, u: nat, v: nat)
    requires QuadShape(s, q, a, b, c, n)
    requires n < t <= |s| && Between(s, Spaces, n, t)
    requires t + 11 <= u <= t + 17 && u <= |s| && Between(s, MacChars, t, u)
    requires u < v < |s| && Between(s, Spaces, u, v) && IsWordChar(s[v])
    ensures WindowsAt(s, q) == Some(Hit(s[q..n], s[t..u]))
  {
    QuadEndOf(s, q, a, b, c, n);
    WindowsMacOf(s, n, t, u, v);
  }

  lemma UnixMacOf(s: string, n: nat, u: nat, v: nat)
    requires n + 1 < u && u + 2 < v && v + 17 <= |s|
    requires Between(s, Spaces, n + 1, u) && s[u] == 'a' && s[u + 1] == 't'
    requires Between(s, Spaces, u + 2, v) && Between(s, ColonHex, v, v + 17)
    ensures UnixMac(s, n) == Some(v)
  {
    RunAtFrom(s, Spaces, n + 1, u);
    assert !In(s[v], Spaces);
    RunAtFrom(s, Spaces, u + 2, v);
    RunAtAtLeast(s, ColonHex, v, v + 17);
  }

  /** The Unix pattern at `q`: `(`, a quad, `)`, white space up to `u`,
      `at`, white space up to `v` and 17 MAC characters. */
  lemma UnixAtShape(s: string, q: nat, a: nat, b: nat, c: nat, n: nat, u: nat, v: nat)
    requires q < |s| && s[q] == '('
    requires QuadShape(s, q + 1, a, b, c, n)
    requires n < |s| && s[n] == ')'
    requires n + 1 < u && u + 2 < v && v + 17 <= |s|
    requires Between(s, Spaces, n + 1, u) && s[u] == 'a' && s[u + 1] == 't'
    requires Between(s, Spaces, u + 2, v) && Between(s, ColonHex, v, v + 17)
    ensures UnixAt(s, q) == Some(Hit(s[q + 1..n], s[v..v + 17]))
  {
    QuadEndOf(s, q + 1, a, b, c, n);
    UnixMacOf(s, n, u, v);
  }

  /** The leftmost match skips positions where the layout does not match. */
  lemma {:induction false} LeftmostSkips(layout: Layout, s: string, i: nat, q: nat)
    requires i <= q < |s|
    requires forall j :: i <= j < q ==> MatchAt(layout, s, j).None?
    requires MatchAt(layout, s, q).Some?
    ensures Leftmost(layout, s, i) == MatchAt(layout, s, q)
    decreases q - i
  {
    if i < q {
      LeftmostSkips(layout, s, i + 1, q);
    }
  }

  /** A Windows match starts at a digit, a Unix match at `(`. */
  lemma MatchStart(s: string, q: nat)
    ensures WindowsAt(s, q).Some? ==> q < |s| && IsDigit(s[q])
    ensures UnixAt(s, q).Some? ==> q < |s| && s[q] == '('
  {
  }

  /** The entry a line yields when the Windows pattern matches at `q` and
      no digit comes before it: that match, with its MAC normalised, if the
      pair is a device address. */
  lemma WindowsLine(line: string, q: nat)
    requires q < |line| && WindowsAt(line, q).Some?
    requires forall j :: 0 <= j < q ==> !IsDigit(line[j])
    ensures var h := WindowsAt(line, q).value;
      LineEntry(line) ==
        if IsValidDeviceAddress(h.ip, NormalizeMac(h.mac)) then Some(ArpEntry(h.ip, NormalizeMac(h.mac))) else None
  {
    forall j | 0 <= j < q
      ensures MatchAt(Windows, line, j).None?
    {
      MatchStart(line, j);
    }
    LeftmostSkips(Windows, line, 0, q);
  }

  /** The entry a line yields when nothing in it matches the Windows
      pattern and the Unix pattern matches at the first `(`. */
  lemma UnixLine(line: string, q: nat)
    requires Leftmost(Windows, line, 0).None?
    requires q < |line| && UnixAt(line, q).Some?
    requires forall j :: 0 <= j < q ==> line[j] != '('
    ensures var h := UnixAt(line, q).value;
      LineEntry(line) ==
        if IsValidDeviceAddress(h.ip, NormalizeMac(h.mac)) then Some(ArpEntry(h.ip, NormalizeMac(h.mac))) else None
  {
    forall j | 0 <= j < q
      ensures MatchAt(Unix, line, j).None?
    {
      MatchStart(line, j);
    }
    LeftmostSkips(Unix, line, 0, q);
  }

  /** A line on which neither pattern matches anywhere yields nothing. */
  lemma {:induction false} NoMatchNoEntry(layout: Layout, line: string, q: nat)
    requires forall j :: q <= j < |line| ==> MatchAt(layout, line, j).None?
    ensures Leftmost(layout, line, q).None?
    decreases |line| - q
  {
    if q < |line| {
      NoMatchNoEntry(layout, line, q + 1);
    }
  }
}
