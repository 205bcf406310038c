/** Vendor names for MAC addresses: the name the OUI database gives, cleaned
    to a short label, or the built-in table of common prefixes when the
    database has none. */
module Vendor {
  import opened Values
  import opened Text

  /** The characters at which a database entry's first part ends. */
  predicate IsSegmentBreak(c: char) { c == ',' || c == '\n' || c == '\r' }

  /** `vendor.split(/[,\n\r]/)[0]`: the text before the first comma or line
      break. */
  function FirstSegment(s: string): (r: string)
    ensures StartsWith(s, r)
    ensures forall i :: 0 <= i < |r| ==> !IsSegmentBreak(r[i])
    ensures |r| == |s| || IsSegmentBreak(s[|r|])
    decreases |s|
  {
    if s == [] || IsSegmentBreak(s[0]) then [] else [s[0]] + FirstSegment(s[1..])
  }

  /** The longest label kept whole; a longer one keeps its first 27
      characters and gets "...". */
  const MaxLabel := 30
  const KeptOnTruncation := 27

  function Min(a: nat, b: nat): nat { if a <= b then a else b }

  /** The first part of a database entry, without leading white space: the
      text every cleaned label is taken from. */
  function Lead(vendor: string): string {
    TrimStart(FirstSegment(vendor))
  }

  /** `cleanVendorName`. The corporate-suffix patterns are a parameter:
      `suffix(s)` is the total length the five end-anchored patterns remove
      from `s`, applied in turn. */
  function CleanVendorName(vendor: string, suffix: string -> nat): (r: string)
    ensures 1 <= |r| <= MaxLabel
    ensures vendor == "" ==> r == "Unknown"
    ensures r == "Unknown"
      || StartsWith(Lead(vendor), r)
      || (|r| == MaxLabel && r[KeptOnTruncation..] == "..." && StartsWith(Lead(vendor), r[..KeptOnTruncation]))
  {
    if vendor == "" then "Unknown"
    else
      var cleaned := Trim(FirstSegment(vendor));
      var cut := cleaned[..|cleaned| - Min(suffix(cleaned), |cleaned|)];
      var stripped := Trim(cut);
      var short := if |stripped| > MaxLabel then stripped[..KeptOnTruncation] + "..." else stripped;
      LeadPrefix(vendor, cleaned, cut, stripped);
      if short == "" then "Unknown" else short
  }

  lemma PrefixTrans(a: string, b: string, c: string)
    requires StartsWith(a, b) && StartsWith(b, c)
    ensures StartsWith(a, c)
  {
    assert a[..|c|] == a[..|b|][..|c|];
  }

  lemma {:induction false} TrimEndPrefix(s: string)
    ensures StartsWith(s, TrimEnd(s))
    decreases |s|
  {
    if s != [] && IsSpace(s[|s| - 1]) {
      TrimEndPrefix(s[..|s| - 1]);
      PrefixTrans(s, s[..|s| - 1], TrimEnd(s));
    }
  }

  /** Removing leading white space keeps a prefix a prefix. */
  lemma {:induction false} TrimStartPrefix(s: string, p: string)
    requires StartsWith(s, p)
    ensures StartsWith(TrimStart(s), TrimStart(p))
    decreases |p|
  {
    if p != [] && IsSpace(p[0]) {
      assert s[0] == p[0];
      assert StartsWith(s[1..], p[1..]) by {
        assert s[1..][..|p| - 1] == s[..|p|][1..];
      }
      TrimStartPrefix(s[1..], p[1..]);
    }
  }

  lemma {:induction false} TrimStartTwice(s: string)
    ensures TrimStart(TrimStart(s)) == TrimStart(s)
  {
    TrimStartNoSpace(s);
  }

  /** Each step of the cleaning keeps a prefix of the lead. */
  lemma LeadPrefix(vendor: string, cleaned: string, cut: string, stripped: string)
    requires cleaned == Trim(FirstSegment(vendor))
    requires StartsWith(cleaned, cut)
    requires stripped == Trim(cut)
    ensures StartsWith(Lead(vendor), stripped)
  {
    var lead := Lead(vendor);
    TrimEndPrefix(lead);
    PrefixTrans(lead, cleaned, cut);
    TrimStartPrefix(lead, cut);
    TrimStartTwice(FirstSegment(vendor));
    TrimEndPrefix(TrimStart(cut));
    PrefixTrans(lead, TrimStart(cut), stripped);
  }

  /** A label comes from the first part of the entry: it holds no comma or
      line break. */
  lemma CleanVendorNameNoBreak(vendor: string, suffix: string -> nat)
    ensures forall i :: 0 <= i < |CleanVendorName(vendor, suffix)| ==> !IsSegmentBreak(CleanVendorName(vendor, suffix)[i])
  {
    var r := CleanVendorName(vendor, suffix);
    var seg := FirstSegment(vendor);
    TrimStartSuffix(seg);
    var lead := Lead(vendor);
    assert forall i :: 0 <= i < |lead| ==> !IsSegmentBreak(lead[i]) by {
      forall i | 0 <= i < |lead|
        ensures !IsSegmentBreak(lead[i])
      {
        assert lead[i] == seg[|seg| - |lead| + i];
      }
    }
    if r != "Unknown" && StartsWith(lead, r) {
      forall i | 0 <= i < |r|
        ensures !IsSegmentBreak(r[i])
      {
        assert r[i] == lead[i];
      }
    }
  }

  lemma {:induction false} TrimStartSuffix(s: string)
    ensures |TrimStart(s)| <= |s| && TrimStart(s) == s[|s| - |TrimStart(s)|..]
    decreases |s|
  {
    if s != [] && IsSpace(s[0]) {
      TrimStartSuffix(s[1..]);
    }
  }

  /** A one-part name that needs no cleaning is kept as it is. */
  lemma CleanNameKept(vendor: string, suffix: string -> nat)
    requires 1 <= |vendor| <= MaxLabel && suffix(vendor) == 0
    requires forall i :: 0 <= i < |vendor| ==> !IsSegmentBreak(vendor[i])
    requires !IsSpace(vendor[0]) && !IsSpace(vendor[|vendor| - 1])
    ensures CleanVendorName(vendor, suffix) == vendor
  {
    FirstSegmentWhole(vendor);
    assert Trim(vendor) == vendor;
    assert vendor[..|vendor| - 0] == vendor;
  }

  /** A long one-part name keeps its first 27 characters and gets "...". */
  lemma CleanNameTruncated(vendor: string, suffix: string -> nat)
    requires |vendor| > MaxLabel && suffix(vendor) == 0
    requires forall i :: 0 <= i < |vendor| ==> !IsSegmentBreak(vendor[i])
    requires !IsSpace(vendor[0]) && !IsSpace(vendor[|vendor| - 1])
    ensures CleanVendorName(vendor, suffix) == vendor[..KeptOnTruncation] + "..."
  {
    FirstSegmentWhole(vendor);
    assert Trim(vendor) == vendor;
    assert vendor[..|vendor| - 0] == vendor;
  }

  lemma FirstSegmentWhole(s: string)
    requires forall i :: 0 <= i < |s| ==> !IsSegmentBreak(s[i])
    ensures FirstSegment(s) == s
  {
  }

  /** The fallback table of `getMacVendor` in the server, keyed by the
      upper-case first three octets. */
  const ServerVendors: map<string, string> := map[
    "00:50:56" := "VMware",
    "00:0C:29" := "VMware",
    "00:05:69" := "VMware",
    "00:1C:42" := "VMware",
    "08:00:27" := "VirtualBox",
    "00:15:5D" := "Microsoft (Hyper-V)",
    "00:03:FF" := "Microsoft",
    "B0:92:4A" := "D-Link",
    "E8:DE:27" := "TP-Link",
    "50:C7:BF" := "TP-Link",
    "A0:F3:C1" := "TP-Link",
    "20:28:BC" := "Samsung",
    "34:CD:BE" := "Samsung",
    "F8:D0:AC" := "Samsung",
    "08:D2:3E" := "LG Electronics",
    "0C:8B:FD" := "Apple",
    "00:1C:B3" := "Apple",
    "00:03:93" := "Apple",
    "40:6C:8F" := "Apple",
    "98:01:A7" := "Apple",
    "AC:DE:48" := "Apple",
    "B8:27:EB" := "Raspberry Pi",
    "DC:A6:32" := "Raspberry Pi",
    "E4:5F:01" := "Raspberry Pi",
    "00:1B:44" := "Intel",
    "00:13:20" := "Intel",
    "00:15:17" := "Intel",
    "D8:9E:F3" := "Intel",
    "94:C6:91" := "Intel",
    "A4:BB:6D" := "Intel",
    "00:50:F2" := "Realtek",
    "00:E0:4C" := "Realtek",
    "52:54:00" := "QEMU/KVM",
    "00:16:3E" := "Xen",
    "00:1A:4D" := "Cisco",
    "00:0A:B8" := "Cisco",
    "00:18:0A" := "Cisco",
    "88:75:56" := "Huawei",
    "F0:79:59" := "Huawei",
    "00:1E:10" := "Huawei"
  ]

  /** The smaller table of the ARP test script. */
  const ScriptVendors: map<string, string> := map[
    "B0:92:4A" := "D-Link",
    "20:28:BC" := "Samsung",
    "08:D2:3E" := "LG Electronics",
    "0C:8B:FD" := "Apple",
    "FE:E3:D1" := "Unknown (Local)",
    "6C:F6:DA" := "Unknown"
  ]

  /** The key a MAC address is looked up under: its first 8 characters,
      upper-cased. */
  function OuiKey(mac: string): string {
    Upper(Prefix(mac, 8))
  }

  /** `vendors[key] || 'Unknown Vendor'` */
  function TableLookup(table: map<string, string>, mac: string): (r: string)
    ensures OuiKey(mac) in table && table[OuiKey(mac)] != "" ==> r == table[OuiKey(mac)]
    ensures OuiKey(mac) !in table ==> r == "Unknown Vendor"
    ensures r in table.Values || r == "Unknown Vendor"
  {
    var key := OuiKey(mac);
    if key in table && table[key] != "" then table[key] else "Unknown Vendor"
  }

  /** `getMacVendor` of the server. `oui` is the OUI database lookup:
      `None` when it is unavailable, finds nothing or fails. */
  function GetMacVendor(mac: string, oui: string -> Option<string>, suffix: string -> nat): (r: string)
    ensures r != ""
    ensures mac == "" ==> r == "Unknown"
    ensures mac != "" && oui(mac).Some? && oui(mac).value != "" ==> r == CleanVendorName(oui(mac).value, suffix)
    ensures mac != "" && (oui(mac).None? || oui(mac).value == "") ==> r == TableLookup(ServerVendors, mac)
  {
    if mac == "" then "Unknown"
    else if oui(mac).Some? && oui(mac).value != "" then CleanVendorName(oui(mac).value, suffix)
    else TableLookup(ServerVendors, mac)
  }

  /** `getMacVendor` of the ARP test script, which has no database. */
  function ScriptMacVendor(mac: string): (r: string)
    ensures mac == "" ==> r == "Unknown"
    ensures mac != "" ==> r == TableLookup(ScriptVendors, mac)
    ensures mac != "" && OuiKey(mac) in ScriptVendors ==> r == ScriptVendors[OuiKey(mac)]
    ensures mac != "" && OuiKey(mac) !in ScriptVendors ==> r == "Unknown Vendor"
    ensures r in ScriptVendors.Values || r == "Unknown Vendor" || r == "Unknown"
    ensures r != ""
  {
    if mac == "" then "Unknown" else TableLookup(ScriptVendors, mac)
  }

  /** The lookup key is the same for a MAC address in either case, so the
      lower-case addresses the ARP parser produces find their entries. */
  lemma OuiKeyIgnoresCase(mac: string)
    ensures OuiKey(Lower(mac)) == OuiKey(mac)
  {
    assert Prefix(Lower(mac), 8) == Lower(Prefix(mac, 8));
  }

  lemma LookupIgnoresCase(table: map<string, string>, mac: string)
    ensures TableLookup(table, Lower(mac)) == TableLookup(table, mac)
  {
    OuiKeyIgnoresCase(mac);
  }

  /** Where both tables know a prefix they agree on its vendor; the script's
      table knows only two prefixes the server's does not. */
  lemma TablesAgree()
    ensures forall k :: k in ScriptVendors && k in ServerVendors ==> ScriptVendors[k] == ServerVendors[k]
    ensures forall k :: k in ScriptVendors && k !in ServerVendors ==> ScriptVendors[k] in {"Unknown (Local)", "Unknown"}
  {
    SharedPrefixes();
    LocalPrefixes();
    assert forall k :: k in ScriptVendors ==> k in {"B0:92:4A", "20:28:BC", "08:D2:3E", "0C:8B:FD", "FE:E3:D1", "6C:F6:DA"};
  }

  /** The server's vendors for the four prefixes the script names. */
  lemma SharedPrefixes()
    ensures ServerVendors["B0:92:4A"] == "D-Link" && ServerVendors["20:28:BC"] == "Samsung"
    ensures ServerVendors["08:D2:3E"] == "LG Electronics" && ServerVendors["0C:8B:FD"] == "Apple"
  {
  }

  /** The two prefixes only the script's table knows. */
  lemma LocalPrefixes()
    ensures "FE:E3:D1" !in ServerVendors && "6C:F6:DA" !in ServerVendors
  {
  }

  /** Where both tables know a prefix, the script names the vendor the
      server's fallback names. */
  lemma ScriptAgreesWithServer(mac: string)
    requires mac != "" && OuiKey(mac) in ScriptVendors && OuiKey(mac) in ServerVendors
    ensures ScriptMacVendor(mac) == TableLookup(ServerVendors, mac)
  {
    TablesAgree();
  }
}
