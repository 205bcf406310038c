/** LAN discovery: the merge of the device lists that several scanning methods
    return, the vendor and type enrichment of the merged devices, the
    hostname cache, and the nmap flag choice. Devices are JSON objects. */
module Discovery {
  import opened Values
  import opened Text
  import Vendor

  /** A device as a scanning method reports it: a JSON object. */
  type Device = map<string, Json>

  /** `d[k]`, where an absent property reads as `undefined`. */
  function Get(d: Device, k: string): Json {
    if k in d then d[k] else JNull
  }

  /** `v.length`: the length of an array or a string, the `length` property
      of an object, and `undefined` for anything else. */
  function JsLength(v: Json): Json {
    match v
    case JArr(items) => JNum(|items|)
    case JStr(s) => JNum(|s|)
    case JObj(fields) => if "length" in fields then fields["length"] else JNull
    case _ => JNull
  }

  /** `v.length > 0` */
  predicate HasItems(v: Json) {
    JsLength(v).JNum? && JsLength(v).n > 0
  }

  // ---------------------------------------------------------------------
  // Merging the results of the scanning methods

  /** One method's result: its name and the devices it found (an absent list
      reads as empty). */
  datatype Source = Source(scanner: Json, devices: seq<Device>)

  /** One device as one method reported it. */
  datatype Report = Report(scanner: Json, device: Device)

  /** The fields a later report may fill in. */
  const FillFields: seq<string> := ["mac", "hostname", "name", "vendor", "os", "osAccuracy", "ports", "services", "type"]

  /** A stored value that a later truthy value replaces: any falsy value,
      and also the placeholder name "Unknown Vendor" and an empty port or
      service list. */
  predicate Replaceable(f: string, v: Json) {
    || !Truthy(v)
    || (f == "name" && v == JStr("Unknown Vendor"))
    || ((f == "ports" || f == "services") && JsLength(v) == JNum(0))
  }

  function Fill(e: Device, d: Device, f: string): Device {
    if Truthy(Get(d, f)) && Replaceable(f, Get(e, f)) then e[f := d[f]] else e
  }

  /** The value of field `f` once a later report `d` has been merged into
      the stored fields `e`. */
  function Filled(e: Device, d: Device, f: string): Json {
    if f in FillFields && Truthy(Get(d, f)) && Replaceable(f, Get(e, f)) then Get(d, f) else Get(e, f)
  }

  /** The fill steps for the fields `fs`, one after the other. */
  function FillEach(e: Device, d: Device, fs: seq<string>): (r: Device)
    ensures forall f :: Get(r, f) == if f in fs && Truthy(Get(d, f)) && Replaceable(f, Get(e, f)) then Get(d, f) else Get(e, f)
    decreases |fs|
  {
    if fs == [] then e else Fill(FillEach(e, d, fs[..|fs| - 1]), d, fs[|fs| - 1])
  }

  /** The fill steps for one later report, field by field. */
  function FillAll(e: Device, d: Device): (r: Device)
    ensures forall f :: Get(r, f) == Filled(e, d, f)
  {
    FillEach(e, d, FillFields)
  }

  /** A merged device: its fields and the methods that reported it. */
  datatype Record = Record(fields: Device, sources: seq<Json>)

  /** The merge map: the addresses in order of first report, and a record
      per address. */
  datatype Merge = Merge(order: seq<Json>, recs: map<Json, Record>)

  /** Every address appears once in the order, the order lists exactly the
      addresses with a record, and each record's `ip` is its address. */
  ghost predicate MergeOk(m: Merge) {
    && (forall i, j :: 0 <= i < j < |m.order| ==> m.order[i] != m.order[j])
    && (forall k :: k in m.recs <==> k in m.order)
    && (forall k :: k in m.recs ==> Get(m.recs[k].fields, "ip") == k)
  }

  /** One report added to the merge: a new address starts a record from the
      device with the method as its only source; a known one gets the method
      appended and its empty fields filled. */
  function Add(m: Merge, r: Report): (n: Merge)
    ensures n.recs.Keys == m.recs.Keys + {Get(r.device, "ip")}
    ensures n.recs[Get(r.device, "ip")].sources ==
      (if Get(r.device, "ip") in m.recs then m.recs[Get(r.device, "ip")].sources else []) + [r.scanner]
    ensures forall k :: k in m.recs && k != Get(r.device, "ip") ==> n.recs[k] == m.recs[k]
    ensures n.order == if Get(r.device, "ip") in m.recs then m.order else m.order + [Get(r.device, "ip")]
  {
    var key := Get(r.device, "ip");
    if key !in m.recs then Merge(m.order + [key], m.recs[key := Record(r.device, [r.scanner])])
    else
      var prev := m.recs[key];
      Merge(m.order, m.recs[key := Record(FillAll(prev.fields, r.device), prev.sources + [r.scanner])])
  }

  /** The reports of one source, in order. */
  function Reports(s: Source): (rs: seq<Report>)
    ensures |rs| == |s.devices|
    ensures forall k :: 0 <= k < |rs| ==> rs[k] == Report(s.scanner, s.devices[k])
  {
    seq(|s.devices|, k requires 0 <= k < |s.devices| => Report(s.scanner, s.devices[k]))
  }

  /** The reports of all sources, source by source. */
  function AllReports(ss: seq<Source>): seq<Report>
    decreases |ss|
  {
    if ss == [] then [] else AllReports(ss[..|ss| - 1]) + Reports(ss[|ss| - 1])
  }

  /** The merge map after a list of reports. */
  function MergeAll(rs: seq<Report>): Merge
    decreases |rs|
  {
    if rs == [] then Merge([], map[]) else Add(MergeAll(rs[..|rs| - 1]), rs[|rs| - 1])
  }

  /** Adding a report keeps the merge map well formed. */
  lemma AddOk(m: Merge, r: Report)
    requires MergeOk(m)
    ensures MergeOk(Add(m, r))
  {
    var m' := Add(m, r);
    forall k | k in m'.recs
      ensures Get(m'.recs[k].fields, "ip") == k
    {
      if k in m.recs && k != Get(r.device, "ip") {
      } else if k in m.recs {
        assert Get(FillAll(m.recs[k].fields, r.device), "ip") == Filled(m.recs[k].fields, r.device, "ip");
      }
    }
  }

  lemma {:induction false} MergeAllOk(rs: seq<Report>)
    ensures MergeOk(MergeAll(rs))
    decreases |rs|
  {
    if rs != [] {
      MergeAllOk(rs[..|rs| - 1]);
      AddOk(MergeAll(rs[..|rs| - 1]), rs[|rs| - 1]);
    }
  }

  /** A merged record as the listing shows it, with its `sources` array. */
  function Output(r: Record): Device {
    r.fields["sources" := JArr(r.sources)]
  }

  /** `Array.from(deviceMap.values())` */
  function Listing(m: Merge): (ds: seq<Device>)
    requires MergeOk(m)
  {
    seq(|m.order|, i requires 0 <= i < |m.order| => Output(m.recs[m.order[i]]))
  }

  /** Adding one report at the end of a list of reports. */
  lemma MergeAllSnoc(rs: seq<Report>, r: Report)
    ensures MergeAll(rs + [r]) == Add(MergeAll(rs), r)
  {
    assert (rs + [r])[..|rs|] == rs;
  }

  lemma AllReportsSnoc(ss: seq<Source>, i: nat)
    requires i < |ss|
    ensures AllReports(ss[..i + 1]) == AllReports(ss[..i]) + Reports(ss[i])
  {
    assert ss[..i + 1][..i] == ss[..i];
  }

  lemma InnerStep(done: seq<Report>, rs: seq<Report>, j: nat)
    requires j < |rs|
    ensures MergeAll(done + rs[..j + 1]) == Add(MergeAll(done + rs[..j]), rs[j])
  {
    MergeAllSnoc(done + rs[..j], rs[j]);
    assert done + rs[..j + 1] == (done + rs[..j]) + [rs[j]];
  }

  /** The loop body of `mergeDeviceData` for one device. */
  method AddDevice(order: seq<Json>, recs: map<Json, Record>, scanner: Json, d: Device)
    returns (order': seq<Json>, recs': map<Json, Record>)
    ensures Merge(order', recs') == Add(Merge(order, recs), Report(scanner, d))
  {
    var key := Get(d, "ip");
    if key !in recs {
      order' := order + [key];
      recs' := recs[key := Record(d, [scanner])];
    } else {
      var prev := recs[key];
      order' := order;
      recs' := recs[key := Record(FillAll(prev.fields, d), prev.sources + [scanner])];
    }
  }

  /** `Array.from(deviceMap.values())`, entry by entry. */
  method ListRecords(m: Merge) returns (devices: seq<Device>)
    requires MergeOk(m)
    ensures devices == Listing(m)
  {
    devices := [];
    for k := 0 to |m.order|
      invariant |devices| == k
      invariant forall i :: 0 <= i < k ==> devices[i] == Output(m.recs[m.order[i]])
    {
      devices := devices + [Output(m.recs[m.order[k]])];
    }
  }

  /** `mergeDeviceData`: walks the sources and their devices, building the
      merge map, then lists it. */
  method MergeDeviceData(sources: seq<Source>) returns (devices: seq<Device>)
    ensures MergeOk(MergeAll(AllReports(sources)))
    ensures devices == Listing(MergeAll(AllReports(sources)))
  {
    var order: seq<Json> := [];
    var recs: map<Json, Record> := map[];
    for i := 0 to |sources|
      invariant Merge(order, recs) == MergeAll(AllReports(sources[..i]))
    {
      var s := sources[i];
      ghost var done := AllReports(sources[..i]);
      ghost var rs := Reports(s);
      assert done + rs[..0] == done;
      for j := 0 to |s.devices|
        invariant Merge(order, recs) == MergeAll(done + rs[..j])
      {
        order, recs := AddDevice(order, recs, s.scanner, s.devices[j]);
        InnerStep(done, rs, j);
      }
      AllReportsSnoc(sources, i);
      assert rs[..|s.devices|] == rs;
    }
    assert sources[..|sources|] == sources;
    MergeAllOk(AllReports(sources));
    devices := ListRecords(Merge(order, recs));
  }

  /** The first device reported for an address. */
  function FirstReport(rs: seq<Report>, ip: Json): Option<Device>
    decreases |rs|
  {
    if rs == [] then None
    else
      var first := FirstReport(rs[..|rs| - 1], ip);
      if first.Some? then first
      else if Get(rs[|rs| - 1].device, "ip") == ip then Some(rs[|rs| - 1].device)
      else None
  }

  /** The methods that reported an address, in order. */
  function MethodsFor(rs: seq<Report>, ip: Json): seq<Json>
    decreases |rs|
  {
    if rs == [] then []
    else
      var r := rs[|rs| - 1];
      MethodsFor(rs[..|rs| - 1], ip) + (if Get(r.device, "ip") == ip then [r.scanner] else [])
  }

  /** The first value reported for field `f` of an address that is not
      itself replaceable. */
  function Winner(rs: seq<Report>, ip: Json, f: string): (w: Option<Json>)
    ensures w.Some? ==> !Replaceable(f, w.value)
    decreases |rs|
  {
    if rs == [] then None
    else
      var w := Winner(rs[..|rs| - 1], ip, f);
      var d := rs[|rs| - 1].device;
      if w.Some? then w
      else if Get(d, "ip") == ip && Truthy(Get(d, f)) && !Replaceable(f, Get(d, f)) then Some(Get(d, f))
      else None
  }

  /** There is a merged device exactly for the reported addresses; it carries
      every method that reported it, in report order, and takes the fields
      that are never filled in from the first report. */
  lemma {:induction false} MergeRecords(rs: seq<Report>, ip: Json)
    ensures ip in MergeAll(rs).recs <==> FirstReport(rs, ip).Some?
    ensures ip !in MergeAll(rs).recs ==> MethodsFor(rs, ip) == []
    ensures ip in MergeAll(rs).recs ==> MergeAll(rs).recs[ip].sources == MethodsFor(rs, ip)
    ensures ip in MergeAll(rs).recs ==>
      forall f :: f !in FillFields ==> Get(MergeAll(rs).recs[ip].fields, f) == Get(FirstReport(rs, ip).value, f)
    decreases |rs|
  {
    if rs != [] {
      MergeRecords(rs[..|rs| - 1], ip);
    }
  }

  /** A field that later reports fill holds the first value reported for it
      that is not replaceable; when there is none it holds a replaceable
      value. */
  lemma {:induction false} MergeFills(rs: seq<Report>, ip: Json, f: string)
    requires f in FillFields && ip in MergeAll(rs).recs
    ensures var v := Get(MergeAll(rs).recs[ip].fields, f);
      if Winner(rs, ip, f).Some? then v == Winner(rs, ip, f).value else Replaceable(f, v)
    decreases |rs|
  {
    var prefix := rs[..|rs| - 1];
    var r := rs[|rs| - 1];
    var m0 := MergeAll(prefix);
    assert MergeAll(rs) == Add(m0, r);
    if Get(r.device, "ip") != ip {
      MergeFills(prefix, ip, f);
      assert MergeAll(rs).recs[ip] == m0.recs[ip];
    } else if ip in m0.recs {
      MergeFills(prefix, ip, f);
      var e := m0.recs[ip].fields;
      assert MergeAll(rs).recs[ip].fields == FillAll(e, r.device);
      assert Get(FillAll(e, r.device), f) == Filled(e, r.device, f);
      if Winner(prefix, ip, f).Some? {
        assert Winner(rs, ip, f) == Winner(prefix, ip, f);
        assert Filled(e, r.device, f) == Get(e, f);
      }
    } else {
      MergeRecords(prefix, ip);
      NoReportNoWinner(prefix, ip, f);
      assert MergeAll(rs).recs[ip].fields == r.device;
    }
  }

  lemma {:induction false} NoReportNoWinner(rs: seq<Report>, ip: Json, f: string)
    requires FirstReport(rs, ip).None?
    ensures Winner(rs, ip, f).None?
    decreases |rs|
  {
    if rs != [] {
      NoReportNoWinner(rs[..|rs| - 1], ip, f);
    }
  }

  /** The listing holds one device per address, each carrying its address as
      `ip` and its reporting methods as `sources`. */
  lemma ListingOnePerAddress(sources: seq<Source>)
    ensures MergeOk(MergeAll(AllReports(sources)))
    ensures var m := MergeAll(AllReports(sources)); var out := Listing(m);
      && (forall i, j :: 0 <= i < j < |out| ==> Get(out[i], "ip") != Get(out[j], "ip"))
      && (forall i :: 0 <= i < |out| ==> Get(out[i], "sources") == JArr(MethodsFor(AllReports(sources), Get(out[i], "ip"))))
  {
    var rs := AllReports(sources);
    MergeAllOk(rs);
    var m := MergeAll(rs);
    var out := Listing(m);
    forall i | 0 <= i < |out|
      ensures Get(out[i], "ip") == m.order[i]
      ensures Get(out[i], "sources") == JArr(MethodsFor(rs, m.order[i]))
    {
      MergeRecords(rs, m.order[i]);
    }
  }

  // ---------------------------------------------------------------------
  // Device type

  /** The labels `identifyDeviceType` gives. */
  const DeviceTypes: set<string> := {
    "Printer", "Media Device", "File Server", "Web Server", "Windows PC", "VNC Server",
    "Linux/Unix Server", "Linux Device", "Mac", "iOS Device", "Android Device", "Raspberry Pi",
    "Apple Device", "Samsung Device", "Network Device", "Router/Switch", "Virtual Machine", "Unknown"}

  predicate SomeHas(ts: seq<string>, w: string) {
    exists i :: 0 <= i < |ts| && Contains(ts[i], w)
  }

  /** `services.map(s => s.type.toLowerCase())`: `None` where an entry has no
      string `type` (a TypeError). */
  function ServiceTypes(items: seq<Json>): (r: Option<seq<string>>)
    ensures r.Some? ==> |r.value| == |items|
    ensures r.None? <==> exists i :: 0 <= i < |items| && !Field(items[i], "type").JStr?
    ensures r.Some? ==> forall i :: 0 <= i < |items| ==>
      Field(items[i], "type").JStr? && r.value[i] == Lower(Field(items[i], "type").s)
    decreases |items|
  {
    if items == [] then Some([])
    else
      var t := Field(items[0], "type");
      var rest := ServiceTypes(items[1..]);
      assert forall i :: 1 <= i < |items| ==> items[i] == items[1..][i - 1];
      if !t.JStr? then None
      else if rest.None? then
        var j :| 0 <= j < |items[1..]| && !Field(items[1..][j], "type").JStr?;
        assert !Field(items[j + 1], "type").JStr?;
        None
      else Some([Lower(t.s)] + rest.value)
  }

  /** The port numbers and lower-case service names of a port list. */
  datatype PortView = PortView(numbers: seq<Json>, services: seq<string>)

  /** `p.service?.toLowerCase() || ''` */
  function ServiceName(p: Json): Option<string> {
    var s := Field(p, "service");
    if s.JNull? then Some("") else if s.JStr? then Some(Lower(s.s)) else None
  }

  /** The two maps over a port list: `None` where an entry is `null` or has
      a service that is not a string (a TypeError). */
  function Ports(items: seq<Json>): (r: Option<PortView>)
    ensures r.Some? ==> |r.value.numbers| == |items| == |r.value.services|
    ensures r.None? <==> exists i :: 0 <= i < |items| && (items[i].JNull? || ServiceName(items[i]).None?)
    ensures r.Some? ==> forall i :: 0 <= i < |items| ==>
      && r.value.numbers[i] == Field(items[i], "port")
      && ServiceName(items[i]).Some? && r.value.services[i] == ServiceName(items[i]).value
    decreases |items|
  {
    if items == [] then Some(PortView([], []))
    else
      var rest := Ports(items[1..]);
      var name := ServiceName(items[0]);
      assert forall i :: 1 <= i < |items| ==> items[i] == items[1..][i - 1];
      if items[0].JNull? || name.None? then None
      else if rest.None? then
        var j :| 0 <= j < |items[1..]| && (items[1..][j].JNull? || ServiceName(items[1..][j]).None?);
        assert items[j + 1].JNull? || ServiceName(items[j + 1]).None?;
        None
      else Some(PortView([Field(items[0], "port")] + rest.value.numbers, [name.value] + rest.value.services))
  }

  function FromServices(types: seq<string>): Option<string> {
    if SomeHas(types, "printer") || SomeHas(types, "ipp") then Some("Printer")
    else if SomeHas(types, "airplay") || SomeHas(types, "raop") then Some("Media Device")
    else if SomeHas(types, "smb") || SomeHas(types, "afp") then Some("File Server")
    else if SomeHas(types, "http") || SomeHas(types, "https") then Some("Web Server")
    else None
  }

  function FromPorts(p: PortView): Option<string> {
    if JNum(3389) in p.numbers then Some("Windows PC")
    else if JNum(5900) in p.numbers then Some("VNC Server")
    else if JNum(22) in p.numbers && SomeHas(p.services, "ssh") then Some("Linux/Unix Server")
    else if JNum(80) in p.numbers || JNum(443) in p.numbers then Some("Web Server")
    else if SomeHas(p.services, "printer") then Some("Printer")
    else None
  }

  function FromOs(os: string): Option<string> {
    if Contains(os, "windows") then Some("Windows PC")
    else if Contains(os, "linux") then Some("Linux Device")
    else if Contains(os, "mac") || Contains(os, "darwin") then Some("Mac")
    else if Contains(os, "ios") then Some("iOS Device")
    else if Contains(os, "android") then Some("Android Device")
    else None
  }

  function FromVendor(vendor: string): Option<string> {
    if Contains(vendor, "raspberry") then Some("Raspberry Pi")
    else if Contains(vendor, "apple") then Some("Apple Device")
    else if Contains(vendor, "samsung") then Some("Samsung Device")
    else if Contains(vendor, "cisco") then Some("Network Device")
    else if Contains(vendor, "tp-link") || Contains(vendor, "d-link") then Some("Router/Switch")
    else if Contains(vendor, "vmware") || Contains(vendor, "virtualbox") then Some("Virtual Machine")
    else None
  }

  /** The outcome of classifying a device: a label, or a TypeError. */
  datatype Kind = Label(name: string) | TypeError

  /** The service types a device offers, as far as the first test reads
      them: no services when the list is falsy or empty. */
  function DeviceServices(device: Device): Option<seq<string>> {
    var v := Get(device, "services");
    if !Truthy(v) || !HasItems(v) then Some([])
    else if v.JArr? then ServiceTypes(v.items)
    else None
  }

  function DevicePorts(device: Device): Option<PortView> {
    var v := Get(device, "ports");
    if !Truthy(v) || !HasItems(v) then Some(PortView([], []))
    else if v.JArr? then Ports(v.items)
    else None
  }

  /** A truthy text field read with `toLowerCase()`: `None` for a falsy
      value, a TypeError for a value that is not a string. */
  function LowerField(device: Device, f: string): Option<Option<string>> {
    var v := Get(device, f);
    if !Truthy(v) then Some(None)
    else if v.JStr? then Some(Some(Lower(v.s)))
    else None
  }

  /** `identifyDeviceType`: the first rule that fires, by services, then
      ports, then operating system, then vendor; "Unknown" when none does. */
  function IdentifyDeviceType(device: Device): (k: Kind)
    ensures k.Label? ==> k.name in DeviceTypes
  {
    var services := DeviceServices(device);
    if services.None? then TypeError
    else if FromServices(services.value).Some? then Label(FromServices(services.value).value)
    else
      var ports := DevicePorts(device);
      if ports.None? then TypeError
      else if FromPorts(ports.value).Some? then Label(FromPorts(ports.value).value)
      else
        var os := LowerField(device, "os");
        if os.None? then TypeError
        else if os.value.Some? && FromOs(os.value.value).Some? then Label(FromOs(os.value.value).value)
        else
          var vendor := LowerField(device, "vendor");
          if vendor.None? then TypeError
          else if vendor.value.Some? && FromVendor(vendor.value.value).Some? then Label(FromVendor(vendor.value.value).value)
          else Label("Unknown")
  }

  /** Well-formed fields: a service list of entries with a string `type`, a
      port list without `null` entries or non-string services, and a string
      operating system and vendor, each possibly absent. */
  predicate WellTyped(device: Device) {
    && DeviceServices(device).Some?
    && DevicePorts(device).Some?
    && LowerField(device, "os").Some?
    && LowerField(device, "vendor").Some?
  }

  /** A device with well-formed fields always gets a label; the label is
      "Unknown" exactly when no rule fires. */
  lemma IdentifyWellTyped(device: Device)
    requires WellTyped(device)
    ensures IdentifyDeviceType(device).Label?
    ensures var os := LowerField(device, "os").value; var vendor := LowerField(device, "vendor").value;
      IdentifyDeviceType(device) == Label("Unknown") <==>
        && FromServices(DeviceServices(device).value).None?
        && FromPorts(DevicePorts(device).value).None?
        && (os.None? || FromOs(os.value).None?)
        && (vendor.None? || FromVendor(vendor.value).None?)
  {
    var services := DeviceServices(device).value;
    var ports := DevicePorts(device).value;
    if FromServices(services).Some? {
      assert FromServices(services).value != "Unknown";
    } else if FromPorts(ports).Some? {
      assert FromPorts(ports).value != "Unknown";
    }
  }

  /** The services decide first: a device offering a printer service is a
      printer whatever its ports, system or vendor say. */
  lemma PrinterServiceWins(device: Device, types: seq<string>, i: nat)
    requires DeviceServices(device) == Some(types)
    requires i < |types| && Contains(types[i], "printer")
    ensures IdentifyDeviceType(device) == Label("Printer")
  {
  }

  /** An open RDP port makes a Windows PC unless a service rule fired. */
  lemma RdpPortMeansWindows(device: Device)
    requires DeviceServices(device).Some? && FromServices(DeviceServices(device).value).None?
    requires DevicePorts(device).Some? && JNum(3389) in DevicePorts(device).value.numbers
    ensures IdentifyDeviceType(device) == Label("Windows PC")
  {
  }

  /** A device with no services, ports, system or vendor is "Unknown". */
  lemma BareDeviceUnknown(device: Device)
    requires !Truthy(Get(device, "services")) && !Truthy(Get(device, "ports"))
    requires !Truthy(Get(device, "os")) && !Truthy(Get(device, "vendor"))
    ensures IdentifyDeviceType(device) == Label("Unknown")
  {
    assert !SomeHas([], "printer") && !SomeHas([], "ipp");
  }

  // ---------------------------------------------------------------------
  // Enrichment of the merged devices

  /** The vendor step: a device with a MAC and no vendor gets the vendor of
      its MAC. `None` stands for the TypeError of a truthy MAC that is not a
      string. */
  function WithVendor(d: Device, oui: string -> Option<string>, suffix: string -> nat): (r: Option<Device>)
    ensures r.None? <==> Truthy(Get(d, "mac")) && !Truthy(Get(d, "vendor")) && !Get(d, "mac").JStr?
    ensures r.Some? ==> forall k :: k != "vendor" ==> Get(r.value, k) == Get(d, k)
    ensures r.Some? && Truthy(Get(d, "mac")) ==> Truthy(Get(r.value, "vendor"))
    ensures r.Some? && Truthy(Get(d, "mac")) && !Truthy(Get(d, "vendor")) ==>
      Get(r.value, "vendor") == JStr(Vendor.GetMacVendor(Get(d, "mac").s, oui, suffix))
    ensures !Truthy(Get(d, "mac")) || Truthy(Get(d, "vendor")) ==> r == Some(d)
  {
    var mac := Get(d, "mac");
    if !Truthy(mac) || Truthy(Get(d, "vendor")) then Some(d)
    else if mac.JStr? then Some(d["vendor" := JStr(Vendor.GetMacVendor(mac.s, oui, suffix))])
    else None
  }

  /** The name step: a device without a real name is named by its hostname,
      else its vendor, else "Unknown Device". */
  function WithName(e: Device): (r: Device)
    ensures forall k :: k != "name" ==> Get(r, k) == Get(e, k)
    ensures Truthy(Get(r, "name"))
    ensures Truthy(Get(e, "name")) && Get(e, "name") != JStr("Unknown Vendor") ==> r == e
    ensures !Truthy(Get(e, "name")) || Get(e, "name") == JStr("Unknown Vendor") ==>
      Get(r, "name") == if Truthy(Get(e, "hostname")) then Get(e, "hostname")
        else if Truthy(Get(e, "vendor")) then Get(e, "vendor") else JStr("Unknown Device")
  {
    var name := Get(e, "name");
    if !Truthy(name) || name == JStr("Unknown Vendor")
    then e["name" := Or(Or(Get(e, "hostname"), Get(e, "vendor")), JStr("Unknown Device"))]
    else e
  }

  /** The type step: a device without a type gets the one the rules give.
      `None` stands for a TypeError of the rules. */
  function WithType(e: Device): (r: Option<Device>)
    ensures Truthy(Get(e, "deviceType")) ==> r == Some(e)
    ensures !Truthy(Get(e, "deviceType")) ==> (r.None? <==> IdentifyDeviceType(e).TypeError?)
    ensures r.Some? ==> forall k :: k != "deviceType" ==> Get(r.value, k) == Get(e, k)
    ensures r.Some? ==> Truthy(Get(r.value, "deviceType"))
    ensures r.Some? && !Truthy(Get(e, "deviceType")) ==>
      Get(r.value, "deviceType") == JStr(IdentifyDeviceType(e).name)
  {
    if Truthy(Get(e, "deviceType")) then Some(e)
    else
      var kind := IdentifyDeviceType(e);
      if kind.TypeError? then None
      else
        assert kind.name != "";
        Some(e["deviceType" := JStr(kind.name)])
  }

  /** The vendor, name and type enrichment of one merged device. `oui` and
      `suffix` are the parameters of `Vendor.GetMacVendor`. `None` stands
      for a TypeError. */
  function Enrich(d: Device, oui: string -> Option<string>, suffix: string -> nat): (r: Option<Device>)
    ensures r.Some? ==> forall k :: k != "vendor" && k != "name" && k != "deviceType" ==> Get(r.value, k) == Get(d, k)
    ensures r.Some? ==> Truthy(Get(r.value, "name")) && Truthy(Get(r.value, "deviceType"))
    ensures r.None? <==> WithVendor(d, oui, suffix).None? || WithType(WithName(WithVendor(d, oui, suffix).value)).None?
  {
    var e1 := WithVendor(d, oui, suffix);
    if e1.None? then None else WithType(WithName(e1.value))
  }

  /** The fields an enrichment sets: the vendor of the MAC when there was
      none, the name from the hostname, the vendor or "Unknown Device" when
      there was no real name, the type the rules give the named device when
      there was none; every present vendor, real name and type is kept. */
  lemma EnrichFields(d: Device, oui: string -> Option<string>, suffix: string -> nat)
    requires Enrich(d, oui, suffix).Some?
    ensures var r := Enrich(d, oui, suffix).value;
      && (Truthy(Get(d, "mac")) ==> Truthy(Get(r, "vendor")))
      && (Truthy(Get(d, "vendor")) ==> Get(r, "vendor") == Get(d, "vendor"))
      && (Truthy(Get(d, "deviceType")) ==> Get(r, "deviceType") == Get(d, "deviceType"))
      && (Truthy(Get(d, "name")) && Get(d, "name") != JStr("Unknown Vendor") ==> Get(r, "name") == Get(d, "name"))
    ensures var r := Enrich(d, oui, suffix).value;
      Get(d, "mac").JStr? && Truthy(Get(d, "mac")) && !Truthy(Get(d, "vendor")) ==>
        Get(r, "vendor") == JStr(Vendor.GetMacVendor(Get(d, "mac").s, oui, suffix))
    ensures var r := Enrich(d, oui, suffix).value;
      !Truthy(Get(d, "name")) || Get(d, "name") == JStr("Unknown Vendor") ==>
        Get(r, "name") == Or(Or(Get(d, "hostname"), Get(r, "vendor")), JStr("Unknown Device"))
    ensures var r := Enrich(d, oui, suffix).value;
      !Truthy(Get(d, "deviceType")) ==>
        var named := WithName(WithVendor(d, oui, suffix).value);
        IdentifyDeviceType(named).Label? && Get(r, "deviceType") == JStr(IdentifyDeviceType(named).name)
  {
    var e1 := WithVendor(d, oui, suffix).value;
    var e2 := WithName(e1);
    assert Get(e2, "vendor") == Get(e1, "vendor") && Get(e2, "hostname") == Get(d, "hostname");
    assert Get(e2, "deviceType") == Get(d, "deviceType");
  }

  /** Enrichment is idempotent: an enriched device already has its vendor, a
      name the rules would give it again, and its type, so enriching it once
      more changes nothing. */
  lemma EnrichIdempotent(d: Device, oui: string -> Option<string>, suffix: string -> nat)
    requires Enrich(d, oui, suffix).Some?
    ensures Enrich(Enrich(d, oui, suffix).value, oui, suffix) == Enrich(d, oui, suffix)
  {
    var r := Enrich(d, oui, suffix).value;
    assert WithVendor(r, oui, suffix) == Some(r);
    var name := Get(r, "name");
    if name == JStr("Unknown Vendor") {
      assert Get(WithName(r), "name") == name;
      assert WithName(r) == r;
    }
    assert WithName(r) == r;
    assert WithType(r) == Some(r);
  }

  // ---------------------------------------------------------------------
  // Hostnames

  /** How long a resolved hostname is reused: one hour, in milliseconds. */
  const HostnameTtl := 3600 * 1000

  datatype CacheEntry = CacheEntry(hostname: string, timestamp: int)

  /** The first result that is a non-empty string other than the address
      itself. */
  function FirstAcceptable(results: seq<Json>, ip: Json): (h: Option<string>)
    ensures h.Some? ==> h.value != "" && JStr(h.value) != ip && JStr(h.value) in results
    ensures h.None? ==> forall i :: 0 <= i < |results| ==> !(results[i].JStr? && results[i].s != "" && results[i] != ip)
    ensures h.Some? ==> exists i :: (0 <= i < |results| && results[i] == JStr(h.value)
      && forall j :: 0 <= j < i ==> !(results[j].JStr? && results[j].s != "" && results[j] != ip))
    decreases |results|
  {
    if results == [] then None
    else if results[0].JStr? && results[0].s != "" && results[0] != ip then Some(results[0].s)
    else
      var h := FirstAcceptable(results[1..], ip);
      if h.Some? then
        var i :| (0 <= i < |results[1..]| && results[1..][i] == JStr(h.value)
          && forall j :: 0 <= j < i ==> !(results[1..][j].JStr? && results[1..][j].s != "" && results[1..][j] != ip));
        assert results[i + 1] == JStr(h.value);
        assert forall j :: 0 <= j < i + 1 ==> !(results[j].JStr? && results[j].s != "" && results[j] != ip) by {
          forall j | 0 <= j < i + 1
            ensures !(results[j].JStr? && results[j].s != "" && results[j] != ip)
          {
            if j > 0 {
              assert results[j] == results[1..][j - 1];
            }
          }
        }
        h
      else h
  }

  /** The hostname cache of the server. */
  class HostnameCache {
    var entries: map<Json, CacheEntry>

    /** Every cached name is non-empty, so a cache hit is never mistaken for
        a miss. */
    predicate Valid()
      reads this
    {
      forall ip :: ip in entries ==> entries[ip].hostname != ""
    }

    constructor()
      ensures Valid() && entries == map[]
    {
      entries := map[];
    }

    /** `getCachedHostname`: a hostname stored less than an hour ago. */
    function Lookup(ip: Json, now: int): (h: Option<string>)
      reads this
      ensures h.Some? <==> ip in entries && now - entries[ip].timestamp < HostnameTtl
      ensures h.Some? ==> h.value == entries[ip].hostname
      ensures Valid() && h.Some? ==> h.value != ""
    {
      if ip in entries && now - entries[ip].timestamp < HostnameTtl then Some(entries[ip].hostname) else None
    }

    /** `cacheHostname`: stores a truthy hostname for a truthy address. */
    method Store(ip: Json, hostname: string, now: int)
      requires Valid()
      modifies this
      ensures Valid()
      ensures entries == if Truthy(ip) && hostname != "" then old(entries)[ip := CacheEntry(hostname, now)] else old(entries)
    {
      if Truthy(ip) && hostname != "" {
        entries := entries[ip := CacheEntry(hostname, now)];
      }
    }

    /** `resolveHostname`: a fresh cached name if there is one; otherwise
        the first acceptable result of the resolvers, which is then cached.
        `results` are the resolvers' answers. */
    method Resolve(ip: Json, now: int, results: seq<Json>) returns (h: Option<string>)
      requires Valid()
      modifies this
      ensures Valid()
      ensures h.Some? ==> h.value != ""
      ensures old(Lookup(ip, now)).Some? ==> h == old(Lookup(ip, now)) && entries == old(entries)
      ensures old(Lookup(ip, now)).None? ==> h == FirstAcceptable(results, ip)
      ensures old(Lookup(ip, now)).None? && h.Some? ==>
        entries == if Truthy(ip) then old(entries)[ip := CacheEntry(h.value, now)] else old(entries)
      ensures h.None? ==> entries == old(entries)
    {
      h := Lookup(ip, now);
      if h.Some? {
        return;
      }
      h := FirstAcceptable(results, ip);
      if h.Some? {
        Store(ip, h.value, now);
      }
    }

    /** Fills a device's missing hostname by resolving its address. */
    method FillHostname(d: Device, now: int, results: seq<Json>) returns (r: Device)
      requires Valid()
      modifies this
      ensures Valid()
      ensures Truthy(Get(d, "hostname")) ==> r == d && entries == old(entries)
      ensures !Truthy(Get(d, "hostname")) ==> forall k :: k != "hostname" ==> Get(r, k) == Get(d, k)
      ensures !Truthy(Get(d, "hostname")) && old(Lookup(Get(d, "ip"), now)).Some? ==>
        Get(r, "hostname") == JStr(old(Lookup(Get(d, "ip"), now)).value) && entries == old(entries)
      ensures !Truthy(Get(d, "hostname")) && old(Lookup(Get(d, "ip"), now)).None? ==>
        var h := FirstAcceptable(results, Get(d, "ip"));
        && Get(r, "hostname") == (if h.Some? then JStr(h.value) else Get(d, "hostname"))
        && entries == if h.Some? && Truthy(Get(d, "ip")) then old(entries)[Get(d, "ip") := CacheEntry(h.value, now)] else old(entries)
    {
      if Truthy(Get(d, "hostname")) {
        return d;
      }
      var h := Resolve(Get(d, "ip"), now, results);
      r := if h.Some? then d["hostname" := JStr(h.value)] else d;
    }
  }

  /** A stored hostname is served for one hour and not after. */
  lemma CacheExpiry(entries: map<Json, CacheEntry>, ip: Json, hostname: string, stored: int, now: int)
    requires Truthy(ip) && hostname != ""
    ensures var e := entries[ip := CacheEntry(hostname, stored)];
      (now - stored < HostnameTtl) <==> (ip in e && now - e[ip].timestamp < HostnameTtl)
  {
  }

  /** Every cached hostname passed the acceptance test for its address. */
  predicate CacheSound(entries: map<Json, CacheEntry>) {
    forall ip :: ip in entries ==> entries[ip].hostname != "" && JStr(entries[ip].hostname) != ip
  }

  /** Resolving keeps the cache sound, so a cache hit also answers with a
      non-empty name other than the address. */
  lemma ResolveKeepsSound(entries: map<Json, CacheEntry>, ip: Json, results: seq<Json>, now: int)
    requires CacheSound(entries)
    ensures var h := FirstAcceptable(results, ip);
      h.Some? ==> CacheSound(entries[ip := CacheEntry(h.value, now)])
  {
  }

  // ---------------------------------------------------------------------
  // nmap flags

  /** The nmap arguments for the scan options. */
  function NmapFlags(aggressive: bool, osDetection: bool, ports: Json): (f: string)
    ensures aggressive ==> f == "-A --osscan-guess"
    ensures !aggressive && osDetection ==> f == "-O --osscan-guess -sV"
    ensures !aggressive && !osDetection && Truthy(ports) ==> f == "-sV -p " + StringOf(ports)
    ensures f == "-sn -PR" <==> !aggressive && !osDetection && !Truthy(ports)
  {
    if aggressive then "-A --osscan-guess"
    else if osDetection then "-O --osscan-guess -sV"
    else if Truthy(ports) then
      var f := "-sV -p " + StringOf(ports);
      assert f[2] != "-sn -PR"[2];
      f
    else "-sn -PR"
  }

  /** The nmap arguments the scan endpoint uses for a scan mode: nmap runs
      in the fast, detailed and aggressive modes only. */
  function ScanNmapFlags(mode: Json, ports: Json): (f: Option<string>)
    ensures f.Some? <==> Or(mode, JStr("fast")) in {JStr("fast"), JStr("detailed"), JStr("aggressive")}
    ensures !Truthy(mode) ==> f == Some("-sn -PR")
    ensures mode == JStr("fast") ==> f == Some("-sn -PR")
    ensures mode == JStr("detailed") ==> f == Some("-O --osscan-guess -sV")
    ensures mode == JStr("aggressive") ==> f == Some("-A --osscan-guess")
  {
    var scanMode := Or(mode, JStr("fast"));
    if scanMode == JStr("detailed") || scanMode == JStr("aggressive") then
      var portList := Or(ports, JStr(if scanMode == JStr("aggressive") then "1-1000" else "22,80,443,3389,5900"));
      Some(NmapFlags(scanMode == JStr("aggressive"), true, portList))
    else if scanMode == JStr("fast") then Some(NmapFlags(false, false, JNull))
    else None
  }

  /** The port-list flags are never chosen by the scan endpoint: every mode
      that passes ports also asks for OS detection, which takes precedence. */
  lemma ScanNeverPortScan(mode: Json, ports: Json)
    ensures var f := ScanNmapFlags(mode, ports);
      f.Some? ==> f.value in {"-A --osscan-guess", "-O --osscan-guess -sV", "-sn -PR"}
  {
  }
}
