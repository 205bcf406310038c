/** The configuration store: one global kiosk configuration, updated through
    an allow-list, and a map of per-address overrides merged on top of it. */
module Config {
  import opened Values
  import opened Text

  /** A configuration object: property name to value. */
  type Config = map<string, Json>

  /** The only keys an update of the global configuration may set. */
  const AllowList: set<string> :=
    {"kioskUrl", "title", "footerText", "timezone", "disableContextMenu", "disableShortcuts"}

  /** `process.env[name] || fallback` */
  function EnvOr(env: map<string, string>, name: string, fallback: string): string {
    if name in env && env[name] != "" then env[name] else fallback
  }

  /** The defaults taken from the environment at start-up. */
  function EnvDefaults(env: map<string, string>): (c: Config)
    ensures c.Keys == AllowList
    ensures c["kioskUrl"] == JStr(if "KIOSK_URL" in env then env["KIOSK_URL"] else "")
    ensures c["title"] == JStr(if "KIOSK_TITLE" in env && env["KIOSK_TITLE"] != "" then env["KIOSK_TITLE"] else "Kiosk Display")
    ensures c["footerText"] == JStr(if "KIOSK_FOOTER_TEXT" in env && env["KIOSK_FOOTER_TEXT"] != "" then env["KIOSK_FOOTER_TEXT"] else " 2025 Kiosk System")
    ensures c["timezone"] == JStr(if "TIMEZONE" in env && env["TIMEZONE"] != "" then env["TIMEZONE"] else "UTC")
    ensures c["disableContextMenu"] == JBool(Lower(EnvOr(env, "DISABLE_CONTEXT_MENU", "true")) == "true")
    ensures c["disableShortcuts"] == JBool(Lower(EnvOr(env, "DISABLE_SHORTCUTS", "true")) == "true")
    ensures "DISABLE_CONTEXT_MENU" !in env ==> c["disableContextMenu"] == JBool(true)
    ensures "DISABLE_SHORTCUTS" !in env ==> c["disableShortcuts"] == JBool(true)
  {
    map[
      "kioskUrl" := JStr(EnvOr(env, "KIOSK_URL", "")),
      "title" := JStr(EnvOr(env, "KIOSK_TITLE", "Kiosk Display")),
      "footerText" := JStr(EnvOr(env, "KIOSK_FOOTER_TEXT", " 2025 Kiosk System")),
      "timezone" := JStr(EnvOr(env, "TIMEZONE", "UTC")),
      "disableContextMenu" := JBool(Lower(EnvOr(env, "DISABLE_CONTEXT_MENU", "true")) == "true"),
      "disableShortcuts" := JBool(Lower(EnvOr(env, "DISABLE_SHORTCUTS", "true")) == "true")
    ]
  }

  /** The allow-listed part of an update body. */
  function FilterAllowed(body: Config): (f: Config)
    ensures f.Keys == body.Keys * AllowList
    ensures forall k :: k in f ==> f[k] == body[k]
  {
    map k | k in body && k in AllowList :: body[k]
  }

  /** An update is refused when it carries a truthy `kioskUrl` that is not a
      valid URL (`validUrl` stands for the URL parser of the platform). */
  predicate BadUrl(body: Config, validUrl: Json -> bool) {
    var u := if "kioskUrl" in body then body["kioskUrl"] else JNull;
    Truthy(u) && !validUrl(u)
  }

  /** The global configuration after an update request. */
  function Updated(global: Config, body: Config, validUrl: Json -> bool): (g: Config)
    ensures BadUrl(body, validUrl) ==> g == global
    ensures !BadUrl(body, validUrl) ==> g.Keys == global.Keys + body.Keys * AllowList
  {
    if BadUrl(body, validUrl) then global else global + FilterAllowed(body)
  }

  /** The override stored for an address after a per-address request: the
      existing override (or an empty one) with every key of the body merged on
      top, without any allow-list. */
  function MergedOverride(overrides: map<string, Config>, ip: string, body: Config): (o: Config)
    ensures forall k :: k in body ==> k in o && o[k] == body[k]
    ensures ip in overrides ==> forall k :: k in overrides[ip] && k !in body ==> k in o && o[k] == overrides[ip][k]
    ensures o.Keys == body.Keys + (if ip in overrides then overrides[ip].Keys else {})
  {
    (if ip in overrides then overrides[ip] else map[]) + body
  }

  /** The configuration served to `ip`: the global one, overlaid by the
      address's override when there is one. */
  function ResolveFor(global: Config, overrides: map<string, Config>, ip: string): (c: Config)
    ensures ip !in overrides ==> c == global
    ensures ip in overrides ==> c.Keys == global.Keys + overrides[ip].Keys
    ensures ip in overrides ==> forall k :: k in c ==>
      c[k] == (if k in overrides[ip] then overrides[ip][k] else global[k])
  {
    if ip in overrides then global + overrides[ip] else global
  }

  datatype UpdateReply = InvalidUrl | Saved(config: Config)

  datatype OverrideReply = InvalidIp | InvalidOverrideUrl | OverrideSaved(ip: string, config: Config)

  class ConfigStore {
    var global: Config
    var overrides: map<string, Config>

    /** Start-up: environment defaults overlaid with the persisted record, and
        the persisted override map. */
    constructor (env: map<string, string>, persisted: Option<Config>, savedOverrides: map<string, Config>)
      ensures global == EnvDefaults(env) + (if persisted.Some? then persisted.value else map[])
      ensures overrides == savedOverrides
    {
      global := EnvDefaults(env) + (if persisted.Some? then persisted.value else map[]);
      overrides := savedOverrides;
    }

    /** The configuration served to a client at address `ip`. */
    function Resolve(ip: string): (c: Config)
      reads this
      ensures c == ResolveFor(global, overrides, ip)
    {
      ResolveFor(global, overrides, ip)
    }

    /** Update of the global configuration. A truthy, invalid `kioskUrl`
        refuses the whole update before anything changes; otherwise the
        allow-listed keys present in the body are copied in. */
    method Update(body: Config, validUrl: Json -> bool) returns (r: UpdateReply)
      modifies this
      ensures global == Updated(old(global), body, validUrl)
      ensures overrides == old(overrides)
      ensures r == if BadUrl(body, validUrl) then InvalidUrl else Saved(global)
    {
      var u := if "kioskUrl" in body then body["kioskUrl"] else JNull;
      if Truthy(u) && !validUrl(u) {
        return InvalidUrl;
      }
      var filtered: Config := map[];
      var keys := AllowList;
      while keys != {}
        invariant keys <= AllowList
        invariant filtered.Keys == body.Keys * (AllowList - keys)
        invariant forall k :: k in filtered ==> filtered[k] == body[k]
        decreases keys
      {
        var key :| key in keys;
        if key in body {
          filtered := filtered[key := body[key]];
        }
        keys := keys - {key};
      }
      assert filtered == FilterAllowed(body);
      global := global + filtered;
      r := Saved(global);
    }

    /** Per-address override. The address must be valid (`validIp` stands for
        the platform's IPv4/IPv6 check), and so must a truthy `kioskUrl`;
        then the body is merged into the existing override for that address. */
    method SetOverride(ip: string, body: Config, validIp: string -> bool, validUrl: Json -> bool)
      returns (r: OverrideReply)
      modifies this
      ensures global == old(global)
      ensures !validIp(ip) ==> r == InvalidIp && overrides == old(overrides)
      ensures validIp(ip) && BadUrl(body, validUrl) ==> r == InvalidOverrideUrl && overrides == old(overrides)
      ensures validIp(ip) && !BadUrl(body, validUrl) ==>
        var merged := MergedOverride(old(overrides), ip, body);
        r == OverrideSaved(ip, merged) && overrides == old(overrides)[ip := merged]
    {
      if !validIp(ip) {
        return InvalidIp;
      }
      var u := if "kioskUrl" in body then body["kioskUrl"] else JNull;
      if Truthy(u) && !validUrl(u) {
        return InvalidOverrideUrl;
      }
      var existing: Config := if ip in overrides then overrides[ip] else map[];
      var merged := existing + body;
      overrides := overrides[ip := merged];
      r := OverrideSaved(ip, merged);
    }
  }

  /** The global configuration after a sequence of update requests. */
  function UpdateAll(global: Config, bodies: seq<Config>, validUrl: Json -> bool): Config
    decreases |bodies|
  {
    if bodies == [] then global
    else UpdateAll(Updated(global, bodies[0], validUrl), bodies[1..], validUrl)
  }

  /** Whatever sequence of updates arrives, no key outside the allow-list is
      ever added to the global configuration, and the allow-listed keys are
      only ever added, never removed. */
  lemma {:induction false} UpdatesStayInAllowList(global: Config, bodies: seq<Config>, validUrl: Json -> bool)
    ensures global.Keys <= UpdateAll(global, bodies, validUrl).Keys <= global.Keys + AllowList
    ensures forall k :: k in global && k !in AllowList ==> UpdateAll(global, bodies, validUrl)[k] == global[k]
    decreases |bodies|
  {
    if bodies != [] {
      var g1 := Updated(global, bodies[0], validUrl);
      assert global.Keys <= g1.Keys <= global.Keys + AllowList;
      UpdatesStayInAllowList(g1, bodies[1..], validUrl);
    }
  }

  /** Starting from the environment defaults, the global configuration only
      ever holds the six allow-listed keys. */
  lemma FromDefaultsOnlyAllowList(env: map<string, string>, bodies: seq<Config>, validUrl: Json -> bool)
    ensures UpdateAll(EnvDefaults(env), bodies, validUrl).Keys == AllowList
  {
    UpdatesStayInAllowList(EnvDefaults(env), bodies, validUrl);
  }

  /** An accepted update sets exactly the allow-listed keys it carries and
      leaves every other key as it was. */
  lemma UpdateEffect(global: Config, body: Config, validUrl: Json -> bool)
    requires !BadUrl(body, validUrl)
    ensures forall k :: k in body && k in AllowList ==> Updated(global, body, validUrl)[k] == body[k]
    ensures forall k :: k in global && (k !in body || k !in AllowList) ==> Updated(global, body, validUrl)[k] == global[k]
  {
  }

  /** Overrides merge rather than replace: two requests for one address give
      the same override as one request carrying both bodies, the later values
      winning; so `{a:1}` then `{b:2}` yields `{a:1, b:2}`. */
  lemma {:induction false} OverrideMergesNotReplaces(overrides: map<string, Config>, ip: string, b1: Config, b2: Config)
    ensures MergedOverride(overrides[ip := MergedOverride(overrides, ip, b1)], ip, b2)
         == MergedOverride(overrides, ip, b1 + b2)
    ensures forall k :: k in b1 && k !in b2 ==>
      MergedOverride(overrides[ip := MergedOverride(overrides, ip, b1)], ip, b2)[k] == b1[k]
  {
    var e: Config := if ip in overrides then overrides[ip] else map[];
    var m1 := e + b1;
    assert overrides[ip := m1][ip] == m1;
    assert (e + b1) + b2 == e + (b1 + b2);
  }

  /** After an override is stored for an address, a client at that address is
      served the global configuration with the merged override on top. */
  lemma ResolveAfterOverride(global: Config, overrides: map<string, Config>, ip: string, body: Config, k: string)
    requires k in body
    ensures ResolveFor(global, overrides[ip := MergedOverride(overrides, ip, body)], ip)[k] == body[k]
  {
  }
}
