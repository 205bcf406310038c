/** Remote restart and deploy over SSH: the choice of target addresses, the
    commands sent to each host, and the rules that turn what each host
    answered into a per-host result. The SSH session itself is a parameter:
    `reach(ip)` is the error of connecting (and, for a deploy, of uploading
    the client script), if any, and `exec(ip, command)` what running the
    command gave. `stringify` stands for `JSON.stringify`. */
module Remote {
  import opened Values
  import opened Text
  import opened Address

  // ---------------------------------------------------------------------
  // Target addresses

  predicate AllDigits(s: string) {
    forall i :: 0 <= i < |s| ==> IsDigit(s[i])
  }

  /** `/^(?:[0-9]{1,3}\.){3}[0-9]{1,3}$/`: four runs of one to three digits
      separated by dots. */
  predicate QuadPattern(s: string) {
    var parts := Split(s, '.');
    |parts| == 4 && forall i :: 0 <= i < 4 ==> 1 <= |parts[i]| <= 3 && AllDigits(parts[i])
  }

  /** The numbers of an address that matches the pattern. */
  function QuadNumbers(s: string): (ns: seq<nat>)
    requires QuadPattern(s)
    ensures |ns| == 4 && forall i :: 0 <= i < 4 ==> ns[i] <= 999
  {
    var parts := Split(s, '.');
    DigitsValueBound(parts[0]);
    DigitsValueBound(parts[1]);
    DigitsValueBound(parts[2]);
    DigitsValueBound(parts[3]);
    [DigitsValue(parts[0]), DigitsValue(parts[1]), DigitsValue(parts[2]), DigitsValue(parts[3])]
  }

  /** At most three digits read as a number below 1000. */
  lemma {:induction false} DigitsValueBound(s: string)
    requires AllDigits(s) && |s| <= 3
    ensures DigitsValue(s) <= 999
    ensures |s| <= 2 ==> DigitsValue(s) <= 99
    ensures |s| <= 1 ==> DigitsValue(s) <= 9
    decreases |s|
  {
    if s != [] {
      DigitsValueBound(s[..|s| - 1]);
    }
  }

  /** The address filter of `getLanDeviceIps` as the source writes it: the
      pattern, a first number below 224 and a last number other than 0 and
      255. The other numbers are not bounded, and the last only by its three
      digits. */
  predicate LanTargetAsWritten(ip: string) {
    QuadPattern(ip) && QuadNumbers(ip)[0] < 224 && QuadNumbers(ip)[3] != 255 && QuadNumbers(ip)[3] != 0
  }

  /** The address filter with every number bounded by 255, as an IPv4
      address requires. */
  predicate LanTarget(ip: string)
    ensures LanTarget(ip) <==> LanTargetAsWritten(ip) && forall i :: 0 <= i < 4 ==> QuadNumbers(ip)[i] <= 255
  {
    && QuadPattern(ip)
    && (forall i :: 0 <= i < 4 ==> QuadNumbers(ip)[i] <= 255)
    && QuadNumbers(ip)[0] < 224 && QuadNumbers(ip)[3] != 255 && QuadNumbers(ip)[3] != 0
  }

  /** The filter's test of one candidate, as the source writes it:
      `Some(keep)`, or `None` for the TypeError of a non-string value whose
      `String` form matches the pattern (it has no `split`). */
  function TargetCheck(v: Json): Option<bool> {
    if !Truthy(v) || !QuadPattern(StringOf(v)) then Some(false)
    else if !v.JStr? then None
    else Some(LanTargetAsWritten(v.s))
  }

  /** `ips.filter(...)`: `None` when the test throws for some candidate. */
  function KeepTargets(ips: seq<Json>): (r: Option<seq<Json>>)
    ensures r.None? <==> exists i :: 0 <= i < |ips| && TargetCheck(ips[i]).None?
    ensures r.Some? ==> forall i :: 0 <= i < |r.value| ==> r.value[i].JStr? && LanTargetAsWritten(r.value[i].s)
    ensures r.Some? ==> forall i :: 0 <= i < |ips| && ips[i].JStr? && LanTargetAsWritten(ips[i].s) ==> ips[i] in r.value
    ensures r.Some? ==> forall i :: 0 <= i < |r.value| ==> r.value[i] in ips
    decreases |ips|
  {
    if ips == [] then Some([])
    else
      var keep := TargetCheck(ips[0]);
      var rest := KeepTargets(ips[1..]);
      assert forall i :: 1 <= i < |ips| ==> ips[i] == ips[1..][i - 1];
      if keep.None? then None
      else if rest.None? then
        var j :| 0 <= j < |ips[1..]| && TargetCheck(ips[1..][j]).None?;
        assert TargetCheck(ips[j + 1]).None?;
        None
      else
        Some((if keep.value then [ips[0]] else []) + rest.value)
  }

  /** `getLanDeviceIps`: the explicit hosts when a non-empty array is given,
      else the addresses a LAN scan found (`scanned`, empty when the scan
      failed), filtered. */
  function TargetIps(hosts: Json, scanned: seq<Json>): (r: Option<seq<Json>>)
    ensures var candidates := if hosts.JArr? && |hosts.items| > 0 then hosts.items else scanned;
      && r == KeepTargets(candidates)
      && (r.None? <==> exists i :: 0 <= i < |candidates| && TargetCheck(candidates[i]).None?)
      && (r.Some? ==> forall t :: t in r.value ==> t in candidates && t.JStr? && LanTargetAsWritten(t.s))
  {
    if hosts.JArr? && |hosts.items| > 0 then KeepTargets(hosts.items) else KeepTargets(scanned)
  }

  /** One candidate is kept, dropped, or makes the filter throw. */
  lemma KeepTargetsSingle(v: Json)
    ensures KeepTargets([v]) == if TargetCheck(v).None? then None else Some(if TargetCheck(v).value then [v] else [])
  {
    assert [v][1..] == [];
    assert KeepTargets([v][1..]) == Some([]);
    if TargetCheck(v).Some? {
      var head: seq<Json> := if TargetCheck(v).value then [v] else [];
      assert head + [] == head;
    }
  }

  /** The filter works candidate by candidate: on two lists in a row it keeps
      the kept targets of the first, then those of the second, in order and
      with repetitions, and throws if either throws. With
      `KeepTargetsSingle`, this fixes the result for every list. */
  lemma {:induction false} KeepTargetsAppend(a: seq<Json>, b: seq<Json>)
    ensures KeepTargets(a + b) ==
      if KeepTargets(a).Some? && KeepTargets(b).Some? then Some(KeepTargets(a).value + KeepTargets(b).value) else None
    decreases |a|
  {
    if a == [] {
      assert a + b == b;
      assert KeepTargets(a) == Some([]);
      if KeepTargets(b).Some? {
        assert [] + KeepTargets(b).value == KeepTargets(b).value;
      }
    } else {
      assert (a + b)[0] == a[0];
      assert (a + b)[1..] == a[1..] + b;
      KeepTargetsAppend(a[1..], b);
      if TargetCheck(a[0]).Some? && KeepTargets(a[1..]).Some? && KeepTargets(b).Some? {
        var head: seq<Json> := if TargetCheck(a[0]).value then [a[0]] else [];
        assert head + (KeepTargets(a[1..]).value + KeepTargets(b).value)
            == (head + KeepTargets(a[1..]).value) + KeepTargets(b).value;
      }
    }
  }

  lemma {:induction false} NatToStringShort(n: nat)
    requires n < 1000
    ensures 1 <= |NatToString(n)| <= 3
    ensures n < 10 ==> |NatToString(n)| == 1
    decreases n
  {
    if n >= 10 {
      NatToStringShort(n / 10);
    }
  }

  /** A formatted address with numbers below 1000 matches the pattern and
      reads back as its numbers. */
  lemma QuadPatternOf(a: nat, b: nat, c: nat, d: nat)
    requires a < 1000 && b < 1000 && c < 1000 && d < 1000
    ensures QuadPattern(DottedQuad(a, b, c, d))
    ensures QuadNumbers(DottedQuad(a, b, c, d)) == [a, b, c, d]
  {
    var parts := [NatToString(a), NatToString(b), NatToString(c), NatToString(d)];
    DecimalRoundTrip(a);
    DecimalRoundTrip(b);
    DecimalRoundTrip(c);
    DecimalRoundTrip(d);
    SplitJoin(parts, '.');
    ShortPart(a);
    ShortPart(b);
    ShortPart(c);
    ShortPart(d);
  }

  /** The decimal text of a number below 1000 is one run of one to three
      digits that reads back as the number. */
  lemma ShortPart(n: nat)
    requires n < 1000
    ensures 1 <= |NatToString(n)| <= 3 && AllDigits(NatToString(n))
    ensures DigitsValue(NatToString(n)) == n
  {
    NatToStringShort(n);
    DigitsValueOfNatToString(n);
  }

  /** As written, the filter accepts an address whose last number is above
      255, such as 10.0.0.300, so a restart or deploy to it is attempted;
      the corrected filter rejects it. */
  lemma LanFilterAcceptsBadOctet()
    ensures LanTargetAsWritten(DottedQuad(10, 0, 0, 300))
    ensures !LanTarget(DottedQuad(10, 0, 0, 300))
    ensures var ip := JStr(DottedQuad(10, 0, 0, 300));
      TargetIps(JArr([ip]), []) == Some([ip])
  {
    LanTargetAsWrittenOnQuads(10, 0, 0, 300);
    LanTargetOnQuads(10, 0, 0, 300);
    SingleTargetKept(DottedQuad(10, 0, 0, 300));
  }

  /** A single explicit host that passes the filter is the only target. */
  lemma SingleTargetKept(s: string)
    requires LanTargetAsWritten(s)
    ensures TargetIps(JArr([JStr(s)]), []) == Some([JStr(s)])
  {
    var ips := [JStr(s)];
    assert TargetCheck(ips[0]) == Some(true);
    assert ips[1..] == [];
    assert KeepTargets(ips) == Some([ips[0]] + []);
    assert [ips[0]] + [] == ips;
  }

  /** The filter as written, on a formatted address: only the first number
      (below 224) and the last (neither 0 nor 255) are tested, so the middle
      numbers and a last number from 256 to 999 pass unchecked. */
  lemma LanTargetAsWrittenOnQuads(a: nat, b: nat, c: nat, d: nat)
    requires a < 1000 && b < 1000 && c < 1000 && d < 1000
    ensures LanTargetAsWritten(DottedQuad(a, b, c, d)) <==> a < 224 && d != 0 && d != 255
  {
    QuadPatternOf(a, b, c, d);
    var ns := QuadNumbers(DottedQuad(a, b, c, d));
    assert ns[0] == a && ns[3] == d;
  }

  /** The corrected filter on a formatted address: every number up to 255,
      the first below 224, the last neither 0 nor 255. */
  lemma LanTargetOnQuads(a: nat, b: nat, c: nat, d: nat)
    requires a < 1000 && b < 1000 && c < 1000 && d < 1000
    ensures LanTarget(DottedQuad(a, b, c, d)) <==>
      a < 224 && b <= 255 && c <= 255 && 0 < d < 255
  {
    QuadPatternOf(a, b, c, d);
    var ns := QuadNumbers(DottedQuad(a, b, c, d));
    assert ns[0] == a && ns[1] == b && ns[2] == c && ns[3] == d;
  }

  /** Every address the corrected filter keeps is an address the ARP
      filter would accept as well, unless it is a loopback address: the LAN
      filter does not exclude 127.x.x.x. */
  lemma LanTargetIsUnicast(a: nat, b: nat, c: nat, d: nat)
    requires a < 1000 && b < 1000 && c < 1000 && d < 1000
    requires LanTarget(DottedQuad(a, b, c, d)) && a != 127
    ensures UnicastIp(DottedQuad(a, b, c, d))
  {
    LanTargetOnQuads(a, b, c, d);
    QuadParts(a, b, c, d);
  }

  // ---------------------------------------------------------------------
  // Commands

  /** `echo <password> | sudo -S -p ""` when a password is given, else
      `sudo`. */
  function SudoPrefix(password: Json, stringify: Json -> string): string {
    if Truthy(password) then "echo " + stringify(password) + " | sudo -S -p \"\"" else "sudo"
  }

  /** The command of a restart. */
  function RestartCommand(password: Json, stringify: Json -> string): (cmd: string)
    ensures cmd == SudoPrefix(password, stringify) + " reboot"
  {
    if Truthy(password) then "echo " + stringify(password) + " | sudo -S -p \"\" reboot" else "sudo reboot"
  }

  /** The fields of a deploy request. */
  datatype DeployRequest = DeployRequest(
    username: Json, password: Json, serverBase: Json, runSetup: Json, reboot: Json,
    hosts: Json, sshConfig: Json)

  /** `sshConfig || {}` */
  function SshConfig(req: DeployRequest): Json {
    Or(req.sshConfig, JObj(map[]))
  }

  /** Whether the SSH settings are written: `enable` when given, as the
      string "true" or the boolean `true`; otherwise whether a password was
      given. */
  predicate SshEnabled(req: DeployRequest)
    ensures Field(SshConfig(req), "enable").JNull? ==> (SshEnabled(req) <==> Truthy(req.password))
    ensures Field(SshConfig(req), "enable") == JBool(false) ==> !SshEnabled(req)
  {
    var enable := Field(SshConfig(req), "enable");
    StringOf(if enable.JNull? then JBool(Truthy(req.password)) else enable) == "true" || enable == JBool(true)
  }

  lemma SshEnabledRule(req: DeployRequest)
    ensures var enable := Field(SshConfig(req), "enable");
      && (enable.JNull? ==> (SshEnabled(req) <==> Truthy(req.password)))
      && (enable.JBool? ==> (SshEnabled(req) <==> enable.b))
      && (enable.JStr? ==> (SshEnabled(req) <==> enable.s == "true"))
  {
  }

  /** `s.replace(/"/g, '\\"')` */
  function EscapeQuotes(s: string): (r: string)
    ensures |r| >= |s|
    decreases |s|
  {
    if s == [] then []
    else (if s[0] == '"' then "\\\"" else [s[0]]) + EscapeQuotes(s[1..])
  }

  /** Reading an escaped text back: `\"` is a quote. */
  function UnescapeQuotes(s: string): string
    decreases |s|
  {
    if s == [] then []
    else if |s| >= 2 && s[0] == '\\' && s[1] == '"' then "\"" + UnescapeQuotes(s[2..])
    else [s[0]] + UnescapeQuotes(s[1..])
  }

  /** Every quote of `r` is preceded by a backslash. */
  predicate QuotesEscaped(r: string) {
    forall i :: 0 <= i < |r| && r[i] == '"' ==> 0 < i && r[i - 1] == '\\'
  }

  /** Every quote of an escaped text is preceded by a backslash. */
  lemma {:induction false} EscapedQuotes(s: string)
    ensures QuotesEscaped(EscapeQuotes(s))
    decreases |s|
  {
    if s != [] {
      EscapedQuotes(s[1..]);
      var head: string := if s[0] == '"' then "\\\"" else [s[0]];
      var tail := EscapeQuotes(s[1..]);
      assert EscapeQuotes(s) == head + tail;
      forall i | 0 <= i < |head + tail| && (head + tail)[i] == '"'
        ensures 0 < i && (head + tail)[i - 1] == '\\'
      {
        if i < |head| {
          assert (head + tail)[i] == head[i];
          assert s[0] == '"' && i == 1;
        } else {
          var k := i - |head|;
          assert tail[k] == '"';
          assert QuotesEscaped(tail);
          assert (head + tail)[i - 1] == tail[k - 1];
        }
      }
    }
  }

  /** `UnescapeQuotes` inverts the escaping, so no information is lost. */
  lemma {:induction false} EscapeRoundTrip(s: string)
    ensures UnescapeQuotes(EscapeQuotes(s)) == s
    decreases |s|
  {
    if s != [] {
      EscapeRoundTrip(s[1..]);
      var tail := EscapeQuotes(s[1..]);
      if s[0] == '"' {
        assert EscapeQuotes(s) == "\\\"" + tail;
        assert (EscapeQuotes(s))[2..] == tail;
      } else {
        assert EscapeQuotes(s) == [s[0]] + tail;
        assert (EscapeQuotes(s))[1..] == tail;
        if s[0] == '\\' && tail != [] {
          assert tail[0] != '"' by {
            if s[1..][0] == '"' {
              assert tail[0] == '\\';
            } else {
              assert tail[0] == s[1..][0];
            }
          }
        }
      }
    }
  }

  /** Two different keys never escape to the same text. */
  lemma EscapeInjective(s: string, t: string)
    requires EscapeQuotes(s) == EscapeQuotes(t)
    ensures s == t
  {
    EscapeRoundTrip(s);
    EscapeRoundTrip(t);
  }

  /** The line of `kiosk-client.conf` for a key and value. */
  function ConfLine(key: string, value: string): string {
    key + "=\"" + value + "\""
  }

  /** The SSH password lines: the request's password, else a non-empty
      string `sshConfig.password`. */
  function PasswordLines(req: DeployRequest): seq<string> {
    var scPassword := Field(SshConfig(req), "password");
    if Truthy(req.password) then [ConfLine("SSH_PASSWORD", StringOf(req.password)), ConfLine("SSH_PASSWORD_AUTH", "yes")]
    else if scPassword.JStr? && |scPassword.s| > 0 then [ConfLine("SSH_PASSWORD", scPassword.s), ConfLine("SSH_PASSWORD_AUTH", "yes")]
    else []
  }

  /** The lines of `kiosk-client.conf`: the server base, then, when SSH is
      enabled, its settings. `None` is the TypeError of an authorised key
      that is truthy but not a string. */
  function ConfigLines(req: DeployRequest): (r: Option<seq<string>>)
    ensures r.None? <==> SshEnabled(req) && Truthy(Field(SshConfig(req), "authorizedKey")) && !Field(SshConfig(req), "authorizedKey").JStr?
    ensures r.Some? ==> |r.value| >= 1 && r.value[0] == ConfLine("SERVER_BASE", StringOf(req.serverBase))
    ensures r.Some? && !SshEnabled(req) ==> |r.value| == 1
    ensures r.Some? && SshEnabled(req) ==> |r.value| >= 2 && r.value[1] == ConfLine("SSH_ENABLE", "true")
    ensures r.Some? && SshEnabled(req) && Truthy(req.password) ==>
      ConfLine("SSH_PASSWORD", StringOf(req.password)) in r.value
  {
    var sc := SshConfig(req);
    var base := [ConfLine("SERVER_BASE", StringOf(req.serverBase))];
    if !SshEnabled(req) then Some(base)
    else
      var key := Field(sc, "authorizedKey");
      if Truthy(key) && !key.JStr? then None
      else
        var user := Or(Field(sc, "user"), req.username);
        var userLine := if Truthy(user) then [ConfLine("SSH_USER", StringOf(user))] else [];
        var keyLine := if Truthy(key) then [ConfLine("SSH_AUTHORIZED_KEY", EscapeQuotes(key.s))] else [];
        var auth := Field(sc, "passwordAuth");
        var authLine := if auth == JStr("no") || auth == JStr("yes") then [ConfLine("SSH_PASSWORD_AUTH", auth.s)] else [];
        var lines := base + [ConfLine("SSH_ENABLE", "true")] + userLine + PasswordLines(req) + keyLine + authLine;
        assert Truthy(req.password) ==> ConfLine("SSH_PASSWORD", StringOf(req.password)) == lines[2 + |userLine|];
        Some(lines)
  }

  const ScriptTmp := "/tmp/start-kiosk.sh"
  const ScriptPath := "/usr/local/bin/start-kiosk.sh"

  /** The command that writes the configuration lines, each single-quoted,
      one per line, into `/etc/kiosk-client.conf`. */
  function WriteConfigCommand(lines: seq<string>, sudo: string): string {
    var quoted := seq(|lines|, i requires 0 <= i < |lines| => "'" + lines[i] + "'");
    "printf '%s\n' " + JoinWith(quoted, " ") + " | " + sudo + " tee /etc/kiosk-client.conf > /dev/null"
  }

  /** The commands of a deploy, in order: install the uploaded script, write
      the configuration, run the setup if asked, restart the browsers, and
      reboot if asked. */
  function DeployCommands(req: DeployRequest, lines: seq<string>, stringify: Json -> string): (cmds: seq<string>)
    ensures |cmds| == 7 + (if Truthy(req.runSetup) then 1 else 0) + (if Truthy(req.reboot) then 1 else 0)
    ensures cmds[4] == WriteConfigCommand(lines, SudoPrefix(req.password, stringify))
    ensures Truthy(req.runSetup) ==> cmds[5] == SudoPrefix(req.password, stringify) + " bash " + ScriptPath
    ensures Truthy(req.reboot) ==> cmds[|cmds| - 1] == RestartCommand(req.password, stringify)
  {
    var sudo := SudoPrefix(req.password, stringify);
    [ sudo + " mkdir -p /usr/local/bin",
      sudo + " mv " + ScriptTmp + " " + ScriptPath,
      sudo + " chown root:root " + ScriptPath,
      sudo + " chmod +x " + ScriptPath,
      WriteConfigCommand(lines, sudo) ]
    + (if Truthy(req.runSetup) then [sudo + " bash " + ScriptPath] else [])
    + ["pkill -f 'google-chrome' >/dev/null 2>&1 || true", "pkill -f 'firefox' >/dev/null 2>&1 || true"]
    + (if Truthy(req.reboot) then [sudo + " reboot"] else [])
  }

  // ---------------------------------------------------------------------
  // Results

  /** What running a command on a host gave. */
  datatype Exec = Executed(code: Option<int>, stdout: string, stderr: string) | ExecError(message: string)

  /** One host's entry in the reply. */
  datatype HostResult =
    | Ran(host: string, ok: bool, code: Option<int>, stdout: string, stderr: string)
    | Failed(host: string, error: string)

  predicate Ok(r: HostResult) { r.Ran? && r.ok }

  /** `${username}@${ip}` */
  function HostLabel(username: Json, ip: Json): string {
    StringOf(username) + "@" + StringOf(ip)
  }

  /** One host of a restart: reported ok once the reboot command was sent,
      whatever it exited with (the reboot cuts the connection). */
  function RestartHost(username: Json, password: Json, ip: Json, reach: Json -> Option<string>,
                       exec: (Json, string) -> Exec, stringify: Json -> string): (r: HostResult)
    ensures r.host == HostLabel(username, ip)
    ensures Ok(r) <==> reach(ip).None? && exec(ip, RestartCommand(password, stringify)).Executed?
  {
    var who := HostLabel(username, ip);
    if reach(ip).Some? then Failed(who, reach(ip).value)
    else
      match exec(ip, RestartCommand(password, stringify))
      case Executed(code, out, err) => Ran(who, true, code, out, err)
      case ExecError(message) => Failed(who, message)
  }

  /** The deploy success rule: exit code 0, or the setup ran and reported
      "Setup complete!" on either stream. */
  predicate DeploySucceeded(runSetup: Json, code: Option<int>, stdout: string, stderr: string)
    ensures code == Some(0) ==> DeploySucceeded(runSetup, code, stdout, stderr)
    ensures !Truthy(runSetup) ==> (DeploySucceeded(runSetup, code, stdout, stderr) <==> code == Some(0))
  {
    code == Some(0) || (Truthy(runSetup) && (Contains(stdout, "Setup complete!") || Contains(stderr, "Setup complete!")))
  }

  /** The message of the TypeError a non-string authorised key raises. */
  const KeyTypeError := "sc.authorizedKey.replace is not a function"

  /** The full command a deploy runs on a host, or `None` when building it
      throws. */
  function DeployCommand(req: DeployRequest, stringify: Json -> string): Option<string> {
    var lines := ConfigLines(req);
    if lines.None? then None else Some(JoinWith(DeployCommands(req, lines.value, stringify), " && "))
  }

  /** One host of a deploy. */
  function DeployHost(req: DeployRequest, ip: Json, reach: Json -> Option<string>,
                      exec: (Json, string) -> Exec, stringify: Json -> string): (r: HostResult)
    ensures r.host == HostLabel(req.username, ip)
    ensures Ok(r) <==>
      && reach(ip).None? && DeployCommand(req, stringify).Some?
      && var e := exec(ip, DeployCommand(req, stringify).value);
         e.Executed? && DeploySucceeded(req.runSetup, e.code, e.stdout, e.stderr)
  {
    var who := HostLabel(req.username, ip);
    if reach(ip).Some? then Failed(who, reach(ip).value)
    else
      var cmd := DeployCommand(req, stringify);
      if cmd.None? then Failed(who, KeyTypeError)
      else
        match exec(ip, cmd.value)
        case Executed(code, out, err) => Ran(who, DeploySucceeded(req.runSetup, code, out, err), code, out, err)
        case ExecError(message) => Failed(who, message)
  }

  /** A reported "Setup complete!" makes a deploy with setup a success even
      when a later command failed; without setup only exit code 0 does. */
  lemma SetupCompleteRule(runSetup: Json, code: Option<int>, stdout: string, stderr: string)
    requires code != Some(0)
    ensures !Truthy(runSetup) ==> !DeploySucceeded(runSetup, code, stdout, stderr)
    ensures Truthy(runSetup) && Contains(stdout, "Setup complete!") ==> DeploySucceeded(runSetup, code, stdout, stderr)
  {
  }

  /** The reply of the restart and deploy endpoints. `Unhandled` is a
      request whose handler throws before replying. */
  datatype RemoteReply =
    | UsernameRequired
    | ServerBaseRequired
    | NoTargets
    | ScriptMissing
    | Unhandled
    | Completed(results: seq<HostResult>)

  /** `POST /api/restart`: one result per target, in order. */
  method Restart(username: Json, password: Json, hosts: Json, scanned: seq<Json>,
                 reach: Json -> Option<string>, exec: (Json, string) -> Exec, stringify: Json -> string)
    returns (reply: RemoteReply)
    ensures !Truthy(username) ==> reply == UsernameRequired
    ensures Truthy(username) ==> (reply == Unhandled <==> TargetIps(hosts, scanned).None?)
    ensures Truthy(username) ==> (reply == NoTargets <==> TargetIps(hosts, scanned) == Some([]))
    ensures Truthy(username) && TargetIps(hosts, scanned).Some? && |TargetIps(hosts, scanned).value| > 0 ==>
      reply.Completed?
    ensures reply.Completed? ==>
      var ips := TargetIps(hosts, scanned).value;
      && |reply.results| == |ips|
      && forall i :: 0 <= i < |ips| ==> reply.results[i] == RestartHost(username, password, ips[i], reach, exec, stringify)
  {
    if !Truthy(username) {
      return UsernameRequired;
    }
    var targets := TargetIps(hosts, scanned);
    if targets.None? {
      return Unhandled;
    }
    var ips := targets.value;
    if |ips| == 0 {
      return NoTargets;
    }
    var results := RestartEach(username, password, ips, reach, exec, stringify);
    reply := Completed(results);
  }

  /** The per-host loop of `POST /api/restart`, one host after the other. */
  method RestartEach(username: Json, password: Json, ips: seq<Json>, reach: Json -> Option<string>,
                     exec: (Json, string) -> Exec, stringify: Json -> string)
    returns (results: seq<HostResult>)
    ensures |results| == |ips|
    ensures forall i :: 0 <= i < |ips| ==> results[i] == RestartHost(username, password, ips[i], reach, exec, stringify)
  {
    results := [];
    for i := 0 to |ips|
      invariant |results| == i
      invariant forall j :: 0 <= j < i ==> results[j] == RestartHost(username, password, ips[j], reach, exec, stringify)
    {
      results := results + [RestartHost(username, password, ips[i], reach, exec, stringify)];
    }
  }

  /** `POST /api/deploy`: one result per target, in order. `scriptExists`
      says whether the client script is present on the server. */
  method Deploy(req: DeployRequest, scanned: seq<Json>, scriptExists: bool,
                reach: Json -> Option<string>, exec: (Json, string) -> Exec, stringify: Json -> string)
    returns (reply: RemoteReply)
    ensures reply == UsernameRequired <==> !Truthy(req.username)
    ensures reply == ServerBaseRequired <==> Truthy(req.username) && !Truthy(req.serverBase)
    ensures reply == NoTargets <==>
      Truthy(req.username) && Truthy(req.serverBase) && TargetIps(req.hosts, scanned) == Some([])
    ensures reply == Unhandled <==>
      Truthy(req.username) && Truthy(req.serverBase) && TargetIps(req.hosts, scanned).None?
    ensures reply == ScriptMissing <==>
      && Truthy(req.username) && Truthy(req.serverBase)
      && TargetIps(req.hosts, scanned).Some? && |TargetIps(req.hosts, scanned).value| > 0 && !scriptExists
    ensures reply.Completed? <==>
      && Truthy(req.username) && Truthy(req.serverBase) && scriptExists
      && TargetIps(req.hosts, scanned).Some? && |TargetIps(req.hosts, scanned).value| > 0
    ensures reply.Completed? ==>
      var ips := TargetIps(req.hosts, scanned).value;
      && scriptExists
      && |reply.results| == |ips|
      && forall i :: 0 <= i < |ips| ==> reply.results[i] == DeployHost(req, ips[i], reach, exec, stringify)
  {
    if !Truthy(req.username) {
      return UsernameRequired;
    }
    if !Truthy(req.serverBase) {
      return ServerBaseRequired;
    }
    var targets := TargetIps(req.hosts, scanned);
    if targets.None? {
      return Unhandled;
    }
    var ips := targets.value;
    if |ips| == 0 {
      return NoTargets;
    }
    if !scriptExists {
      return ScriptMissing;
    }
    var results := DeployEach(req, ips, reach, exec, stringify);
    reply := Completed(results);
  }

  /** The per-host loop of `POST /api/deploy`, one host after the other. */
  method DeployEach(req: DeployRequest, ips: seq<Json>, reach: Json -> Option<string>,
                    exec: (Json, string) -> Exec, stringify: Json -> string)
    returns (results: seq<HostResult>)
    ensures |results| == |ips|
    ensures forall i :: 0 <= i < |ips| ==> results[i] == DeployHost(req, ips[i], reach, exec, stringify)
  {
    results := [];
    for i := 0 to |ips|
      invariant |results| == i
      invariant forall j :: 0 <= j < i ==> results[j] == DeployHost(req, ips[j], reach, exec, stringify)
    {
      results := results + [DeployHost(req, ips[i], reach, exec, stringify)];
    }
  }

  /** A host that cannot be reached fails in both operations, and the other
      hosts' results do not depend on it. */
  lemma UnreachableFails(req: DeployRequest, ip: Json, reach: Json -> Option<string>,
                         exec: (Json, string) -> Exec, stringify: Json -> string)
    requires reach(ip).Some?
    ensures DeployHost(req, ip, reach, exec, stringify) == Failed(HostLabel(req.username, ip), reach(ip).value)
    ensures RestartHost(req.username, req.password, ip, reach, exec, stringify) == Failed(HostLabel(req.username, ip), reach(ip).value)
  {
  }
}
