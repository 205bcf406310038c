/** The heartbeat registry of the shell agents: one record per agent key, a
    queue of pending commands per key, check-in with rate limiting, eviction
    under capacity pressure, command enqueueing, the listing with its derived
    online flag, and the periodic sweep. */
module Heartbeat {
  import opened Values
  import opened Text
  import opened Address
  import Config
  import RateLimit

  /** Check-ins allowed per address and per minute. */
  const MaxRate: int := 120
  /** Above this many records, a check-in first evicts the stale ones. */
  const MaxClients: int := 200
  /** Longest command queue per key. */
  const MaxQueue: int := 100
  /** Milliseconds after which eviction under capacity pressure drops an agent. */
  const CapacityCutoff: int := 600000
  /** Milliseconds since the last check-in within which an agent is online. */
  const OnlineWindow: int := 600000
  /** Milliseconds after which the periodic sweep drops an agent. */
  const SweepCutoff: int := 1800000
  /** The `retry_after` of a refused check-in, in seconds. */
  const RetryAfter: int := 60

  /** The optional properties a check-in may carry. */
  const DetailKeys: set<string> := {"hostname", "version", "status", "tags", "metrics", "currentUrl"}

  /** An agent record. `details` holds the optional properties that were ever
      set; `lastSeen` is the time of the last check-in in milliseconds, `None`
      for a record restored without a readable time. */
  datatype Agent = Agent(id: Json, ip: string, details: map<string, Json>, lastSeen: Option<int>)

  /** A queued command. */
  datatype Command = Command(kind: Json, payload: Json, createdAt: int)

  /** The registry as a value: the agent records and the command queues. */
  datatype Registry = Registry(clients: map<string, Agent>, commands: map<string, seq<Command>>)

  /** The registry after a check-in, with the queue handed to the agent. */
  datatype Admission = Admission(registry: Registry, queue: seq<Command>)

  datatype EnqueueReply = MissingField | QueueFull | Queued(length: nat)

  datatype Enqueueing = Enqueueing(registry: Registry, reply: EnqueueReply)

  datatype CheckInReply =
    | RateLimited(retryAfter: int)
    | Served(time: int, config: Config.Config, commands: seq<Command>)

  /** A row of the agent listing. */
  datatype Listed = Listed(key: string, online: bool, agent: Agent)

  /** The key of a check-in: the trimmed text of a truthy `id` when that text
      is not empty, otherwise the client address. */
  function AgentKey(id: Json, ip: string): (k: string)
    ensures !Truthy(id) ==> k == ip
    ensures k == ip || (Truthy(id) && k == Trim(StringOf(id)) && k != "")
  {
    if Truthy(id) && Trim(StringOf(id)) != "" then Trim(StringOf(id)) else ip
  }

  /** The stored record of a key, if any. */
  function Find(clients: map<string, Agent>, key: string): Option<Agent> {
    if key in clients then Some(clients[key]) else None
  }

  /** The optional properties of a body that are truthy. */
  function TruthyDetails(body: Json): (d: map<string, Json>)
    ensures d.Keys <= DetailKeys
    ensures forall f :: f in DetailKeys ==> (f in d <==> Truthy(Field(body, f)))
  {
    map f | f in DetailKeys && Truthy(Field(body, f)) :: Field(body, f)
  }

  /** A record after a check-in at `now` from address `ip`. A new record
      starts from the body's `id` (or null); `id` is replaced by a truthy
      incoming one, `ip` and `lastSeen` always, and each optional property
      only by a truthy incoming value. */
  function Upsert(existing: Option<Agent>, body: Json, ip: string, now: int): (a: Agent)
    ensures a.ip == ip && a.lastSeen == Some(now)
    ensures existing.Some? ==> existing.value.details.Keys <= a.details.Keys
    ensures Truthy(Field(body, "id")) ==> a.id == Field(body, "id")
  {
    var id := Field(body, "id");
    var base := if existing.Some? then existing.value else Agent(Or(id, JNull), ip, map[], None);
    Agent(Or(id, base.id), ip, base.details + TruthyDetails(body), Some(now))
  }

  /** An agent is stale for a cutoff when its last check-in is readable and
      earlier than the cutoff; an unreadable time is never stale. */
  predicate Stale(a: Agent, cutoff: int) {
    a.lastSeen.Some? && a.lastSeen.value < cutoff
  }

  /** The registry without the agents stale for `cutoff`, and without their
      queues. Queues of keys that have no record are kept. */
  function Evict(r: Registry, cutoff: int): (e: Registry)
    ensures forall k :: k in e.clients <==> k in r.clients && !Stale(r.clients[k], cutoff)
    ensures forall k :: k in e.clients ==> e.clients[k] == r.clients[k]
    ensures forall k :: k in e.commands <==> k in r.commands && !(k in r.clients && Stale(r.clients[k], cutoff))
    ensures forall k :: k in e.commands ==> e.commands[k] == r.commands[k]
  {
    Registry(
      map k | k in r.clients && !Stale(r.clients[k], cutoff) :: r.clients[k],
      map k | k in r.commands && !(k in r.clients && Stale(r.clients[k], cutoff)) :: r.commands[k])
  }

  /** Whether a check-in at `now` evicts the agent stored under `k`: the
      table is full and that agent has not checked in for ten minutes. */
  predicate EvictedAt(r: Registry, now: int, k: string) {
    |r.clients| >= MaxClients && k in r.clients && Stale(r.clients[k], now - CapacityCutoff)
  }

  /** The registry after the capacity eviction that opens a check-in. */
  function Survivors(r: Registry, now: int): (s: Registry)
    ensures forall k :: k in s.clients <==> k in r.clients && !EvictedAt(r, now, k)
    ensures forall k :: k in s.clients ==> s.clients[k] == r.clients[k]
    ensures forall k :: k in s.commands <==> k in r.commands && !EvictedAt(r, now, k)
    ensures forall k :: k in s.commands ==> s.commands[k] == r.commands[k]
  {
    if |r.clients| >= MaxClients then Evict(r, now - CapacityCutoff) else r
  }

  /** The registry after an admitted check-in from address `ip` at `now`:
      eviction when the table is full, the upsert of the record, and the
      drain of its queue. */
  function CheckInStep(r: Registry, ip: string, body: Json, now: int): (a: Admission)
    ensures AgentKey(Field(body, "id"), ip) in a.registry.clients
    ensures AgentKey(Field(body, "id"), ip) in a.registry.commands
    ensures a.registry.commands.Keys <= r.commands.Keys + {AgentKey(Field(body, "id"), ip)}
    ensures var key := AgentKey(Field(body, "id"), ip);
      && a.queue == (if key in r.commands && !EvictedAt(r, now, key) then r.commands[key] else [])
      && a.registry.commands[key] == []
      && a.registry.clients[key] ==
           Upsert(if key in r.clients && !EvictedAt(r, now, key) then Some(r.clients[key]) else None, body, ip, now)
    ensures forall k :: k != AgentKey(Field(body, "id"), ip) ==>
      (k in a.registry.clients <==> k in r.clients && !EvictedAt(r, now, k))
    ensures forall k :: k != AgentKey(Field(body, "id"), ip) && k in a.registry.clients ==>
      a.registry.clients[k] == r.clients[k]
    ensures forall k :: k != AgentKey(Field(body, "id"), ip) ==>
      (k in a.registry.commands <==> k in r.commands && !EvictedAt(r, now, k))
    ensures forall k :: k != AgentKey(Field(body, "id"), ip) && k in a.registry.commands ==>
      a.registry.commands[k] == r.commands[k]
  {
    var r1 := Survivors(r, now);
    var key := AgentKey(Field(body, "id"), ip);
    var rec := Upsert(Find(r1.clients, key), body, ip, now);
    var queue := if key in r1.commands then r1.commands[key] else [];
    Admission(Registry(r1.clients[key := rec], r1.commands[key := []]), queue)
  }

  /** The registry after a request to queue a command for `target`. */
  function EnqueueStep(r: Registry, target: string, kind: Json, payload: Json, now: int): (e: Enqueueing)
    ensures target == "" || !Truthy(kind) ==> e == Enqueueing(r, MissingField)
    ensures target != "" && Truthy(kind) && target in r.commands && |r.commands[target]| >= MaxQueue ==>
      e == Enqueueing(r, QueueFull)
    ensures e.reply.Queued? <==>
      target != "" && Truthy(kind) && |(if target in r.commands then r.commands[target] else [])| < MaxQueue
    ensures e.reply.Queued? ==>
      && e.registry.clients == r.clients
      && e.registry.commands.Keys == r.commands.Keys + {target}
      && (forall k :: k in r.commands && k != target ==> e.registry.commands[k] == r.commands[k])
      && e.registry.commands[target] ==
           (if target in r.commands then r.commands[target] else []) + [Command(kind, Or(payload, JObj(map[])), now)]
      && e.reply.length == |e.registry.commands[target]|
  {
    if target == "" || !Truthy(kind) then Enqueueing(r, MissingField)
    else
      var q := if target in r.commands then r.commands[target] else [];
      if |q| >= MaxQueue then Enqueueing(r, QueueFull)
      else
        var q1 := q + [Command(kind, Or(payload, JObj(map[])), now)];
        Enqueueing(Registry(r.clients, r.commands[target := q1]), Queued(|q1|))
  }

  /** The online flag of the listing: a last check-in that is not zero and
      less than ten minutes ago. */
  predicate Online(a: Agent, now: int)
    ensures Online(a, now) ==> !Stale(a, now - OnlineWindow)
  {
    a.lastSeen.Some? && a.lastSeen.value != 0 && now - a.lastSeen.value < OnlineWindow
  }

  /** No command queue is longer than the bound. */
  predicate QueuesBounded(r: Registry) {
    forall k :: k in r.commands ==> |r.commands[k]| <= MaxQueue
  }

  class HeartbeatRegistry {
    var clients: map<string, Agent>
    var commands: map<string, seq<Command>>

    /** The registry as a value. */
    function State(): Registry
      reads this
    {
      Registry(clients, commands)
    }

    /** Start-up: the restored records and no queued command. */
    constructor (restored: map<string, Agent>)
      ensures clients == restored && commands == map[]
    {
      clients := restored;
      commands := map[];
    }

    /** Deletes, one key at a time, every stale agent and its queue. */
    method EvictOlderThan(cutoff: int)
      modifies this
      ensures State() == Evict(old(State()), cutoff)
    {
      ghost var c0 := clients;
      ghost var q0 := commands;
      var keys := clients.Keys;
      while keys != {}
        invariant keys <= c0.Keys
        invariant forall k :: k in keys ==> k in clients && clients[k] == c0[k]
        invariant forall k :: k in keys ==> (k in commands <==> k in q0)
        invariant forall k :: k in clients ==> k in c0 && clients[k] == c0[k]
        invariant forall k :: k in commands ==> k in q0 && commands[k] == q0[k]
        invariant forall k :: k in c0 && k !in keys ==> (k in clients <==> !Stale(c0[k], cutoff))
        invariant forall k :: k in q0 && k !in keys ==> (k in commands <==> !(k in c0 && Stale(c0[k], cutoff)))
        decreases keys
      {
        var key :| key in keys;
        if clients[key].lastSeen.Some? && clients[key].lastSeen.value < cutoff {
          clients := clients - {key};
          commands := commands - {key};
        }
        keys := keys - {key};
      }
      assert clients == Evict(Registry(c0, q0), cutoff).clients;
      assert commands == Evict(Registry(c0, q0), cutoff).commands;
    }

    /** A check-in from the raw address `rawIp`: the rate limit first; when
        it refuses, nothing of the registry changes. Otherwise eviction under
        capacity pressure, the upsert, and the reply with the configuration
        for the address and the drained queue. */
    method CheckIn(limiter: RateLimit.RateLimiter, store: Config.ConfigStore, rawIp: string, body: Json, now: int)
      returns (reply: CheckInReply)
      modifies this, limiter
      ensures var ip := NormalizeIp(rawIp);
        limiter.entries == RateLimit.AfterCheck(old(limiter.entries), ip, now)
      ensures var ip := NormalizeIp(rawIp);
        var allowed := RateLimit.Advance(RateLimit.Lookup(old(limiter.entries), ip), now).count <= MaxRate;
        && (!allowed ==> reply == RateLimited(RetryAfter) && State() == old(State()))
        && (allowed ==>
             var a := CheckInStep(old(State()), ip, body, now);
             State() == a.registry && reply == Served(now, store.Resolve(ip), a.queue))
    {
      var ip := NormalizeIp(rawIp);
      var allowed := limiter.Check(ip, MaxRate, now);
      if !allowed {
        return RateLimited(RetryAfter);
      }
      if |clients| >= MaxClients {
        EvictOlderThan(now - CapacityCutoff);
      }
      var id := Field(body, "id");
      var key := AgentKey(id, ip);
      var rec := Upsert(Find(clients, key), body, ip, now);
      clients := clients[key := rec];
      var config := store.Resolve(ip);
      var queue := if key in commands then commands[key] else [];
      commands := commands[key := []];
      reply := Served(now, config, queue);
    }

    /** Queues a command for `target`, up to the bound per queue. */
    method Enqueue(target: string, kind: Json, payload: Json, now: int) returns (reply: EnqueueReply)
      modifies this
      ensures var e := EnqueueStep(old(State()), target, kind, payload, now);
        State() == e.registry && reply == e.reply
    {
      if target == "" || !Truthy(kind) {
        return MissingField;
      }
      var q := if target in commands then commands[target] else [];
      if |q| >= MaxQueue {
        return QueueFull;
      }
      q := q + [Command(kind, Or(payload, JObj(map[])), now)];
      commands := commands[target := q];
      reply := Queued(|q|);
    }

    /** The agent listing at `now`: every record with its key and its derived
        online flag. */
    function List(now: int): (rows: map<string, Listed>)
      reads this
      ensures rows.Keys == clients.Keys
      ensures forall k :: k in rows ==>
        rows[k].key == k && rows[k].agent == clients[k] && (rows[k].online <==> Online(clients[k], now))
    {
      map k | k in clients :: Listed(k, Online(clients[k], now), clients[k])
    }

    /** The periodic sweep: drops the agents silent for thirty minutes. */
    method Sweep(now: int)
      modifies this
      ensures State() == Evict(old(State()), now - SweepCutoff)
    {
      EvictOlderThan(now - SweepCutoff);
    }
  }

  /** A non-empty string with no white space at either end is its own trim. */
  lemma TrimNoOp(s: string)
    requires s != [] && !IsSpace(s[0]) && !IsSpace(s[|s| - 1])
    ensures Trim(s) == s
  {
  }

  /** An id identifies an agent independently of its address and of white
      space around it: any string id with non-blank text gives the key of its
      trimmed text, from every address. */
  lemma KeyIgnoresPaddingAndAddress(s: string, ip1: string, ip2: string)
    requires Trim(s) != ""
    ensures AgentKey(JStr(s), ip1) == AgentKey(JStr(Trim(s)), ip2) == Trim(s)
  {
    TrimIdempotent(s);
  }

  /** A falsy id, or one whose text is blank, falls back to the address. */
  lemma KeyFallsBackToAddress(id: Json, ip: string)
    requires !Truthy(id) || Trim(StringOf(id)) == ""
    ensures AgentKey(id, ip) == ip
  {
  }

  /** A non-zero numeric id that a double holds exactly (below 2^53 in
      magnitude) is keyed by its decimal text. */
  lemma NumericIdKey(n: int, ip: string)
    requires n != 0
    requires -0x20_0000_0000_0000 < n < 0x20_0000_0000_0000
    ensures AgentKey(JNum(n), ip) == IntToString(n)
  {
    var m: nat := if n < 0 then -n else n;
    NatToStringDigits(m);
    var s := IntToString(n);
    var d := NatToString(m);
    assert s[|s| - 1] == d[|d| - 1];
    TrimNoOp(s);
  }

  /** The prior value of an optional property, as the upsert sees it. */
  function PriorDetails(existing: Option<Agent>): map<string, Json> {
    if existing.Some? then existing.value.details else map[]
  }

  /** An upsert always sets the address and the time; a truthy incoming
      property replaces the stored one, and a falsy or missing one never
      blanks it; no other property appears. */
  lemma UpsertFieldRule(existing: Option<Agent>, body: Json, ip: string, now: int)
    ensures var a := Upsert(existing, body, ip, now);
      && a.ip == ip && a.lastSeen == Some(now)
      && a.details.Keys == PriorDetails(existing).Keys + (set f | f in DetailKeys && Truthy(Field(body, f)))
      && (forall f :: f in DetailKeys && Truthy(Field(body, f)) ==> a.details[f] == Field(body, f))
      && (forall f :: f in PriorDetails(existing) && !(f in DetailKeys && Truthy(Field(body, f))) ==>
            a.details[f] == PriorDetails(existing)[f])
      && (Truthy(Field(body, "id")) ==> a.id == Field(body, "id"))
      && (!Truthy(Field(body, "id")) && existing.Some? ==> a.id == existing.value.id)
  {
  }

  /** A stored truthy property stays truthy through any check-in. */
  lemma UpsertNeverBlanks(a: Agent, body: Json, ip: string, now: int, f: string)
    requires f in a.details && Truthy(a.details[f])
    ensures f in Upsert(Some(a), body, ip, now).details
    ensures Truthy(Upsert(Some(a), body, ip, now).details[f])
  {
  }

  /** A check-in with an empty body only refreshes the address and the time. */
  lemma EmptyCheckIn(a: Agent, ip: string, now: int)
    ensures Upsert(Some(a), JObj(map[]), ip, now) == a.(ip := ip, lastSeen := Some(now))
  {
    assert TruthyDetails(JObj(map[])) == map[];
    assert a.details + map[] == a.details;
  }

  /** Repeating a check-in with the same body at the same time changes
      nothing more. */
  lemma UpsertIdempotent(existing: Option<Agent>, body: Json, ip: string, now: int)
    ensures var a := Upsert(existing, body, ip, now); Upsert(Some(a), body, ip, now) == a
  {
    var a := Upsert(existing, body, ip, now);
    var d := TruthyDetails(body);
    assert a.details + d == a.details;
  }

  /** A record after successive check-ins from one address at one time. */
  function UpsertAll(a: Agent, bodies: seq<Json>, ip: string, now: int): Agent
    decreases |bodies|
  {
    if bodies == [] then a
    else Upsert(Some(UpsertAll(a, bodies[..|bodies| - 1], ip, now)), bodies[|bodies| - 1], ip, now)
  }

  /** The last truthy value of property `f` among the bodies. */
  function LastTruthy(bodies: seq<Json>, f: string): Option<Json>
    decreases |bodies|
  {
    if bodies == [] then None
    else if Truthy(Field(bodies[|bodies| - 1], f)) then Some(Field(bodies[|bodies| - 1], f))
    else LastTruthy(bodies[..|bodies| - 1], f)
  }

  /** After any sequence of check-ins an optional property holds the last
      truthy value sent for it, or the stored value when none was sent. */
  lemma {:induction false} UpsertAllKeepsLastTruthy(a: Agent, bodies: seq<Json>, ip: string, now: int, f: string)
    requires f in DetailKeys
    ensures var r := UpsertAll(a, bodies, ip, now);
      && (f in r.details <==> f in a.details || LastTruthy(bodies, f).Some?)
      && (LastTruthy(bodies, f).Some? ==> r.details[f] == LastTruthy(bodies, f).value)
      && (LastTruthy(bodies, f).None? && f in a.details ==> r.details[f] == a.details[f])
    decreases |bodies|
  {
    if bodies != [] {
      UpsertAllKeepsLastTruthy(a, bodies[..|bodies| - 1], ip, now, f);
    }
  }

  /** A check-in admits its key even at capacity, and leaves that key's
      queue empty. The reply carries the queue the key had, unless the
      check-in evicted the key's own stale record first; below capacity, or
      for a key with a fresh record or none, it always carries it. */
  lemma CheckInAdmitsAndDrains(r: Registry, ip: string, body: Json, now: int)
    ensures var key := AgentKey(Field(body, "id"), ip);
      var a := CheckInStep(r, ip, body, now);
      && key in a.registry.clients
      && a.registry.clients[key].lastSeen == Some(now)
      && a.registry.commands[key] == []
      && (key !in r.commands ==> a.queue == [])
      && (key in r.commands && !EvictedAt(r, now, key) ==> a.queue == r.commands[key])
      && (key in r.commands && (|r.clients| < MaxClients || key !in r.clients) ==> a.queue == r.commands[key])
      && (key in r.commands && key in r.clients && !Stale(r.clients[key], now - CapacityCutoff) ==>
            a.queue == r.commands[key])
  {
  }

  /** A second check-in right after the first receives no command, whenever
      it happens. */
  lemma SecondCheckInGetsNothing(r: Registry, ip: string, body: Json, now: int, later: int)
    ensures CheckInStep(CheckInStep(r, ip, body, now).registry, ip, body, later).queue == []
  {
    var a := CheckInStep(r, ip, body, now);
    var key := AgentKey(Field(body, "id"), ip);
    assert a.registry.commands[key] == [];
  }

  /** A queued command reaches the agent at its next check-in, after the
      commands queued before it, unless that check-in evicted the agent
      first (then the queue is lost and nothing is delivered). */
  lemma EnqueueThenCheckIn(r: Registry, ip: string, body: Json, kind: Json, payload: Json, t1: int, t2: int)
    requires var key := AgentKey(Field(body, "id"), ip);
      EnqueueStep(r, key, kind, payload, t1).reply.Queued?
    ensures var key := AgentKey(Field(body, "id"), ip);
      var e := EnqueueStep(r, key, kind, payload, t1).registry;
      var evicted := |e.clients| >= MaxClients && key in e.clients && Stale(e.clients[key], t2 - CapacityCutoff);
      var before := if key in r.commands then r.commands[key] else [];
      && (!evicted ==> CheckInStep(e, ip, body, t2).queue == before + [Command(kind, Or(payload, JObj(map[])), t1)])
      && (evicted ==> CheckInStep(e, ip, body, t2).queue == [])
  {
  }

  /** Every step keeps every queue within the bound. */
  lemma QueuesStayBounded(r: Registry, ip: string, body: Json, target: string, kind: Json, payload: Json, now: int, cutoff: int)
    requires QueuesBounded(r)
    ensures QueuesBounded(CheckInStep(r, ip, body, now).registry)
    ensures QueuesBounded(EnqueueStep(r, target, kind, payload, now).registry)
    ensures QueuesBounded(Evict(r, cutoff))
  {
    var e := EnqueueStep(r, target, kind, payload, now);
    if e.reply.Queued? {
      assert |e.registry.commands[target]| <= MaxQueue;
    }
  }

  /** Capacity pressure never refuses an agent: when every stored agent
      checked in within ten minutes, a new key is added to a full table,
      which then holds more than the nominal maximum. */
  lemma CapacityNeverRefuses(r: Registry, ip: string, body: Json, now: int)
    requires |r.clients| >= MaxClients
    requires forall k :: k in r.clients ==> !Stale(r.clients[k], now - CapacityCutoff)
    requires AgentKey(Field(body, "id"), ip) !in r.clients
    ensures |CheckInStep(r, ip, body, now).registry.clients| == |r.clients| + 1 > MaxClients
  {
    var e := Evict(r, now - CapacityCutoff);
    assert e.clients == r.clients;
  }

  /** An agent that checked in at `now` is listed online for the next ten
      minutes (a check-in at time zero reads as never). */
  lemma OnlineAfterCheckIn(r: Registry, ip: string, body: Json, now: int, later: int)
    requires now != 0 && now <= later < now + OnlineWindow
    ensures var a := CheckInStep(r, ip, body, now);
      Online(a.registry.clients[AgentKey(Field(body, "id"), ip)], later)
  {
  }

  /** Every agent the periodic sweep removes was already listed offline, and
      every agent listed online survives the sweep. */
  lemma SweepRemovesOnlyOffline(r: Registry, now: int, k: string)
    requires k in r.clients
    ensures k !in Evict(r, now - SweepCutoff).clients ==> !Online(r.clients[k], now)
    ensures Online(r.clients[k], now) ==> k in Evict(r, now - SweepCutoff).clients
  {
  }
}
