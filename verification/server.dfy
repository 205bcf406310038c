/** The request handlers that tie the components together: the configuration
    routes and their pushes, the action broadcast, and the periodic cleanup of
    sessions, agents and rate-limit entries. Admin-token checks and routing
    sit above these handlers and are not modelled. */
module Server {
  import opened Values
  import opened Address
  import opened EventStream
  import Config
  import Push
  import Heartbeat
  import RateLimit

  datatype ActionReply = TypeRequired | ActionSent

  /** `GET /api/config`: the configuration for the caller's address. */
  function ConfigFor(store: Config.ConfigStore, rawIp: string): (c: Config.Config)
    reads store
    ensures c == Config.ResolveFor(store.global, store.overrides, NormalizeIp(rawIp))
  {
    store.Resolve(NormalizeIp(rawIp))
  }

  /** `POST /api/config`: a refused update changes nothing and pushes
      nothing; an accepted one is pushed as a `config` event to every
      session. */
  method PostConfig(store: Config.ConfigStore, table: Push.SessionTable, body: Config.Config, validUrl: Json -> bool)
    returns (reply: Config.UpdateReply)
    modifies store, table
    ensures store.global == Config.Updated(old(store.global), body, validUrl)
    ensures store.overrides == old(store.overrides)
    ensures reply.InvalidUrl? <==> Config.BadUrl(body, validUrl)
    ensures reply.InvalidUrl? ==> table.sessions == old(table.sessions)
    ensures reply.Saved? ==> reply.config == store.global
    ensures reply.Saved? ==>
      table.sessions == Push.Broadcasted(old(table.sessions), Event("config", JObj(store.global)))
  {
    reply := store.Update(body, validUrl);
    if reply.Saved? {
      table.Broadcast("config", JObj(store.global));
    }
  }

  /** `POST /api/config/ip/:ip`: a stored override is pushed, merged over
      the global configuration, to the sessions at that address. */
  method PostOverride(store: Config.ConfigStore, table: Push.SessionTable, ip: string, body: Config.Config,
                      validIp: string -> bool, validUrl: Json -> bool)
    returns (reply: Config.OverrideReply)
    modifies store, table
    ensures store.global == old(store.global)
    ensures !reply.OverrideSaved? ==> store.overrides == old(store.overrides) && table.sessions == old(table.sessions)
    ensures reply.OverrideSaved? <==> validIp(ip) && !Config.BadUrl(body, validUrl)
    ensures reply.OverrideSaved? ==>
      var merged := Config.MergedOverride(old(store.overrides), ip, body);
      && reply == Config.OverrideSaved(ip, merged)
      && store.overrides == old(store.overrides)[ip := merged]
      && table.sessions == Push.SentTo(old(table.sessions), ip, Event("config", JObj(store.global + merged)))
  {
    reply := store.SetOverride(ip, body, validIp, validUrl);
    if reply.OverrideSaved? {
      table.SendToIp(ip, "config", JObj(store.global + reply.config));
    }
  }

  /** `POST /api/action`: a falsy `type` is refused; otherwise the action
      is broadcast with its value, `true` when none was given. */
  method PostAction(table: Push.SessionTable, kind: Json, value: Json) returns (reply: ActionReply)
    modifies table
    ensures !Truthy(kind) ==> reply == TypeRequired && table.sessions == old(table.sessions)
    ensures Truthy(kind) ==> reply == ActionSent
    ensures Truthy(kind) ==>
      table.sessions == Push.Broadcasted(old(table.sessions), Event("action", Push.ActionPayload(kind, value)))
  {
    if !Truthy(kind) {
      return TypeRequired;
    }
    table.Broadcast("action", Push.ActionPayload(kind, value));
    reply := ActionSent;
  }

  /** The five-minute cleanup: dead sessions, agents silent for thirty
      minutes with their queues, and rate-limit entries a window past their
      end. */
  method Cleanup(now: int, table: Push.SessionTable, registry: Heartbeat.HeartbeatRegistry, limiter: RateLimit.RateLimiter)
    modifies table, registry, limiter
    ensures table.sessions == Push.Reaped(old(table.sessions))
    ensures registry.State() == Heartbeat.Evict(old(registry.State()), now - Heartbeat.SweepCutoff)
    ensures limiter.entries == RateLimit.KeepUnexpired(old(limiter.entries), now - RateLimit.Window)
  {
    table.Reap();
    registry.Sweep(now);
    limiter.Sweep(now);
  }

  /** The configuration pushed to a session when its address gets an
      override is exactly what that client would fetch afterwards. */
  lemma OverridePushMatchesFetch(global: Config.Config, overrides: map<string, Config.Config>, ip: string, body: Config.Config)
    ensures var merged := Config.MergedOverride(overrides, ip, body);
      global + merged == Config.ResolveFor(global, overrides[ip := merged], ip)
  {
  }

  /** A configuration push after a global update carries the global
      configuration even to an address with an override: where the override
      sets a key to another value, the pushed value differs from what that
      client fetches. */
  lemma BroadcastIgnoresOverride(global: Config.Config, overrides: map<string, Config.Config>, ip: string, k: string)
    requires ip in overrides && k in overrides[ip] && k in global && overrides[ip][k] != global[k]
    ensures Config.ResolveFor(global, overrides, ip) != global
  {
    assert Config.ResolveFor(global, overrides, ip)[k] == overrides[ip][k];
  }
}
