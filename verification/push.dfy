/** The push channel: the table of open server-sent-event sessions, capped
    in size, with broadcast to every session, the per-address configuration
    push, the `currentUrl` registration, the device listing and the sweep
    that drops dead connections. Writing to a connection is modelled as
    appending a message to the session's outbox; a write to a connection
    that has died fails, and the failure is swallowed by every writer. */
module Push {
  import opened Values
  import opened Address
  import opened EventStream
  import Config

  /** Most sessions the table admits. */
  const MaxSessions: int := 100

  /** The keep-alive comment, also written by the sweep to probe a session. */
  const Ping: Message := Comment("ping")

  /** An open session. `alive` is false once the connection has died, from
      which point every write to it fails. */
  datatype Session = Session(
    ip: string, userAgent: string, connectedAt: int, currentUrl: Json,
    alive: bool, outbox: seq<Message>)

  datatype OpenReply = TooManyConnections | Opened(id: string)

  datatype Opening = Opening(sessions: map<string, Session>, reply: OpenReply)

  /** A row of the device listing. */
  datatype Device = Device(id: string, ip: string, userAgent: string, connectedAt: int, currentUrl: Json)

  /** A write of `m` to a session: appended when the connection is alive,
      otherwise lost. */
  function Deliver(s: Session, m: Message): (t: Session)
    ensures t.alive == s.alive
    ensures s.alive ==> t.outbox == s.outbox + [m]
    ensures !s.alive ==> t == s
    ensures t.(outbox := s.outbox) == s
  {
    if s.alive then s.(outbox := s.outbox + [m]) else s
  }

  /** The table after a new connection: refused at capacity, otherwise a
      session seeded with the global configuration (not the override for its
      address). */
  function OpenStep(ss: map<string, Session>, id: string, rawIp: string, userAgent: string, now: int, global: Config.Config): Opening {
    if |ss| >= MaxSessions then Opening(ss, TooManyConnections)
    else
      var s := Session(NormalizeIp(rawIp), userAgent, now, JNull, true, [Event("config", JObj(global))]);
      Opening(ss[id := s], Opened(id))
  }

  /** The table after a broadcast of `m`. */
  function Broadcasted(ss: map<string, Session>, m: Message): (t: map<string, Session>)
    ensures t.Keys == ss.Keys
    ensures forall id :: id in ss && ss[id].alive ==> t[id] == ss[id].(outbox := ss[id].outbox + [m])
    ensures forall id :: id in ss && !ss[id].alive ==> t[id] == ss[id]
  {
    map id | id in ss :: Deliver(ss[id], m)
  }

  /** The table after writing `m` to the sessions at address `ip`. */
  function SentTo(ss: map<string, Session>, ip: string, m: Message): (t: map<string, Session>)
    ensures t.Keys == ss.Keys
    ensures forall id :: id in ss && ss[id].ip == ip && ss[id].alive ==> t[id] == ss[id].(outbox := ss[id].outbox + [m])
    ensures forall id :: id in ss && ss[id].ip == ip && !ss[id].alive ==> t[id] == ss[id]
    ensures forall id :: id in ss && ss[id].ip != ip ==> t[id] == ss[id]
  {
    map id | id in ss :: if ss[id].ip == ip then Deliver(ss[id], m) else ss[id]
  }

  /** The table after a client at `ip` reports its page address. */
  function Registered(ss: map<string, Session>, ip: string, url: Json): (t: map<string, Session>)
    ensures t.Keys == ss.Keys
    ensures forall id :: id in ss && ss[id].ip == ip ==> Truthy(t[id].currentUrl)
    ensures forall id :: id in ss ==> t[id].(currentUrl := ss[id].currentUrl) == ss[id]
    ensures forall id :: id in ss && ss[id].ip != ip ==> t[id] == ss[id]
  {
    map id | id in ss :: if ss[id].ip == ip then ss[id].(currentUrl := Or(url, JStr("Unknown"))) else ss[id]
  }

  /** The table after the sweep: a ping to every live session, and every
      session whose write failed removed. */
  function Reaped(ss: map<string, Session>): (t: map<string, Session>)
    ensures forall id :: id in t <==> id in ss && ss[id].alive
    ensures forall id :: id in t ==> t[id] == ss[id].(outbox := ss[id].outbox + [Ping])
  {
    map id | id in ss && ss[id].alive :: Deliver(ss[id], Ping)
  }

  /** The payload of an action broadcast: `{type, value: value ?? true}`. */
  function ActionPayload(kind: Json, value: Json): (p: Json)
    ensures Field(p, "type") == kind
    ensures value.JNull? ==> Field(p, "value") == JBool(true)
    ensures !value.JNull? ==> Field(p, "value") == value
  {
    JObj(map["type" := kind, "value" := if value.JNull? then JBool(true) else value])
  }

  class SessionTable {
    var sessions: map<string, Session>

    constructor ()
      ensures sessions == map[]
    {
      sessions := map[];
    }

    /** A new stream request, with the session id chosen by the caller. */
    method Open(id: string, rawIp: string, userAgent: string, now: int, global: Config.Config)
      returns (reply: OpenReply)
      modifies this
      ensures var o := OpenStep(old(sessions), id, rawIp, userAgent, now, global);
        sessions == o.sessions && reply == o.reply
    {
      if |sessions| >= MaxSessions {
        return TooManyConnections;
      }
      var s := Session(NormalizeIp(rawIp), userAgent, now, JNull, true, []);
      sessions := sessions[id := s];
      var initial := Event("config", JObj(global));
      sessions := sessions[id := Deliver(sessions[id], initial)];
      assert [] + [initial] == [initial];
      reply := Opened(id);
    }

    /** The connection closed: the session is removed, if still there. */
    method Close(id: string)
      modifies this
      ensures sessions == old(sessions) - {id}
    {
      sessions := sessions - {id};
    }

    /** The connection died without a close: later writes to it fail. */
    method Drop(id: string)
      modifies this
      ensures id in old(sessions) ==> sessions == old(sessions)[id := old(sessions)[id].(alive := false)]
      ensures id !in old(sessions) ==> sessions == old(sessions)
    {
      if id in sessions {
        sessions := sessions[id := sessions[id].(alive := false)];
      }
    }

    /** The keep-alive timer of one session. */
    method KeepAlive(id: string)
      modifies this
      ensures id in old(sessions) ==> sessions == old(sessions)[id := Deliver(old(sessions)[id], Ping)]
      ensures id !in old(sessions) ==> sessions == old(sessions)
    {
      if id in sessions {
        sessions := sessions[id := Deliver(sessions[id], Ping)];
      }
    }

    /** Writes one event to every session, one session at a time; a failed
        write is ignored and its session kept. */
    method Broadcast(name: string, payload: Json)
      modifies this
      ensures sessions == Broadcasted(old(sessions), Event(name, payload))
    {
      var m := Event(name, payload);
      ghost var s0 := sessions;
      var ids := sessions.Keys;
      while ids != {}
        invariant ids <= s0.Keys && sessions.Keys == s0.Keys
        invariant forall id :: id in ids ==> sessions[id] == s0[id]
        invariant forall id :: id in s0 && id !in ids ==> sessions[id] == Deliver(s0[id], m)
        decreases ids
      {
        var id :| id in ids;
        sessions := sessions[id := Deliver(sessions[id], m)];
        ids := ids - {id};
      }
    }

    /** Writes one event to the sessions at address `ip`. */
    method SendToIp(ip: string, name: string, payload: Json)
      modifies this
      ensures sessions == SentTo(old(sessions), ip, Event(name, payload))
    {
      var m := Event(name, payload);
      ghost var s0 := sessions;
      var ids := sessions.Keys;
      while ids != {}
        invariant ids <= s0.Keys && sessions.Keys == s0.Keys
        invariant forall id :: id in ids ==> sessions[id] == s0[id]
        invariant forall id :: id in s0 && id !in ids ==>
          sessions[id] == (if s0[id].ip == ip then Deliver(s0[id], m) else s0[id])
        decreases ids
      {
        var id :| id in ids;
        if sessions[id].ip == ip {
          sessions := sessions[id := Deliver(sessions[id], m)];
        }
        ids := ids - {id};
      }
    }

    /** A client reports the page it shows: every session at its address
        records it, or "Unknown" when the report is empty. Returns the
        normalised address. */
    method Register(rawIp: string, url: Json) returns (ip: string)
      modifies this
      ensures ip == NormalizeIp(rawIp)
      ensures sessions == Registered(old(sessions), ip, url)
    {
      ip := NormalizeIp(rawIp);
      ghost var s0 := sessions;
      var ids := sessions.Keys;
      while ids != {}
        invariant ids <= s0.Keys && sessions.Keys == s0.Keys
        invariant forall id :: id in ids ==> sessions[id] == s0[id]
        invariant forall id :: id in s0 && id !in ids ==>
          sessions[id] == (if s0[id].ip == ip then s0[id].(currentUrl := Or(url, JStr("Unknown"))) else s0[id])
        decreases ids
      {
        var id :| id in ids;
        if sessions[id].ip == ip {
          sessions := sessions[id := sessions[id].(currentUrl := Or(url, JStr("Unknown")))];
        }
        ids := ids - {id};
      }
    }

    /** The device listing: one row per session, an unset page address
        shown as "Unknown". */
    function Devices(): (rows: map<string, Device>)
      reads this
      ensures rows.Keys == sessions.Keys
      ensures forall id :: id in rows ==>
        && rows[id].id == id && rows[id].ip == sessions[id].ip
        && rows[id].userAgent == sessions[id].userAgent
        && rows[id].connectedAt == sessions[id].connectedAt
        && rows[id].currentUrl == Or(sessions[id].currentUrl, JStr("Unknown"))
    {
      map id | id in sessions ::
        Device(id, sessions[id].ip, sessions[id].userAgent, sessions[id].connectedAt,
               Or(sessions[id].currentUrl, JStr("Unknown")))
    }

    /** The periodic sweep: probes every session with a ping and removes the
        ones whose write fails. */
    method Reap()
      modifies this
      ensures sessions == Reaped(old(sessions))
    {
      ghost var s0 := sessions;
      var ids := sessions.Keys;
      while ids != {}
        invariant ids <= s0.Keys
        invariant forall id :: id in ids ==> id in sessions && sessions[id] == s0[id]
        invariant forall id :: id in sessions ==> id in s0
        invariant forall id :: id in s0 && id !in ids ==>
          (id in sessions <==> s0[id].alive) && (id in sessions ==> sessions[id] == Deliver(s0[id], Ping))
        decreases ids
      {
        var id :| id in ids;
        if sessions[id].alive {
          sessions := sessions[id := Deliver(sessions[id], Ping)];
        } else {
          sessions := sessions - {id};
        }
        ids := ids - {id};
      }
    }
  }

  /** Opening a stream never takes the table past the cap. */
  lemma OpenKeepsCap(ss: map<string, Session>, id: string, rawIp: string, userAgent: string, now: int, global: Config.Config)
    requires |ss| <= MaxSessions
    ensures |OpenStep(ss, id, rawIp, userAgent, now, global).sessions| <= MaxSessions
  {
    if |ss| < MaxSessions {
      assert OpenStep(ss, id, rawIp, userAgent, now, global).sessions.Keys == ss.Keys + {id};
    }
  }

  /** A new session first receives the global configuration, whatever
      override its address has; a refused one leaves the table alone. */
  lemma OpenSeedsGlobalConfig(ss: map<string, Session>, id: string, rawIp: string, userAgent: string, now: int, global: Config.Config)
    ensures var o := OpenStep(ss, id, rawIp, userAgent, now, global);
      && (o.reply.Opened? ==> id in o.sessions && o.sessions[id].outbox == [Event("config", JObj(global))]
                              && o.sessions[id].ip == NormalizeIp(rawIp) && o.sessions[id].alive)
      && (o.reply.TooManyConnections? <==> |ss| >= MaxSessions)
      && (o.reply.TooManyConnections? ==> o.sessions == ss)
  {
  }

  /** A broadcast reaches every live session and keeps every session,
      including the dead ones it could not write to. */
  lemma BroadcastReachesAllLive(ss: map<string, Session>, m: Message)
    ensures Broadcasted(ss, m).Keys == ss.Keys
    ensures forall id :: id in ss && ss[id].alive ==> Broadcasted(ss, m)[id].outbox == ss[id].outbox + [m]
    ensures forall id :: id in ss && !ss[id].alive ==> Broadcasted(ss, m)[id] == ss[id]
  {
  }

  /** A per-address push reaches exactly the live sessions at that address. */
  lemma SendReachesOnlyAddress(ss: map<string, Session>, ip: string, m: Message)
    ensures SentTo(ss, ip, m).Keys == ss.Keys
    ensures forall id :: id in ss ==>
      (SentTo(ss, ip, m)[id].outbox == ss[id].outbox + [m] <==> ss[id].ip == ip && ss[id].alive)
  {
    forall id | id in ss
      ensures SentTo(ss, ip, m)[id].outbox == ss[id].outbox + [m] <==> ss[id].ip == ip && ss[id].alive
    {
      if !(ss[id].ip == ip && ss[id].alive) {
        assert |SentTo(ss, ip, m)[id].outbox| == |ss[id].outbox|;
      }
    }
  }

  /** The table after successive broadcasts. */
  function BroadcastAll(ss: map<string, Session>, ms: seq<Message>): map<string, Session>
    decreases |ms|
  {
    if ms == [] then ss else BroadcastAll(Broadcasted(ss, ms[0]), ms[1..])
  }

  /** Successive broadcasts arrive at every session still alive in the
      order they were sent, after what it had already received. */
  lemma {:induction false} BroadcastsKeepOrder(ss: map<string, Session>, ms: seq<Message>, id: string)
    requires id in ss && ss[id].alive
    ensures id in BroadcastAll(ss, ms)
    ensures BroadcastAll(ss, ms)[id].outbox == ss[id].outbox + ms
    decreases |ms|
  {
    if ms == [] {
      assert ss[id].outbox + [] == ss[id].outbox;
    } else {
      var s1 := Broadcasted(ss, ms[0]);
      BroadcastsKeepOrder(s1, ms[1..], id);
      assert s1[id].outbox == ss[id].outbox + [ms[0]];
      assert ss[id].outbox + [ms[0]] + ms[1..] == ss[id].outbox + ms;
    }
  }

  /** A session's browser, reading what was written to it, dispatches the
      server's events in order: the configuration it was seeded with, then
      each broadcast. */
  lemma SessionReadsBroadcasts(global: Config.Config, ms: seq<Message>, stringify: Json -> string)
    requires Framable([Event("config", JObj(global))] + ms, stringify)
    ensures Interpret(Wire([Event("config", JObj(global))] + ms, stringify))
         == [Dispatched("config", stringify(JObj(global)))] + Events(ms, stringify)
  {
    var all := [Event("config", JObj(global))] + ms;
    StreamRoundTrip(all, stringify);
    assert all[1..] == ms;
  }

  /** After a registration, the listing shows the reported page for every
      session at that address, and never an empty page address for them. */
  lemma RegisteredShowsPage(ss: map<string, Session>, ip: string, url: Json, id: string)
    requires id in ss && ss[id].ip == ip
    ensures Truthy(url) ==> Registered(ss, ip, url)[id].currentUrl == url
    ensures !Truthy(url) ==> Registered(ss, ip, url)[id].currentUrl == JStr("Unknown")
    ensures Truthy(Registered(ss, ip, url)[id].currentUrl)
  {
  }

  /** The sweep removes exactly the dead sessions and never grows the table. */
  lemma ReapRemovesOnlyDead(ss: map<string, Session>)
    ensures forall id :: id in Reaped(ss) <==> id in ss && ss[id].alive
    ensures |Reaped(ss)| <= |ss|
  {
    assert Reaped(ss).Keys <= ss.Keys;
    SubsetCard(Reaped(ss).Keys, ss.Keys);
  }

  lemma {:induction false} SubsetCard<T>(a: set<T>, b: set<T>)
    requires a <= b
    ensures |a| <= |b|
    decreases |b|
  {
    if b != {} {
      var x :| x in b;
      SubsetCard(a - {x}, b - {x});
    }
  }
}
