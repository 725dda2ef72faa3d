/** The agent process's concrete command handler: PING / HOLD / RESUME against a
    `hold` flag, with telemetry tagged by the agent's id. The telemetry publisher is
    modelled as the log of what it accepted plus whether its `publish` raises. */
module AgentHandler {
  import opened Common
  import opened PyValue

  /** The agent's mutable state: only the hold flag. A new agent is not holding. */
  datatype AgentState = AgentState(hold: bool)

  const InitialState := AgentState(false)

  datatype Published = Published(topic: string, data: Entries)

  datatype Publisher = Publisher(log: seq<Published>, failing: bool)

  datatype Outcome = Outcome(state: AgentState, publisher: Publisher, reply: Entries)

  /** `{"agent_id": agent_id, **payload}`. */
  function Tagged(agentId: string, payload: Entries): (r: Entries)
    ensures !HasKey(payload, "agent_id") ==> Lookup(r, "agent_id") == Some(Str(agentId))
  {
    var r := Update([("agent_id", Str(agentId))], payload);
    if HasKey(payload, "agent_id") then r
    else UpdateLookupOutside([("agent_id", Str(agentId))], payload, "agent_id"); r
  }

  /** `_publish(topic, payload)`: a failure of the publisher is swallowed, leaving its
      log as it was. */
  function Publish(p: Publisher, agentId: string, topic: string, payload: Entries): (r: Publisher)
    ensures r.failing == p.failing
    ensures p.failing ==> r.log == p.log
    ensures !p.failing ==> r.log == p.log + [Published(topic, Tagged(agentId, payload))]
  {
    if p.failing then p else Publisher(p.log + [Published(topic, Tagged(agentId, payload))], p.failing)
  }

  /** `(cmd or {}).get("type", "").upper()`: a type that is not a string makes
      `.upper()` raise AttributeError. */
  function CommandType(cmd: Option<Entries>): (r: Result<string>)
    ensures r.Ok? ==> r.value == Upper(r.value)
  {
    var t := match cmd case None => Str("") case Some(e) => GetOr(e, "type", Str(""));
    if t.Str? then (UpperIdempotent(t.s); Ok(Upper(t.s))) else Err("AttributeError")
  }

  /** What the handler does for an upper-cased type: the new state, the event it
      publishes (topic and untagged payload), and its reply. */
  datatype Reaction = Reaction(state: AgentState, topic: string, payload: Entries, reply: Entries)

  function React(agentId: string, st: AgentState, ctype: string): (r: Reaction)
    ensures !HasKey(r.payload, "agent_id")
    ensures DistinctKeys(r.reply) && |r.reply| == 3 && r.reply[1] == ("agent_id", Str(agentId))
  {
    var r :=
      if ctype == "PING" then
        Reaction(st, "heartbeat", [("ok", Bool(true))],
                 [("pong", Bool(true)), ("agent_id", Str(agentId)), ("hold", Bool(st.hold))])
      else if ctype == "HOLD" then
        Reaction(AgentState(true), "state", [("state", Str("HOLD")), ("hold", Bool(true))],
                 [("ok", Bool(true)), ("agent_id", Str(agentId)), ("hold", Bool(true))])
      else if ctype == "RESUME" then
        Reaction(AgentState(false), "state", [("state", Str("ASSIST")), ("hold", Bool(false))],
                 [("ok", Bool(true)), ("agent_id", Str(agentId)), ("hold", Bool(false))])
      else
        var shown := if ctype == [] then "UNKNOWN" else ctype;
        Reaction(st, "event", [("note", Str("unknown_command")), ("type", Str(shown))],
                 [("echo", Str(shown)), ("agent_id", Str(agentId)), ("hold", Bool(st.hold))]);
    HasKeyIndex(r.payload, "agent_id");
    r
  }

  /** The handler returned by `_make_dispatcher(telem_pub, agent_id, state)`. */
  function Handle(agentId: string, st: AgentState, p: Publisher, cmd: Option<Entries>): (r: Result<Outcome>)
    ensures r.Ok? <==> CommandType(cmd).Ok?
  {
    match CommandType(cmd)
    case Err(e) => Err(e)
    case Ok(ctype) =>
      var re := React(agentId, st, ctype);
      Ok(Outcome(re.state, Publish(p, agentId, re.topic, re.payload), re.reply))
  }

  function Cmd(t: string): Option<Entries> {
    Some([("type", Str(t))])
  }

  /** PING, in any spelling and whatever else the command holds, keeps `hold`, emits
      one "heartbeat" event and answers pong with the current hold. */
  lemma PingKeepsHold(agentId: string, st: AgentState, p: Publisher, cmd: Entries, t: string)
    requires Lookup(cmd, "type") == Some(Str(t)) && Upper(t) == "PING"
    ensures var r := Handle(agentId, st, p, Some(cmd));
      && r.Ok? && r.value.state == st
      && Lookup(r.value.reply, "pong") == Some(Bool(true))
      && Lookup(r.value.reply, "hold") == Some(Bool(st.hold))
      && (!p.failing ==> r.value.publisher.log == p.log + [Published("heartbeat", Tagged(agentId, [("ok", Bool(true))]))])
  {
    LookupAt([("pong", Bool(true)), ("agent_id", Str(agentId)), ("hold", Bool(st.hold))], 2);
  }

  /** HOLD sets the flag and RESUME clears it, whatever the flag was, however the
      type is spelled and whatever else the command holds; each publishes the matching
      "state" event. */
  lemma HoldAndResume(agentId: string, st: AgentState, p: Publisher, cmd: Entries, t: string)
    requires Lookup(cmd, "type") == Some(Str(t))
    ensures Upper(t) == "HOLD" ==>
      var r := Handle(agentId, st, p, Some(cmd));
      r.Ok? && r.value.state.hold && Lookup(r.value.reply, "hold") == Some(Bool(true))
      && (!p.failing ==> r.value.publisher.log == p.log + [Published("state", Tagged(agentId, [("state", Str("HOLD")), ("hold", Bool(true))]))])
    ensures Upper(t) == "RESUME" ==>
      var r := Handle(agentId, st, p, Some(cmd));
      r.Ok? && !r.value.state.hold && Lookup(r.value.reply, "hold") == Some(Bool(false))
      && (!p.failing ==> r.value.publisher.log == p.log + [Published("state", Tagged(agentId, [("state", Str("ASSIST")), ("hold", Bool(false))]))])
  {
    LookupAt([("ok", Bool(true)), ("agent_id", Str(agentId)), ("hold", Bool(true))], 2);
    LookupAt([("ok", Bool(true)), ("agent_id", Str(agentId)), ("hold", Bool(false))], 2);
  }

  /** Applying HOLD twice leaves the same state and reply as applying it once. */
  lemma HoldIdempotent(agentId: string, st: AgentState, p: Publisher)
    ensures var r1 := Handle(agentId, st, p, Cmd("HOLD"));
      && r1.Ok?
      && var r2 := Handle(agentId, r1.value.state, r1.value.publisher, Cmd("HOLD"));
      && r2.Ok? && r2.value.state == r1.value.state && r2.value.reply == r1.value.reply
  {
  }

  /** Any other type keeps `hold`, emits one "event" and echoes the upper-cased type,
      or "UNKNOWN" for an empty one. */
  lemma UnknownKeepsHold(agentId: string, st: AgentState, p: Publisher, cmd: Option<Entries>)
    requires CommandType(cmd).Ok?
    requires CommandType(cmd).value !in {"PING", "HOLD", "RESUME"}
    ensures var r := Handle(agentId, st, p, cmd);
      var ctype := CommandType(cmd).value;
      && r.Ok? && r.value.state == st
      && Lookup(r.value.reply, "echo") == Some(Str(if ctype == [] then "UNKNOWN" else ctype))
      && (!p.failing ==> |r.value.publisher.log| == |p.log| + 1 && r.value.publisher.log[|p.log|].topic == "event")
  {
  }

  /** Every reply carries the agent id, and so does every event the publisher accepted. */
  lemma RepliesAndEventsTagged(agentId: string, st: AgentState, p: Publisher, cmd: Option<Entries>)
    requires Handle(agentId, st, p, cmd).Ok?
    ensures var o := Handle(agentId, st, p, cmd).value;
      && Lookup(o.reply, "agent_id") == Some(Str(agentId))
      && |o.publisher.log| <= |p.log| + 1
      && o.publisher.log[..|p.log|] == p.log
      && forall i :: |p.log| <= i < |o.publisher.log| ==> Lookup(o.publisher.log[i].data, "agent_id") == Some(Str(agentId))
  {
    var o := Handle(agentId, st, p, cmd).value;
    LookupAt(o.reply, 1);
  }

  /** A publisher that raises changes nothing but its own log: the state update and
      the reply are the same as with a working publisher. */
  lemma PublishFailureSwallowed(agentId: string, st: AgentState, log: seq<Published>, cmd: Option<Entries>)
    ensures var ok := Handle(agentId, st, Publisher(log, false), cmd);
      var bad := Handle(agentId, st, Publisher(log, true), cmd);
      && ok.Ok? == bad.Ok?
      && (ok.Ok? ==> ok.value.state == bad.value.state && ok.value.reply == bad.value.reply
                     && bad.value.publisher.log == log)
  {
  }

  /** A command type that is not a string makes the handler raise, before any change. */
  lemma NonStringTypeRaises(agentId: string, st: AgentState, p: Publisher, cmd: Entries, t: Value)
    requires Lookup(cmd, "type") == Some(t) && !t.Str?
    ensures Handle(agentId, st, p, Some(cmd)) == Err("AttributeError")
  {
  }
}
