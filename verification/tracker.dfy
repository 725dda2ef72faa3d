/** The coordinator's per-agent rows and the ingest step of its telemetry loop,
    as a pure transition over the row table. The row table is the Python dict
    `name -> AgentRow` in insertion order; a row's key is its own name. */
module Tracker {
  import opened Common
  import opened PyValue

  datatype AgentRow = AgentRow(
    name: string,
    cmdEp: string,
    lastSeen: string,
    heartbeats: nat,
    fps: Option<real>,
    state: string)

  type Rows = seq<AgentRow>

  function Names(rows: Rows): (ns: seq<string>)
    ensures |ns| == |rows|
    ensures forall i :: 0 <= i < |rows| ==> ns[i] == rows[i].name
  {
    seq(|rows|, i requires 0 <= i < |rows| => rows[i].name)
  }

  predicate DistinctNames(rows: Rows) {
    forall i, j :: 0 <= i < j < |rows| ==> rows[i].name != rows[j].name
  }

  /** `on_mount`: one fresh row per configured agent, in configuration order:
      never seen ("-"), no heartbeats, no fps, state "-". */
  function Seed(agents: seq<(string, string)>): (rows: Rows)
    ensures |rows| == |agents|
    ensures forall i :: 0 <= i < |agents| ==>
      rows[i] == AgentRow(agents[i].0, agents[i].1, "-", 0, None, "-")
    ensures DistinctKeys(agents) ==> DistinctNames(rows)
  {
    seq(|agents|, i requires 0 <= i < |agents| => AgentRow(agents[i].0, agents[i].1, "-", 0, None, "-"))
  }

  /** `_selected_agent`: the row under the table cursor, or nothing when there is no
      table, no row, or the cursor is out of range. */
  function SelectedAgent(rows: Rows, hasTable: bool, cursor: int): (r: Option<AgentRow>)
    ensures r.Some? <==> hasTable && 0 <= cursor < |rows|
    ensures r.Some? ==> r.value == rows[cursor]
  {
    if !hasTable || rows == [] then None
    else if 0 <= cursor < |rows| then Some(rows[cursor])
    else None
  }

  /** `str(data.get("state") or "").upper()`. */
  function StateText(data: Entries): string {
    Upper(PyStr(Or(GetOr(data, "state", Null), Str(""))))
  }

  /** The update one telemetry message makes to one target row: it is seen now; a
      heartbeat counts one more and, when it says whether the agent holds, sets the
      state to HOLD or RUN; a state message with a non-empty state sets it upper-cased;
      a convertible fps replaces the old one. Nothing else changes. */
  function UpdateRow(row: AgentRow, topic: Option<Value>, data: Entries, now: string): (r: AgentRow)
    ensures r.name == row.name && r.cmdEp == row.cmdEp && r.lastSeen == now
    ensures r.heartbeats == if topic == Some(Str("heartbeat")) then row.heartbeats + 1 else row.heartbeats
    ensures topic == Some(Str("heartbeat")) && HasKey(data, "hold") ==>
      r.state == if Truthy(Lookup(data, "hold").value) then "HOLD" else "RUN"
    ensures topic == Some(Str("state")) && StateText(data) != [] ==> r.state == StateText(data)
    ensures (!(topic == Some(Str("heartbeat")) && HasKey(data, "hold")) &&
             !(topic == Some(Str("state")) && StateText(data) != [])) ==> r.state == row.state
    ensures r.fps == if HasKey(data, "fps") && ToFloat(Lookup(data, "fps").value).Ok?
                     then Some(ToFloat(Lookup(data, "fps").value).value) else row.fps
  {
    var seen := row.(lastSeen := now);
    var counted :=
      if topic == Some(Str("heartbeat")) then
        var beat := seen.(heartbeats := seen.heartbeats + 1);
        match Lookup(data, "hold")
        case Some(h) => beat.(state := if Truthy(h) then "HOLD" else "RUN")
        case None => beat
      else if topic == Some(Str("state")) then
        var s := StateText(data);
        if s != [] then seen.(state := s) else seen
      else seen;
    match Lookup(data, "fps")
    case None => counted
    case Some(v) =>
      match ToFloat(v)
      case Ok(f) => counted.(fps := Some(f))
      case Err(_) => counted
  }

  /** The rows a message addressed to `agentId` updates: the one row with that name
      when the id is truthy and known, every row otherwise. */
  predicate Known(rows: Rows, agentId: Value) {
    Truthy(agentId) && agentId.Str? && agentId.s in Names(rows)
  }

  predicate IsTarget(rows: Rows, agentId: Value, row: AgentRow) {
    !Known(rows, agentId) || row.name == agentId.s
  }

  /** `msg.get("data", {}) or {}`, which must be a dict for `.get` to work. */
  function MessageData(msg: Entries): Result<Entries> {
    var d := Or(GetOr(msg, "data", Dict([])), Dict([]));
    if d.Dict? then Ok(d.entries) else Err("AttributeError")
  }

  /** One pass of `_telemetry_loop` for a received message `msg` at wall-clock `now`.
      An empty or absent message changes nothing. Rows are never added, removed or
      reordered, and heartbeat counts never decrease. */
  function Ingest(rows: Rows, msg: Option<Entries>, now: string): (r: Result<Rows>)
    ensures msg.None? || msg.value == [] ==> r == Ok(rows)
    ensures r.Ok? ==> |r.value| == |rows|
    ensures r.Ok? ==> forall i :: 0 <= i < |rows| ==>
      r.value[i].name == rows[i].name && r.value[i].cmdEp == rows[i].cmdEp
      && r.value[i].heartbeats >= rows[i].heartbeats
  {
    if msg.None? || msg.value == [] then Ok(rows)
    else
      match MessageData(msg.value)
      case Err(e) => Err(e)
      case Ok(data) =>
        var agentId := GetOr(data, "agent_id", Null);
        if Truthy(agentId) && (agentId.List? || agentId.Dict?) then Err("TypeError")
        else
          var topic := Lookup(msg.value, "topic");
          Ok(seq(|rows|, i requires 0 <= i < |rows| =>
            if IsTarget(rows, agentId, rows[i]) then UpdateRow(rows[i], topic, data, now) else rows[i]))
  }

  // ----- properties of one ingest step -----------------------------------------

  function Msg(topic: Value, data: Entries): Option<Entries> {
    Some([("topic", topic), ("data", Dict(data))])
  }

  lemma MsgParts(topic: Value, data: Entries)
    ensures Lookup(Msg(topic, data).value, "topic") == Some(topic)
    ensures MessageData(Msg(topic, data).value) == Ok(data)
  {
    LookupAt(Msg(topic, data).value, 0);
    LookupAt(Msg(topic, data).value, 1);
  }

  /** Any message whose data names a known agent updates that agent's row and no
      other, with the message's topic. */
  lemma KnownAgentOnlyRow(rows: Rows, msg: Entries, data: Entries, id: string, now: string)
    requires msg != [] && MessageData(msg) == Ok(data)
    requires Lookup(data, "agent_id") == Some(Str(id)) && id != [] && id in Names(rows)
    ensures var r := Ingest(rows, Some(msg), now);
      && r.Ok?
      && forall i :: 0 <= i < |rows| ==>
           r.value[i] == if rows[i].name == id then UpdateRow(rows[i], Lookup(msg, "topic"), data, now) else rows[i]
  {
  }

  /** A message without a usable agent id (missing, empty, not a string, or not a
      configured name) updates every row the same way. */
  lemma UnknownAgentAllRows(rows: Rows, msg: Entries, data: Entries, now: string)
    requires msg != [] && MessageData(msg) == Ok(data)
    requires var id := GetOr(data, "agent_id", Null);
      !Known(rows, id) && !(Truthy(id) && (id.List? || id.Dict?))
    ensures var r := Ingest(rows, Some(msg), now);
      && r.Ok?
      && forall i :: 0 <= i < |rows| ==> r.value[i] == UpdateRow(rows[i], Lookup(msg, "topic"), data, now)
  {
  }

  /** A heartbeat raises each target's count by exactly one; any other topic leaves
      every count as it was. */
  lemma HeartbeatCounting(rows: Rows, msg: Option<Entries>, now: string)
    requires Ingest(rows, msg, now).Ok?
    ensures var r := Ingest(rows, msg, now).value;
      forall i :: 0 <= i < |rows| ==>
        r[i].heartbeats - rows[i].heartbeats ==
          if msg.Some? && msg.value != [] && Lookup(msg.value, "topic") == Some(Str("heartbeat"))
             && IsTarget(rows, GetOr(MessageData(msg.value).value, "agent_id", Null), rows[i])
          then 1 else 0
  {
  }

  /** Every row a message touches gets the same `last_seen`; the others keep theirs. */
  lemma SameTimestampForTargets(rows: Rows, msg: Option<Entries>, now: string)
    requires msg.Some? && msg.value != [] && Ingest(rows, msg, now).Ok?
    ensures var r := Ingest(rows, msg, now).value;
      var id := GetOr(MessageData(msg.value).value, "agent_id", Null);
      forall i :: 0 <= i < |rows| ==>
        r[i].lastSeen == if IsTarget(rows, id, rows[i]) then now else rows[i].lastSeen
  {
  }

  /** Data that is truthy but not a dict makes the loop raise before any row changes. */
  lemma MalformedDataRaises(rows: Rows, topic: Value, data: Value, now: string)
    requires Truthy(data) && !data.Dict?
    ensures Ingest(rows, Some([("topic", topic), ("data", data)]), now) == Err("AttributeError")
  {
    LookupAt([("topic", topic), ("data", data)], 1);
  }

  /** So does a truthy agent id that cannot be hashed (a list or a dict). */
  lemma UnhashableIdRaises(rows: Rows, topic: Value, data: Entries, now: string)
    requires var id := GetOr(data, "agent_id", Null); Truthy(id) && (id.List? || id.Dict?)
    ensures Ingest(rows, Msg(topic, data), now) == Err("TypeError")
  {
    MsgParts(topic, data);
  }
}
