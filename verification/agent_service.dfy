/** The agent's domain service: a context (id, state, time of the last tick), a
    heartbeat period and a hold flag. Each tick reads the clock once, builds one
    telemetry record and publishes it. The clock reading and the optional perf port's
    fps reading are parameters of the tick. */
module AgentService {
  import opened Common
  import opened PyValue
  import TelemetryRecord
  import opened TelemetryFakes

  datatype AgentContext = AgentContext(agentId: string, state: TelemetryRecord.AgentState, lastTs: Option<real>)

  datatype Service = Service(ctx: AgentContext, period: real, hold: bool)

  function Max(a: real, b: real): real {
    if a >= b then a else b
  }

  /** `AgentService.__init__`: state ASSIST, not holding, never ticked, and a period of
      `1 / max(0.1, heartbeat_hz)` seconds, which is positive and at most ten. */
  function Init(agentId: string, heartbeatHz: real): (s: Service)
    ensures s.ctx == AgentContext(agentId, TelemetryRecord.Assist, None)
    ensures !s.hold
    ensures 0.0 < s.period <= 10.0
    ensures s.period * Max(0.1, heartbeatHz) == 1.0
    ensures heartbeatHz >= 0.1 ==> s.period * heartbeatHz == 1.0
    ensures heartbeatHz <= 0.1 ==> s.period == 10.0
  {
    Service(AgentContext(agentId, TelemetryRecord.Assist, None), 1.0 / Max(0.1, heartbeatHz), false)
  }

  /** `set_hold(value)`: stores `bool(value)` and touches nothing else. */
  function SetHold(s: Service, value: Value): (r: Service)
    ensures r.hold == Truthy(value)
    ensures r.ctx == s.ctx && r.period == s.period
  {
    s.(hold := Truthy(value))
  }

  /** The state a tick reports: HOLD while holding, the context's state otherwise. */
  function ReportedState(s: Service): (st: TelemetryRecord.AgentState)
    ensures s.hold ==> st == TelemetryRecord.Hold
    ensures !s.hold ==> st == s.ctx.state
  {
    if s.hold then TelemetryRecord.Hold else s.ctx.state
  }

  /** The record a tick at `now` builds. */
  function Record(s: Service, now: real, fps: Option<real>): TelemetryRecord.Telemetry {
    TelemetryRecord.Telemetry(s.ctx.agentId, ReportedState(s), None, None, now, fps)
  }

  /** The dict the telemetry port stores for that record: its dump. */
  function Published(s: Service, now: real, fps: Option<real>): Entries {
    TelemetryRecord.Dump(Record(s, now, fps))
  }

  /** What a tick stores validates as the configured id, the reported state, no hp or
      mana, the tick's time and the fps. */
  lemma PublishedValidates(s: Service, now: real, fps: Option<real>)
    ensures TelemetryRecord.Parse(Published(s, now, fps))
         == Ok(TelemetryRecord.Telemetry(s.ctx.agentId, ReportedState(s), None, None, now, fps))
  {
    TelemetryRecord.RoundTrip(Record(s, now, fps));
  }

  /** `tick()` at clock reading `now`, with `fps` the perf port's reading (None without
      a perf port), publishing to the in-memory telemetry port. Exactly one record is
      appended, the dump of the tick's record; the context's `last_ts` becomes the
      tick's time. */
  function Tick(s: Service, now: real, fps: Option<real>, port: TelemetryPort): (r: (Service, TelemetryPort))
    ensures r.0 == s.(ctx := s.ctx.(lastTs := Some(now)))
    ensures |r.1.records| == |port.records| + 1
    ensures r.1.records[..|port.records|] == port.records
    ensures r.1.records[|port.records|] == Published(s, now, fps)
  {
    var published := Publish(port, ModelDumpLike(Published(s, now, fps)));
    (s.(ctx := s.ctx.(lastTs := Some(now))), published.value)
  }

  /** Ticking once per reading in turn; each reading is the clock's time and the perf
      port's fps at that tick. */
  function TickAll(s: Service, readings: seq<(real, Option<real>)>, port: TelemetryPort): (r: (Service, TelemetryPort))
    decreases |readings|
  {
    if readings == [] then (s, port)
    else
      var (s1, p1) := Tick(s, readings[0].0, readings[0].1, port);
      TickAll(s1, readings[1..], p1)
  }

  /** `n` ticks publish exactly `n` records, in order, each with its own tick's time and
      fps, after what was there. */
  lemma {:induction false} TickAllRecords(s: Service, readings: seq<(real, Option<real>)>, port: TelemetryPort)
    ensures var p' := TickAll(s, readings, port).1;
      && |p'.records| == |port.records| + |readings|
      && p'.records[..|port.records|] == port.records
      && (forall i :: 0 <= i < |readings| ==>
            p'.records[|port.records| + i] == Published(s, readings[i].0, readings[i].1))
    decreases |readings|
  {
    if readings != [] {
      var t := Tick(s, readings[0].0, readings[0].1, port);
      var s1, p1 := t.0, t.1;
      var n := |port.records|;
      TickAllRecords(s1, readings[1..], p1);
      var p' := TickAll(s1, readings[1..], p1).1;
      assert p' == TickAll(s, readings, port).1;
      assert |p1.records| == n + 1 && p1.records[..n] == port.records && p1.records[n] == Published(s, readings[0].0, readings[0].1);
      assert p'.records[..n] == p'.records[..n + 1][..n];
      assert p'.records[n] == p'.records[..n + 1][n];
      forall i | 1 <= i < |readings|
        ensures p'.records[n + i] == Published(s, readings[i].0, readings[i].1)
      {
        assert readings[1..][i - 1] == readings[i];
        assert p'.records[n + i] == p'.records[|p1.records| + (i - 1)];
      }
    }
  }

  /** A run of ticks changes nothing in the service but `last_ts`, which ends at the
      last clock reading. */
  lemma {:induction false} TickAllState(s: Service, readings: seq<(real, Option<real>)>, port: TelemetryPort)
    ensures var s' := TickAll(s, readings, port).0;
      && s'.hold == s.hold && s'.period == s.period
      && s'.ctx.state == s.ctx.state && s'.ctx.agentId == s.ctx.agentId
      && s'.ctx.lastTs == (if readings == [] then s.ctx.lastTs else Some(readings[|readings| - 1].0))
    decreases |readings|
  {
    if readings != [] {
      var (s1, p1) := Tick(s, readings[0].0, readings[0].1, port);
      TickAllState(s1, readings[1..], p1);
    }
  }

  /** Every record of a run of ticks validates, with the same id and state and the
      clock and fps readings of its own tick. */
  lemma TickAllValidates(s: Service, readings: seq<(real, Option<real>)>, port: TelemetryPort)
    ensures var p' := TickAll(s, readings, port).1;
      |p'.records| == |port.records| + |readings| &&
      forall i :: 0 <= i < |readings| ==>
        TelemetryRecord.Parse(p'.records[|port.records| + i])
          == Ok(TelemetryRecord.Telemetry(s.ctx.agentId, ReportedState(s), None, None, readings[i].0, readings[i].1))
  {
    TickAllRecords(s, readings, port);
    forall i | 0 <= i < |readings| {
      PublishedValidates(s, readings[i].0, readings[i].1);
    }
  }

  /** The published record's "state" field reads HOLD exactly while the hold flag is
      set, and ASSIST otherwise for a fresh service, whatever was passed to `set_hold`. */
  lemma HoldOverlaysState(agentId: string, hz: real, value: Value, now: real, fps: Option<real>, port: TelemetryPort)
    ensures var s := SetHold(Init(agentId, hz), value);
      var p' := Tick(s, now, fps, port).1;
      var d := p'.records[|port.records|];
      && Lookup(d, "state") == Some(Str(if Truthy(value) then "HOLD" else "ASSIST"))
      && Lookup(d, "agent_id") == Some(Str(agentId))
  {
    var s := SetHold(Init(agentId, hz), value);
    var d := Tick(s, now, fps, port).1.records[|port.records|];
    TelemetryRecord.DumpFields(Record(s, now, fps));
  }
}
