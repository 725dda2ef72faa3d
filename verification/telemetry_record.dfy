/** The v1 telemetry record an agent publishes once per tick: its id, one of three
    states, optional hit points, mana and frame rate, and a timestamp. */
module TelemetryRecord {
  import opened Common
  import opened PyValue

  const ApiV1 := "v1"
  const ValidationError := "ValidationError"

  /** The agent state literal. "RUN" is not one of them: it is a coordinator-side label. */
  datatype AgentState = Active | Assist | Hold

  function StateName(s: AgentState): string {
    match s
    case Active => "ACTIVE"
    case Assist => "ASSIST"
    case Hold => "HOLD"
  }

  function ParseState(name: string): (r: Option<AgentState>)
    ensures r.Some? <==> name in {"ACTIVE", "ASSIST", "HOLD"}
    ensures r.Some? ==> StateName(r.value) == name
  {
    if name == "ACTIVE" then Some(Active)
    else if name == "ASSIST" then Some(Assist)
    else if name == "HOLD" then Some(Hold)
    else None
  }

  lemma StateRoundTrip(s: AgentState)
    ensures ParseState(StateName(s)) == Some(s)
  {
  }

  /** A validated record. `api` is always "v1", so it is not stored. */
  datatype Telemetry = Telemetry(
    agentId: string,
    state: AgentState,
    hp: Option<int>,
    mana: Option<int>,
    ts: real,
    fps: Option<real>)

  /** A number as a `float` field accepts it. */
  function AsReal(v: Value): Option<real> {
    match v
    case Int(i) => Some(i as real)
    case Float(f) => Some(f)
    case _ => None
  }

  /** An `int | None = None` field. */
  function OptIntField(d: Entries, key: string): (r: Result<Option<int>>)
    ensures !HasKey(d, key) ==> r == Ok(None)
    ensures HasKey(d, key) ==>
      match Lookup(d, key).value
      case Null => r == Ok(None)
      case Int(i) => r == Ok(Some(i))
      case _ => r.Err?
  {
    match Lookup(d, key)
    case None => Ok(None)
    case Some(v) =>
      match v
      case Null => Ok(None)
      case Int(i) => Ok(Some(i))
      case _ => Err(ValidationError)
  }

  /** A `float | None = None` field. */
  function OptRealField(d: Entries, key: string): (r: Result<Option<real>>)
    ensures !HasKey(d, key) ==> r == Ok(None)
    ensures HasKey(d, key) ==>
      match Lookup(d, key).value
      case Null => r == Ok(None)
      case Int(i) => r == Ok(Some(i as real))
      case Float(f) => r == Ok(Some(f))
      case _ => r.Err?
  {
    match Lookup(d, key)
    case None => Ok(None)
    case Some(v) =>
      if v.Null? then Ok(None)
      else match AsReal(v)
        case Some(x) => Ok(Some(x))
        case None => Err(ValidationError)
  }

  /** The schema: `api` absent or "v1"; a string `agent_id`; one of the three state
      literals; a numeric `ts`; `hp` and `mana` absent, None or ints; `fps` absent, None
      or numeric. */
  predicate Valid(d: Entries) {
    && (!HasKey(d, "api") || Lookup(d, "api") == Some(Str(ApiV1)))
    && HasKey(d, "agent_id") && Lookup(d, "agent_id").value.Str?
    && HasKey(d, "state") && Lookup(d, "state").value.Str?
    && Lookup(d, "state").value.s in {"ACTIVE", "ASSIST", "HOLD"}
    && HasKey(d, "ts") && (Lookup(d, "ts").value.Int? || Lookup(d, "ts").value.Float?)
    && (!HasKey(d, "hp") || Lookup(d, "hp").value.Null? || Lookup(d, "hp").value.Int?)
    && (!HasKey(d, "mana") || Lookup(d, "mana").value.Null? || Lookup(d, "mana").value.Int?)
    && (!HasKey(d, "fps") || Lookup(d, "fps").value.Null? || Lookup(d, "fps").value.Int? || Lookup(d, "fps").value.Float?)
  }

  /** The value of an optional int field: a given int, else None. */
  function GivenInt(d: Entries, key: string): Option<int> {
    if HasKey(d, key) && Lookup(d, key).value.Int? then Some(Lookup(d, key).value.i) else None
  }

  /** The value of an optional float field: a given number, else None. */
  function GivenReal(d: Entries, key: string): Option<real> {
    if HasKey(d, key) && AsReal(Lookup(d, key).value).Some? then AsReal(Lookup(d, key).value) else None
  }

  /** `Telemetry(**d)`: `api` must be "v1" when given; `agent_id`, `state` and `ts` are
      required; `hp`, `mana` and `fps` default to None. Other keys are ignored. */
  function Parse(d: Entries): (r: Result<Telemetry>)
    ensures r.Ok? ==> !HasKey(d, "api") || Lookup(d, "api") == Some(Str(ApiV1))
    ensures r.Ok? ==> Lookup(d, "agent_id") == Some(Str(r.value.agentId))
    ensures r.Ok? ==> Lookup(d, "state") == Some(Str(StateName(r.value.state)))
    ensures r.Ok? ==> HasKey(d, "ts") && AsReal(Lookup(d, "ts").value) == Some(r.value.ts)
    ensures r.Ok? && !HasKey(d, "hp") ==> r.value.hp == None
    ensures r.Ok? && !HasKey(d, "mana") ==> r.value.mana == None
    ensures r.Ok? && !HasKey(d, "fps") ==> r.value.fps == None
    ensures (HasKey(d, "state") && Lookup(d, "state").value.Str? &&
             ParseState(Lookup(d, "state").value.s).None?) ==> r == Err(ValidationError)
    ensures r.Ok? <==> Valid(d)
    ensures r.Ok? ==> r.value.hp == GivenInt(d, "hp") && r.value.mana == GivenInt(d, "mana")
    ensures r.Ok? ==> r.value.fps == GivenReal(d, "fps")
    ensures r.Err? ==> r.error == ValidationError
  {
    var api: Option<Value> := Lookup(d, "api");
    var id: Option<Value> := Lookup(d, "agent_id");
    var st: Option<Value> := Lookup(d, "state");
    var ts: Option<Value> := Lookup(d, "ts");
    if api.Some? && api != Some(Str(ApiV1)) then Err(ValidationError)
    else if !(id.Some? && id.value.Str?) then Err(ValidationError)
    else if !(st.Some? && st.value.Str? && ParseState(st.value.s).Some?) then Err(ValidationError)
    else if !(ts.Some? && AsReal(ts.value).Some?) then Err(ValidationError)
    else
      match (OptIntField(d, "hp"), OptIntField(d, "mana"), OptRealField(d, "fps"))
      case (Ok(hp), Ok(mana), Ok(fps)) =>
        Ok(Telemetry(id.value.s, ParseState(st.value.s).value, hp, mana, AsReal(ts.value).value, fps))
      case _ => Err(ValidationError)
  }

  function OptIntValue(o: Option<int>): Value {
    match o
    case None => Null
    case Some(i) => Int(i)
  }

  function OptRealValue(o: Option<real>): Value {
    match o
    case None => Null
    case Some(x) => Float(x)
  }

  /** `model_dump()`: every field, `api` first, in declaration order. */
  function Dump(t: Telemetry): (r: Entries)
    ensures DistinctKeys(r)
    ensures Keys(r) == ["api", "agent_id", "state", "hp", "mana", "ts", "fps"]
  {
    [("api", Str(ApiV1)), ("agent_id", Str(t.agentId)), ("state", Str(StateName(t.state))),
     ("hp", OptIntValue(t.hp)), ("mana", OptIntValue(t.mana)), ("ts", Float(t.ts)),
     ("fps", OptRealValue(t.fps))]
  }

  /** Every record survives a dump and a re-validation unchanged. */
  lemma RoundTrip(t: Telemetry)
    ensures Parse(Dump(t)) == Ok(t)
  {
    var d := Dump(t);
    DumpFields(t);
    StateRoundTrip(t.state);
    assert OptIntField(d, "hp") == Ok(t.hp);
    assert OptIntField(d, "mana") == Ok(t.mana);
    assert OptRealField(d, "fps") == Ok(t.fps);
  }

  /** The dump's fields read back as the record's own, a missing optional as None. */
  lemma DumpFields(t: Telemetry)
    ensures Lookup(Dump(t), "api") == Some(Str(ApiV1))
    ensures Lookup(Dump(t), "agent_id") == Some(Str(t.agentId))
    ensures Lookup(Dump(t), "state") == Some(Str(StateName(t.state)))
    ensures Lookup(Dump(t), "hp") == Some(OptIntValue(t.hp))
    ensures Lookup(Dump(t), "mana") == Some(OptIntValue(t.mana))
    ensures Lookup(Dump(t), "ts") == Some(Float(t.ts))
    ensures Lookup(Dump(t), "fps") == Some(OptRealValue(t.fps))
  {
    var d := Dump(t);
    LookupAt(d, 0);
    LookupAt(d, 1);
    LookupAt(d, 2);
    LookupAt(d, 3);
    LookupAt(d, 4);
    LookupAt(d, 5);
    LookupAt(d, 6);
  }

  /** The three required fields alone make a valid record: api "v1", nothing optional set. */
  lemma MinimalRecord(id: string, state: AgentState, ts: real)
    ensures Parse([("agent_id", Str(id)), ("state", Str(StateName(state))), ("ts", Float(ts))])
         == Ok(Telemetry(id, state, None, None, ts, None))
  {
    var d := [("agent_id", Str(id)), ("state", Str(StateName(state))), ("ts", Float(ts))];
    LookupAt(d, 0);
    LookupAt(d, 1);
    LookupAt(d, 2);
    HasKeyIndex(d, "api");
    HasKeyIndex(d, "hp");
    HasKeyIndex(d, "mana");
    HasKeyIndex(d, "fps");
  }

  /** A frame rate that is given is kept. */
  lemma FpsPreserved(id: string, state: AgentState, ts: real, fps: real)
    ensures var r := Parse([("agent_id", Str(id)), ("state", Str(StateName(state))), ("ts", Float(ts)), ("fps", Float(fps))]);
      r.Ok? && r.value.fps == Some(fps)
  {
    var d := [("agent_id", Str(id)), ("state", Str(StateName(state))), ("ts", Float(ts)), ("fps", Float(fps))];
    LookupAt(d, 0);
    LookupAt(d, 1);
    LookupAt(d, 2);
    LookupAt(d, 3);
    HasKeyIndex(d, "api");
    HasKeyIndex(d, "hp");
    HasKeyIndex(d, "mana");
  }

  /** "RUN" is not a record state. */
  lemma RunRejected(d: Entries)
    requires Lookup(d, "state") == Some(Str("RUN"))
    ensures Parse(d) == Err(ValidationError)
  {
  }

  /** Any `api` other than "v1" is refused. */
  lemma OtherApiRejected(d: Entries, api: Value)
    requires Lookup(d, "api") == Some(api) && api != Str(ApiV1)
    ensures Parse(d) == Err(ValidationError)
  {
  }
}
