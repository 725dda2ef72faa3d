/** The v1 wire envelopes exchanged between coordinator and agents: a command
    envelope, a response envelope, a telemetry envelope, and the error record a
    response may carry. Each envelope is a datatype, a validity predicate, a parser
    from a decoded JSON object (the model validation) and a dumper back to one. */
module Wire {
  import opened Common
  import opened PyValue

  /** The only schema version there is; also the default when the field is absent. */
  const SchemaV1 := 1

  /** What a rejected validation raises. */
  const ValidationError := "ValidationError"

  datatype ErrorCode = BadJson | ApiMismatch | Timeout | Internal

  function CodeName(c: ErrorCode): string {
    match c
    case BadJson => "bad-json"
    case ApiMismatch => "api-mismatch"
    case Timeout => "timeout"
    case Internal => "internal"
  }

  /** The error-code literal: exactly the four names, nothing else. */
  function ParseCode(s: string): (r: Option<ErrorCode>)
    ensures r.Some? <==> s in {"bad-json", "api-mismatch", "timeout", "internal"}
    ensures r.Some? ==> CodeName(r.value) == s
  {
    if s == "bad-json" then Some(BadJson)
    else if s == "api-mismatch" then Some(ApiMismatch)
    else if s == "timeout" then Some(Timeout)
    else if s == "internal" then Some(Internal)
    else None
  }

  lemma CodeRoundTrip(c: ErrorCode)
    ensures ParseCode(CodeName(c)) == Some(c)
  {
  }

  // ----- field validators shared by the envelopes -------------------------------

  /** A required `str` field. */
  function StrField(d: Entries, key: string): (r: Result<string>)
    ensures r.Ok? <==> HasKey(d, key) && Lookup(d, key).value.Str?
    ensures r.Ok? ==> Lookup(d, key) == Some(Str(r.value))
  {
    var v: Option<Value> := Lookup(d, key);
    match v
    case Some(Str(s)) => Ok(s)
    case _ => Err(ValidationError)
  }

  /** A required `dict` field. */
  function DictField(d: Entries, key: string): (r: Result<Entries>)
    ensures r.Ok? <==> HasKey(d, key) && Lookup(d, key).value.Dict?
    ensures r.Ok? ==> Lookup(d, key) == Some(Dict(r.value))
  {
    var v: Option<Value> := Lookup(d, key);
    match v
    case Some(Dict(e)) => Ok(e)
    case _ => Err(ValidationError)
  }

  /** A `str | None = None` field. */
  function OptStrField(d: Entries, key: string): (r: Result<Option<string>>)
    ensures !HasKey(d, key) || Lookup(d, key) == Some(Null) ==> r == Ok(None)
    ensures HasKey(d, key) && Lookup(d, key).value.Str? ==> r == Ok(Some(Lookup(d, key).value.s))
    ensures r.Err? <==> HasKey(d, key) && !Lookup(d, key).value.Null? && !Lookup(d, key).value.Str?
  {
    var v: Option<Value> := Lookup(d, key);
    match v
    case None => Ok(None)
    case Some(Null) => Ok(None)
    case Some(Str(s)) => Ok(Some(s))
    case Some(_) => Err(ValidationError)
  }

  /** `schema_version: Literal[1] = 1`. */
  function VersionField(d: Entries): (r: Result<int>)
    ensures r.Ok? ==> r.value == SchemaV1
    ensures r.Ok? <==> !HasKey(d, "schema_version") || Lookup(d, "schema_version") == Some(Int(SchemaV1))
  {
    match Lookup(d, "schema_version")
    case None => Ok(SchemaV1)
    case Some(v) => if v == Int(SchemaV1) then Ok(SchemaV1) else Err(ValidationError)
  }

  /** The kinds of value a `datetime` field accepts: an ISO text or a Unix time. */
  predicate IsTimestamp(v: Value) {
    v.Str? || v.Int? || v.Float?
  }

  /** `ts: datetime = Field(default_factory=utc_now)`; the clock reading is `now`. */
  function TsField(d: Entries, now: real): (r: Result<Value>)
    ensures r.Ok? ==> IsTimestamp(r.value)
    ensures !HasKey(d, "ts") ==> r == Ok(Float(now))
    ensures HasKey(d, "ts") ==>
      (r.Ok? <==> IsTimestamp(Lookup(d, "ts").value)) && (r.Ok? ==> r.value == Lookup(d, "ts").value)
  {
    match Lookup(d, "ts")
    case None => Ok(Float(now))
    case Some(v) => if IsTimestamp(v) then Ok(v) else Err(ValidationError)
  }

  // ----- ErrorInfo ---------------------------------------------------------------

  datatype ErrorInfo = ErrorInfo(code: ErrorCode, detail: Option<string>)

  function ParseErrorInfo(d: Entries): (r: Result<ErrorInfo>)
    ensures r.Ok? <==>
      StrField(d, "code").Ok? && ParseCode(StrField(d, "code").value).Some? && OptStrField(d, "detail").Ok?
    ensures r.Ok? ==> CodeName(r.value.code) == StrField(d, "code").value
    ensures r.Ok? && !HasKey(d, "detail") ==> r.value.detail == None
  {
    match StrField(d, "code")
    case Err(e) => Err(e)
    case Ok(name) =>
      match ParseCode(name)
      case None => Err(ValidationError)
      case Some(code) =>
        match OptStrField(d, "detail")
        case Err(e) => Err(e)
        case Ok(detail) => Ok(ErrorInfo(code, detail))
  }

  function OptStrValue(o: Option<string>): Value {
    match o
    case None => Null
    case Some(s) => Str(s)
  }

  function DumpErrorInfo(e: ErrorInfo): (r: Entries)
    ensures DistinctKeys(r)
  {
    [("code", Str(CodeName(e.code))), ("detail", OptStrValue(e.detail))]
  }

  /** Dumping an error record and validating the dump gives the record back. */
  lemma ErrorInfoRoundTrip(e: ErrorInfo)
    ensures ParseErrorInfo(DumpErrorInfo(e)) == Ok(e)
  {
    var d := DumpErrorInfo(e);
    LookupAt(d, 0);
    LookupAt(d, 1);
    CodeRoundTrip(e.code);
  }

  // ----- CommandEnvelope ---------------------------------------------------------

  datatype CommandEnvelope = CommandEnvelope(schemaVersion: int, msgId: string, ts: Value, command: Entries)

  predicate ValidCommand(e: CommandEnvelope) {
    e.schemaVersion == SchemaV1 && IsTimestamp(e.ts)
  }

  /** `CommandEnvelope(**d)`: version 1 (or absent), a string `msg_id`, a timestamp
      (or the clock reading `now`), and a `command` object. Other keys are ignored. */
  function ParseCommand(d: Entries, now: real): (r: Result<CommandEnvelope>)
    ensures r.Ok? ==> ValidCommand(r.value)
    ensures r.Ok? <==>
      VersionField(d).Ok? && StrField(d, "msg_id").Ok? && TsField(d, now).Ok? && DictField(d, "command").Ok?
    ensures r.Ok? ==>
      && Lookup(d, "msg_id") == Some(Str(r.value.msgId))
      && Lookup(d, "command") == Some(Dict(r.value.command))
      && r.value.ts == GetOr(d, "ts", Float(now))
    ensures r.Err? ==> r.error == ValidationError
  {
    match (VersionField(d), StrField(d, "msg_id"), TsField(d, now), DictField(d, "command"))
    case (Ok(v), Ok(id), Ok(ts), Ok(c)) => Ok(CommandEnvelope(v, id, ts, c))
    case _ => Err(ValidationError)
  }

  /** `model_dump()`, fields in declaration order. */
  function DumpCommand(e: CommandEnvelope): (r: Entries)
    ensures DistinctKeys(r)
  {
    [("schema_version", Int(e.schemaVersion)), ("msg_id", Str(e.msgId)), ("ts", e.ts), ("command", Dict(e.command))]
  }

  /** A valid command envelope survives a dump and a re-validation unchanged, whatever
      the clock says. */
  lemma CommandRoundTrip(e: CommandEnvelope, now: real)
    requires ValidCommand(e)
    ensures ParseCommand(DumpCommand(e), now) == Ok(e)
  {
    var d := DumpCommand(e);
    LookupAt(d, 0);
    LookupAt(d, 1);
    LookupAt(d, 2);
    LookupAt(d, 3);
  }

  /** Whatever validated once is reproduced by validating its own dump. */
  lemma CommandNormalForm(d: Entries, now: real, later: real)
    requires ParseCommand(d, now).Ok?
    ensures ParseCommand(DumpCommand(ParseCommand(d, now).value), later) == ParseCommand(d, now)
  {
    CommandRoundTrip(ParseCommand(d, now).value, later);
  }

  // ----- TelemetryEnvelope -------------------------------------------------------

  datatype TelemetryEnvelope = TelemetryEnvelope(schemaVersion: int, msgId: string, ts: Value, topic: string, data: Entries)

  predicate ValidTelemetry(e: TelemetryEnvelope) {
    e.schemaVersion == SchemaV1 && IsTimestamp(e.ts)
  }

  /** `TelemetryEnvelope(**d)`: like a command envelope, with a string `topic` and a
      `data` object in place of `command`. */
  function ParseTelemetry(d: Entries, now: real): (r: Result<TelemetryEnvelope>)
    ensures r.Ok? ==> ValidTelemetry(r.value)
    ensures r.Ok? <==>
      VersionField(d).Ok? && StrField(d, "msg_id").Ok? && TsField(d, now).Ok?
      && StrField(d, "topic").Ok? && DictField(d, "data").Ok?
    ensures r.Ok? ==>
      && Lookup(d, "msg_id") == Some(Str(r.value.msgId))
      && Lookup(d, "topic") == Some(Str(r.value.topic))
      && Lookup(d, "data") == Some(Dict(r.value.data))
      && r.value.ts == GetOr(d, "ts", Float(now))
    ensures r.Err? ==> r.error == ValidationError
  {
    match (VersionField(d), StrField(d, "msg_id"), TsField(d, now), StrField(d, "topic"), DictField(d, "data"))
    case (Ok(v), Ok(id), Ok(ts), Ok(t), Ok(data)) => Ok(TelemetryEnvelope(v, id, ts, t, data))
    case _ => Err(ValidationError)
  }

  function DumpTelemetry(e: TelemetryEnvelope): (r: Entries)
    ensures DistinctKeys(r)
  {
    [("schema_version", Int(e.schemaVersion)), ("msg_id", Str(e.msgId)), ("ts", e.ts),
     ("topic", Str(e.topic)), ("data", Dict(e.data))]
  }

  lemma TelemetryRoundTrip(e: TelemetryEnvelope, now: real)
    requires ValidTelemetry(e)
    ensures ParseTelemetry(DumpTelemetry(e), now) == Ok(e)
  {
    var d := DumpTelemetry(e);
    LookupAt(d, 0);
    LookupAt(d, 1);
    LookupAt(d, 2);
    LookupAt(d, 3);
    LookupAt(d, 4);
  }

  /** Any schema version other than 1 — 999, say — is refused by both envelopes. */
  lemma VersionMismatchRejected(d: Entries, now: real)
    requires HasKey(d, "schema_version") && Lookup(d, "schema_version") != Some(Int(SchemaV1))
    ensures ParseCommand(d, now) == Err(ValidationError)
    ensures ParseTelemetry(d, now) == Err(ValidationError)
  {
  }

  /** A worked example of `VersionMismatchRejected`: a command envelope at version
      999 is refused. */
  lemma Version999Rejected(id: string, now: real)
    ensures ParseCommand([("schema_version", Int(999)), ("msg_id", Str(id)), ("command", Dict([]))], now).Err?
  {
    LookupAt([("schema_version", Int(999)), ("msg_id", Str(id)), ("command", Dict([]))], 0);
  }

  /** A command envelope with only an id and a command gets version 1 and the clock's time. */
  lemma CommandDefaults(id: string, cmd: Entries, now: real)
    ensures ParseCommand([("msg_id", Str(id)), ("command", Dict(cmd))], now)
         == Ok(CommandEnvelope(SchemaV1, id, Float(now), cmd))
  {
    var d := [("msg_id", Str(id)), ("command", Dict(cmd))];
    LookupAt(d, 0);
    LookupAt(d, 1);
    HasKeyIndex(d, "schema_version");
    HasKeyIndex(d, "ts");
  }

  // ----- ResponseEnvelope --------------------------------------------------------

  datatype ResponseEnvelope = ResponseEnvelope(ok: bool, correlatesTo: string, data: Value, error: Option<ErrorInfo>)

  /** `error: ErrorInfo | None = None`. */
  function ErrorField(d: Entries): (r: Result<Option<ErrorInfo>>)
    ensures !HasKey(d, "error") || Lookup(d, "error") == Some(Null) ==> r == Ok(None)
    ensures r.Ok? && r.value.Some? ==>
      Lookup(d, "error").value.Dict? && ParseErrorInfo(Lookup(d, "error").value.entries) == Ok(r.value.value)
  {
    var v: Option<Value> := Lookup(d, "error");
    match v
    case None => Ok(None)
    case Some(Null) => Ok(None)
    case Some(Dict(e)) =>
      (match ParseErrorInfo(e)
       case Ok(info) => Ok(Some(info))
       case Err(x) => Err(x))
    case Some(_) => Err(ValidationError)
  }

  /** `ResponseEnvelope(**d)`: `ok` and `correlates_to` are required; `data` is any
      value and defaults to None, as does `error`. */
  function ParseResponse(d: Entries): (r: Result<ResponseEnvelope>)
    ensures r.Ok? ==> Lookup(d, "ok") == Some(Bool(r.value.ok))
    ensures r.Ok? ==> Lookup(d, "correlates_to") == Some(Str(r.value.correlatesTo))
    ensures r.Ok? ==> r.value.data == GetOr(d, "data", Null)
    ensures r.Ok? && !HasKey(d, "error") ==> r.value.error == None
    ensures r.Ok? <==>
      HasKey(d, "ok") && Lookup(d, "ok").value.Bool? && StrField(d, "correlates_to").Ok? && ErrorField(d).Ok?
  {
    var ok: Option<Value> := Lookup(d, "ok");
    match (ok, StrField(d, "correlates_to"), ErrorField(d))
    case (Some(Bool(ok)), Ok(c), Ok(err)) => Ok(ResponseEnvelope(ok, c, GetOr(d, "data", Null), err))
    case _ => Err(ValidationError)
  }

  function DumpResponse(e: ResponseEnvelope): (r: Entries)
    ensures DistinctKeys(r)
  {
    [("ok", Bool(e.ok)), ("correlates_to", Str(e.correlatesTo)), ("data", e.data),
     ("error", match e.error case None => Null case Some(info) => Dict(DumpErrorInfo(info)))]
  }

  /** Every response survives a dump and a re-validation unchanged. */
  lemma ResponseRoundTrip(e: ResponseEnvelope)
    ensures ParseResponse(DumpResponse(e)) == Ok(e)
  {
    var d := DumpResponse(e);
    LookupAt(d, 0);
    LookupAt(d, 1);
    LookupAt(d, 2);
    LookupAt(d, 3);
    if e.error.Some? {
      ErrorInfoRoundTrip(e.error.value);
    }
  }

  /** The minimal response: just `ok` and `correlates_to`, no data, no error. */
  lemma ResponseDefaults(ok: bool, id: string)
    ensures ParseResponse([("ok", Bool(ok)), ("correlates_to", Str(id))])
         == Ok(ResponseEnvelope(ok, id, Null, None))
  {
    var d := [("ok", Bool(ok)), ("correlates_to", Str(id))];
    LookupAt(d, 0);
    LookupAt(d, 1);
    HasKeyIndex(d, "data");
    HasKeyIndex(d, "error");
  }

  /** An error record whose code is not one of the four names makes the response invalid. */
  lemma UnknownErrorCodeRejected(ok: bool, id: string, code: string)
    requires ParseCode(code).None?
    ensures ParseResponse([("ok", Bool(ok)), ("correlates_to", Str(id)),
                           ("error", Dict([("code", Str(code))]))]).Err?
  {
    var d := [("ok", Bool(ok)), ("correlates_to", Str(id)), ("error", Dict([("code", Str(code))]))];
    LookupAt(d, 2);
  }
}
