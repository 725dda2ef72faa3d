/** Settings loading for the agent and the coordinator: model defaults, overlaid by
    the profile's TOML section, overlaid by `EVQ_*` environment variables, then
    validated. The environment is an ordered list of (name, value) pairs; reading the
    profile file and `json.loads` are parameters. */
module ConfigLoader {
  import opened Common
  import opened PyValue

  type Env = seq<(string, string)>

  const Prefix := "EVQ_"

  // ----- environment overlay -----------------------------------------------------

  /** The field `upper_to_field[key]` names. Python builds that map from a set of
      field names, so when two names share an upper case, which one wins depends on
      the set's iteration order; the model takes the last in list order, and the
      precedence lemmas below are stated only for names whose upper cases differ. */
  function FieldFor(fields: seq<string>, key: string): (r: Option<string>)
    ensures r.Some? ==> r.value in fields && Upper(r.value) == key
    ensures r.None? <==> forall i :: 0 <= i < |fields| ==> Upper(fields[i]) != key
    decreases |fields|
  {
    if fields == [] then None
    else if Upper(fields[|fields| - 1]) == key then Some(fields[|fields| - 1])
    else FieldFor(fields[..|fields| - 1], key)
  }

  /** The field an environment variable named `name` overrides, if any: the name must
      start with "EVQ_" exactly, and the rest must equal a field name up to case. */
  function EnvField(fields: seq<string>, name: string): (r: Option<string>)
    ensures !StartsWith(name, Prefix) ==> r == None
    ensures r.Some? ==> r.value in fields && Upper(r.value) == Upper(name[|Prefix|..])
  {
    if StartsWith(name, Prefix) then FieldFor(fields, Upper(name[|Prefix|..])) else None
  }

  /** `_coerce_env_value(raw)`: the JSON value when `raw` parses, else the text itself. */
  function Coerce(jsonLoads: string -> Option<Value>, raw: string): Value {
    match jsonLoads(raw)
    case Some(v) => v
    case None => Str(raw)
  }

  /** `_collect_env_for(fields, env)`: every variable that names a field, in order,
      coerced; a later variable for the same field overwrites an earlier one. */
  function CollectEnv(fields: seq<string>, env: Env, jsonLoads: string -> Option<Value>): (r: Entries)
    ensures DistinctKeys(r)
    ensures forall f :: HasKey(r, f) ==> f in fields
    ensures forall f :: HasKey(r, f) <==> exists i :: 0 <= i < |env| && EnvField(fields, env[i].0) == Some(f)
    decreases |env|
  {
    if env == [] then []
    else
      var init := env[..|env| - 1];
      var (name, raw) := env[|env| - 1];
      var out := CollectEnv(fields, init, jsonLoads);
      assert forall i :: 0 <= i < |init| ==> init[i] == env[i];
      match EnvField(fields, name)
      case None => out
      case Some(f) => PutDistinct(out, f, Coerce(jsonLoads, raw)); Put(out, f, Coerce(jsonLoads, raw))
  }

  /** The raw value of the last variable that overrides `f`, if any. */
  function LastOverride(fields: seq<string>, env: Env, f: string): Option<string>
    decreases |env|
  {
    if env == [] then None
    else if EnvField(fields, env[|env| - 1].0) == Some(f) then Some(env[|env| - 1].1)
    else LastOverride(fields, env[..|env| - 1], f)
  }

  /** Each field the environment overrides holds the coerced value of the last
      variable naming it. */
  lemma {:induction false} CollectEnvLookup(fields: seq<string>, env: Env, jsonLoads: string -> Option<Value>, f: string)
    ensures Lookup(CollectEnv(fields, env, jsonLoads), f) ==
      match LastOverride(fields, env, f)
      case None => None
      case Some(raw) => Some(Coerce(jsonLoads, raw))
    decreases |env|
  {
    if env != [] {
      CollectEnvLookup(fields, env[..|env| - 1], jsonLoads, f);
    }
  }

  /** The prefix is case-sensitive: "evq_agent_id" overrides nothing. */
  lemma PrefixIsCaseSensitive(fields: seq<string>, raw: string, jsonLoads: string -> Option<Value>)
    ensures CollectEnv(fields, [("evq_agent_id", raw)], jsonLoads) == []
  {
    assert "evq_agent_id"[..|Prefix|][0] == 'e';
  }

  /** The suffix is not: "EVQ_" followed by any spelling of a field name overrides
      that field, under the field's own spelling. */
  lemma SuffixIsCaseInsensitive(fields: seq<string>, f: string, suffix: string, raw: string,
                                jsonLoads: string -> Option<Value>)
    requires f in fields && Upper(suffix) == Upper(f)
    requires forall i :: 0 <= i < |fields| && Upper(fields[i]) == Upper(f) ==> fields[i] == f
    ensures CollectEnv(fields, [(Prefix + suffix, raw)], jsonLoads) == [(f, Coerce(jsonLoads, raw))]
  {
    var name := Prefix + suffix;
    assert StartsWith(name, Prefix) && name[|Prefix|..] == suffix;
    assert CollectEnv(fields, [], jsonLoads) == [];
  }

  // ----- profile selection -------------------------------------------------------

  function EnvGet(env: Env, name: string): Option<string> {
    Lookup(env, name)
  }

  /** `env or os.environ`: an absent or empty mapping means the process environment. */
  function EffectiveEnv(env: Option<Env>, osEnviron: Env): (r: Env)
    ensures env.Some? && env.value != [] ==> r == env.value
    ensures env.None? || env.value == [] ==> r == osEnviron
  {
    if env.Some? && env.value != [] then env.value else osEnviron
  }

  /** `(profile or env.get("EVQ_PROFILE") or "dev").strip()`: the first non-empty of the
      explicit name and EVQ_PROFILE, else "dev", stripped of surrounding whitespace. */
  function ProfileName(explicit: Option<string>, env: Env): (r: string)
    ensures explicit.Some? && explicit.value != [] ==> r == Strip(explicit.value)
    ensures ((explicit.None? || explicit.value == []) && EnvGet(env, "EVQ_PROFILE").Some? &&
             EnvGet(env, "EVQ_PROFILE").value != []) ==> r == Strip(EnvGet(env, "EVQ_PROFILE").value)
    ensures ((explicit.None? || explicit.value == []) &&
             (EnvGet(env, "EVQ_PROFILE").None? || EnvGet(env, "EVQ_PROFILE").value == [])) ==> r == "dev"
  {
    var fromEnv := EnvGet(env, "EVQ_PROFILE");
    if explicit.Some? && explicit.value != [] then Strip(explicit.value)
    else if fromEnv.Some? && fromEnv.value != [] then Strip(fromEnv.value)
    else
      assert Strip("dev") == "dev" by { StripNoop("dev"); }
      "dev"
  }

  /** Where the profiles live: the EVQ_CONFIG_DIR directory when it is set and
      non-empty, else the repository's `configs/profiles`. */
  datatype ProfilesDir = OverrideDir(path: string) | RepoProfiles

  function ProfilesDirFor(env: Env): (r: ProfilesDir)
    ensures r.OverrideDir? <==> EnvGet(env, "EVQ_CONFIG_DIR").Some? && EnvGet(env, "EVQ_CONFIG_DIR").value != []
    ensures r.OverrideDir? ==> r.path == EnvGet(env, "EVQ_CONFIG_DIR").value
  {
    match EnvGet(env, "EVQ_CONFIG_DIR")
    case Some(p) => if p != [] then OverrideDir(p) else RepoProfiles
    case None => RepoProfiles
  }

  /** Why `read_text("utf-8")` fails on a path that exists: the bytes are not UTF-8,
      the path is a directory, access is denied, or another OS error. */
  datatype ReadError = NotUtf8 | IsADirectory | NoPermission | OtherOSError

  /** The exception each read failure raises. */
  function ReadErrorName(e: ReadError): string {
    match e
    case NotUtf8 => "UnicodeDecodeError"
    case IsADirectory => "IsADirectoryError"
    case NoPermission => "PermissionError"
    case OtherOSError => "OSError"
  }

  /** What reading `<dir>/<profile>.toml` finds: nothing there, a path whose text
      cannot be read, text that is not TOML, or a parsed table. */
  datatype ProfileFile = Missing | Unreadable(error: ReadError) | Unparseable | Parsed(table: Entries)

  /** `_load_profile_table`: a missing file is an empty table; a read failure raises
      its own exception, since the read happens before the `try`; text that does not
      parse raises RuntimeError. */
  function ProfileTable(file: ProfileFile): (r: Result<Entries>)
    ensures file.Missing? ==> r == Ok([])
    ensures file.Unreadable? ==> r == Err(ReadErrorName(file.error))
    ensures file.Unparseable? ==> r == Err("RuntimeError")
    ensures file.Parsed? ==> r == Ok(file.table)
    ensures r.Err? ==> r.error != "ValidationError"
  {
    match file
    case Missing => Ok([])
    case Unreadable(e) => Err(ReadErrorName(e))
    case Unparseable => Err("RuntimeError")
    case Parsed(t) => Ok(t)
  }

  /** `table.get(name, {})` when it is a dict, else nothing. */
  function Section(table: Entries, name: string): (r: Entries)
    ensures HasKey(table, name) && Lookup(table, name).value.Dict? ==> r == Lookup(table, name).value.entries
    ensures !(HasKey(table, name) && Lookup(table, name).value.Dict?) ==> r == []
  {
    match Lookup(table, name)
    case Some(v) => if v.Dict? then v.entries else []
    case None => []
  }

  // ----- the overlay -------------------------------------------------------------

  /** defaults <- TOML section <- environment. The fields the environment may set are
      the keys after the TOML overlay, so a key the TOML adds can be overridden too. */
  function Overlay(defaults: Entries, section: Entries, env: Env, jsonLoads: string -> Option<Value>): (r: Entries)
    ensures forall k :: HasKey(r, k) <==> HasKey(defaults, k) || HasKey(section, k)
    ensures DistinctKeys(defaults) ==> DistinctKeys(r)
  {
    var base := Update(defaults, section);
    var over := CollectEnv(Keys(base), env, jsonLoads);
    KeysHaveKey(base);
    Update(base, over)
  }

  lemma KeysHaveKey(e: Entries)
    ensures forall k :: k in Keys(e) ==> HasKey(e, k)
  {
    HasKeyIndexAll(e);
  }

  lemma HasKeyIndexAll(e: Entries)
    ensures forall k :: HasKey(e, k) <==> exists i :: 0 <= i < |e| && e[i].0 == k
  {
    forall k ensures HasKey(e, k) <==> exists i :: 0 <= i < |e| && e[i].0 == k {
      HasKeyIndex(e, k);
    }
  }

  /** Precedence: the environment wins over the TOML section, which wins over the
      defaults. */
  lemma OverlayPrecedence(defaults: Entries, section: Entries, env: Env, jsonLoads: string -> Option<Value>, k: string)
    requires DistinctKeys(section)
    ensures var fields := Keys(Update(defaults, section));
      Lookup(Overlay(defaults, section, env, jsonLoads), k) ==
        match LastOverride(fields, env, k)
        case Some(raw) => Some(Coerce(jsonLoads, raw))
        case None => if HasKey(section, k) then Lookup(section, k) else Lookup(defaults, k)
  {
    var base := Update(defaults, section);
    var fields := Keys(base);
    var over := CollectEnv(fields, env, jsonLoads);
    UpdateLookup(base, over, k);
    UpdateLookup(defaults, section, k);
    CollectEnvLookup(fields, env, jsonLoads, k);
  }

  /** Without a profile file and without overriding variables, the defaults survive. */
  lemma DefaultsSurvive(defaults: Entries, env: Env, jsonLoads: string -> Option<Value>)
    requires DistinctKeys(defaults)
    requires forall i :: 0 <= i < |env| ==> !StartsWith(env[i].0, Prefix)
    ensures Overlay(defaults, Section(ProfileTable(Missing).value, "agent"), env, jsonLoads) == defaults
  {
    var over := CollectEnv(Keys(defaults), env, jsonLoads);
    assert over == [] by {
      if over != [] {
        assert HasKey(over, over[0].0);
      }
    }
  }

  // ----- validated settings ------------------------------------------------------

  datatype AgentSettings = AgentSettings(agentId: string, heartbeatHz: real, cmdBind: string, telemBind: string)

  /** The agent's defaults: id "vm1", 5 Hz, command and telemetry endpoints on
      localhost ports 7788 and 7789. */
  const DefaultAgent := AgentSettings("vm1", 5.0, "tcp://127.0.0.1:7788", "tcp://127.0.0.1:7789")

  function DumpAgent(s: AgentSettings): (r: Entries)
    ensures DistinctKeys(r)
  {
    [("agent_id", Str(s.agentId)), ("heartbeat_hz", Float(s.heartbeatHz)),
     ("cmd_bind", Str(s.cmdBind)), ("telem_bind", Str(s.telemBind))]
  }

  /** A `float` field: an int or a float. */
  function AsReal(v: Value): Option<real> {
    match v
    case Int(i) => Some(i as real)
    case Float(f) => Some(f)
    case _ => None
  }

  /** `AgentSettings.model_validate(d)`: each field, when present, must have its type;
      an absent field takes its default. Other keys are ignored. */
  function ValidateAgent(d: Entries): (r: Result<AgentSettings>)
    ensures r.Ok? ==> (HasKey(d, "agent_id") ==> Lookup(d, "agent_id") == Some(Str(r.value.agentId)))
    ensures r.Ok? ==> (!HasKey(d, "agent_id") ==> r.value.agentId == DefaultAgent.agentId)
    ensures r.Ok? ==> (HasKey(d, "heartbeat_hz") ==> AsReal(Lookup(d, "heartbeat_hz").value) == Some(r.value.heartbeatHz))
    ensures r.Err? ==> r.error == "ValidationError"
  {
    var id := GetOr(d, "agent_id", Str(DefaultAgent.agentId));
    var hz := AsReal(GetOr(d, "heartbeat_hz", Float(DefaultAgent.heartbeatHz)));
    var cmd := GetOr(d, "cmd_bind", Str(DefaultAgent.cmdBind));
    var telem := GetOr(d, "telem_bind", Str(DefaultAgent.telemBind));
    if id.Str? && hz.Some? && cmd.Str? && telem.Str? then Ok(AgentSettings(id.s, hz.value, cmd.s, telem.s))
    else Err("ValidationError")
  }

  lemma AgentRoundTrip(s: AgentSettings)
    ensures ValidateAgent(DumpAgent(s)) == Ok(s)
  {
    var d := DumpAgent(s);
    LookupAt(d, 0);
    LookupAt(d, 1);
    LookupAt(d, 2);
    LookupAt(d, 3);
  }

  datatype CoordinatorSettings = CoordinatorSettings(refreshHz: real, agentsCmd: seq<(string, string)>, telemSubs: seq<string>)

  /** The coordinator's defaults: 5 Hz, agent "vm1" at localhost port 7788, and one
      telemetry subscription at localhost port 7789. */
  const DefaultCoordinator := CoordinatorSettings(5.0, [("vm1", "tcp://127.0.0.1:7788")], ["tcp://127.0.0.1:7789"])

  function StrDict(m: seq<(string, string)>): (r: Entries)
    ensures |r| == |m|
    ensures forall i :: 0 <= i < |m| ==> r[i] == (m[i].0, Str(m[i].1))
  {
    seq(|m|, i requires 0 <= i < |m| => (m[i].0, Str(m[i].1)))
  }

  function StrList(xs: seq<string>): (r: seq<Value>)
    ensures |r| == |xs|
    ensures forall i :: 0 <= i < |xs| ==> r[i] == Str(xs[i])
  {
    seq(|xs|, i requires 0 <= i < |xs| => Str(xs[i]))
  }

  function DumpCoordinator(s: CoordinatorSettings): (r: Entries)
    ensures DistinctKeys(r)
  {
    [("refresh_hz", Float(s.refreshHz)), ("agents_cmd", Dict(StrDict(s.agentsCmd))),
     ("telem_subs", List(StrList(s.telemSubs)))]
  }

  /** `dict[str, str]`: every value a string. */
  function AsStrDict(v: Value): (r: Option<seq<(string, string)>>)
    ensures r.Some? ==> v == Dict(StrDict(r.value))
  {
    if v.Dict? && forall i :: 0 <= i < |v.entries| ==> v.entries[i].1.Str? then
      var m := seq(|v.entries|, i requires 0 <= i < |v.entries| => (v.entries[i].0, v.entries[i].1.s));
      assert StrDict(m) == v.entries;
      Some(m)
    else None
  }

  /** `list[str]`: every item a string. */
  function AsStrList(v: Value): (r: Option<seq<string>>)
    ensures r.Some? ==> v == List(StrList(r.value))
  {
    if v.List? && forall i :: 0 <= i < |v.items| ==> v.items[i].Str? then
      var xs := seq(|v.items|, i requires 0 <= i < |v.items| => v.items[i].s);
      assert StrList(xs) == v.items;
      Some(xs)
    else None
  }

  function ValidateCoordinator(d: Entries): (r: Result<CoordinatorSettings>)
    ensures r.Ok? ==> (HasKey(d, "refresh_hz") ==> AsReal(Lookup(d, "refresh_hz").value) == Some(r.value.refreshHz))
    ensures r.Ok? ==> (!HasKey(d, "agents_cmd") ==> r.value.agentsCmd == DefaultCoordinator.agentsCmd)
    ensures r.Err? ==> r.error == "ValidationError"
  {
    var hz := AsReal(GetOr(d, "refresh_hz", Float(DefaultCoordinator.refreshHz)));
    var agents := AsStrDict(GetOr(d, "agents_cmd", Dict(StrDict(DefaultCoordinator.agentsCmd))));
    var subs := AsStrList(GetOr(d, "telem_subs", List(StrList(DefaultCoordinator.telemSubs))));
    if hz.Some? && agents.Some? && subs.Some? then Ok(CoordinatorSettings(hz.value, agents.value, subs.value))
    else Err("ValidationError")
  }

  lemma StrDictInjective(a: seq<(string, string)>, b: seq<(string, string)>)
    requires StrDict(a) == StrDict(b)
    ensures a == b
  {
    assert |a| == |b|;
    forall i | 0 <= i < |a| ensures a[i] == b[i] {
      assert StrDict(a)[i] == StrDict(b)[i];
    }
  }

  lemma StrListInjective(a: seq<string>, b: seq<string>)
    requires StrList(a) == StrList(b)
    ensures a == b
  {
    assert |a| == |b|;
    forall i | 0 <= i < |a| ensures a[i] == b[i] {
      assert StrList(a)[i] == StrList(b)[i];
    }
  }

  lemma CoordinatorRoundTrip(s: CoordinatorSettings)
    ensures ValidateCoordinator(DumpCoordinator(s)) == Ok(s)
  {
    var d := DumpCoordinator(s);
    LookupAt(d, 0);
    LookupAt(d, 1);
    LookupAt(d, 2);
    var agents := AsStrDict(Dict(StrDict(s.agentsCmd)));
    assert agents.Some?;
    StrDictInjective(agents.value, s.agentsCmd);
    var subs := AsStrList(List(StrList(s.telemSubs)));
    assert subs.Some?;
    StrListInjective(subs.value, s.telemSubs);
  }

  // ----- the public loaders ------------------------------------------------------

  /** The profile file a loader reads: the effective environment picks the directory
      and the profile name; `readProfile(dir, name)` is what reading `<dir>/<name>.toml`
      finds. */
  function ProfileFileFor(e: Env, profile: Option<string>, readProfile: (ProfilesDir, string) -> ProfileFile): ProfileFile {
    readProfile(ProfilesDirFor(e), ProfileName(profile, e))
  }

  /** The named section of what was read; a missing file has none. */
  function SectionOf(file: ProfileFile, name: string): Entries {
    if file.Parsed? then Section(file.table, name) else []
  }

  /** The value that decides field `k` of the merged settings: the coerced value of the
      last variable overriding it, else the section's value, else the default. */
  function Decisive(defaults: Entries, section: Entries, env: Env, jsonLoads: string -> Option<Value>, k: string): Option<Value> {
    match LastOverride(Keys(Update(defaults, section)), env, k)
    case Some(raw) => Some(Coerce(jsonLoads, raw))
    case None => if HasKey(section, k) then Lookup(section, k) else Lookup(defaults, k)
  }

  /** The merged dict holds, under each key, the value that decides it. */
  lemma OverlayDecisive(defaults: Entries, section: Entries, env: Env, jsonLoads: string -> Option<Value>, k: string)
    requires DistinctKeys(section)
    ensures Lookup(Overlay(defaults, section, env, jsonLoads), k) == Decisive(defaults, section, env, jsonLoads, k)
  {
    OverlayPrecedence(defaults, section, env, jsonLoads, k);
  }

  /** No two names that differ only in case, so `upper_to_field` does not depend on
      set iteration order. */
  predicate UpperDistinct(names: seq<string>) {
    forall i, j :: 0 <= i < j < |names| ==> Upper(names[i]) != Upper(names[j])
  }

  /** A present string value. */
  predicate StrIn(o: Option<Value>) {
    o.Some? && o.value.Str?
  }

  /** A present int or float value. */
  predicate RealIn(o: Option<Value>) {
    o.Some? && AsReal(o.value).Some?
  }

  /** `load_agent_settings(env, profile)`; `osEnviron` is the process environment. */
  function LoadAgent(env: Option<Env>, osEnviron: Env, profile: Option<string>,
                     readProfile: (ProfilesDir, string) -> ProfileFile,
                     jsonLoads: string -> Option<Value>): (r: Result<AgentSettings>)
    ensures var file := ProfileFileFor(EffectiveEnv(env, osEnviron), profile, readProfile);
      && (file.Unparseable? <==> r == Err("RuntimeError"))
      && (file.Unreadable? ==> r == Err(ReadErrorName(file.error)))
      && (file.Missing? || file.Parsed? ==> r.Ok? || r == Err("ValidationError"))
  {
    var e := EffectiveEnv(env, osEnviron);
    AgentFromFile(ProfileFileFor(e, profile, readProfile), e, jsonLoads)
  }

  /** The agent settings from what reading the profile found. */
  function AgentFromFile(file: ProfileFile, e: Env, jsonLoads: string -> Option<Value>): (r: Result<AgentSettings>)
    ensures file.Unparseable? <==> r == Err("RuntimeError")
    ensures file.Unreadable? ==> r == Err(ReadErrorName(file.error))
    ensures file.Missing? || file.Parsed? ==> r.Ok? || r == Err("ValidationError")
  {
    match ProfileTable(file)
    case Err(x) => Err(x)
    case Ok(table) => AgentFrom(Section(table, "agent"), e, jsonLoads)
  }

  /** The validated agent settings from a section and an environment. */
  function AgentFrom(sec: Entries, e: Env, jsonLoads: string -> Option<Value>): (r: Result<AgentSettings>)
    ensures r.Err? ==> r.error == "ValidationError"
  {
    ValidateAgent(Overlay(DumpAgent(DefaultAgent), sec, e, jsonLoads))
  }

  /** Each field of the validated settings is the value that decides it. */
  lemma AgentFromFields(sec: Entries, e: Env, jsonLoads: string -> Option<Value>)
    requires DistinctKeys(sec)
    ensures var d := DumpAgent(DefaultAgent);
      var r := AgentFrom(sec, e, jsonLoads);
      && (r.Ok? <==>
            StrIn(Decisive(d, sec, e, jsonLoads, "agent_id")) && RealIn(Decisive(d, sec, e, jsonLoads, "heartbeat_hz")) &&
            StrIn(Decisive(d, sec, e, jsonLoads, "cmd_bind")) && StrIn(Decisive(d, sec, e, jsonLoads, "telem_bind")))
      && (r.Ok? ==>
            && Decisive(d, sec, e, jsonLoads, "agent_id") == Some(Str(r.value.agentId))
            && AsReal(Decisive(d, sec, e, jsonLoads, "heartbeat_hz").value) == Some(r.value.heartbeatHz)
            && Decisive(d, sec, e, jsonLoads, "cmd_bind") == Some(Str(r.value.cmdBind))
            && Decisive(d, sec, e, jsonLoads, "telem_bind") == Some(Str(r.value.telemBind)))
  {
    var d := DumpAgent(DefaultAgent);
    var merged := Overlay(d, sec, e, jsonLoads);
    OverlayDecisive(d, sec, e, jsonLoads, "agent_id");
    OverlayDecisive(d, sec, e, jsonLoads, "heartbeat_hz");
    OverlayDecisive(d, sec, e, jsonLoads, "cmd_bind");
    OverlayDecisive(d, sec, e, jsonLoads, "telem_bind");
    assert HasKey(d, "agent_id") && HasKey(d, "heartbeat_hz") && HasKey(d, "cmd_bind") && HasKey(d, "telem_bind");
    ValidateAgentFields(merged);
  }

  /** `AgentSettings.model_validate` on a dict holding every field: it succeeds exactly
      when each field has its type, and then reads each field back. */
  lemma ValidateAgentFields(d: Entries)
    requires HasKey(d, "agent_id") && HasKey(d, "heartbeat_hz") && HasKey(d, "cmd_bind") && HasKey(d, "telem_bind")
    ensures ValidateAgent(d).Ok? <==>
      StrIn(Lookup(d, "agent_id")) && RealIn(Lookup(d, "heartbeat_hz")) &&
      StrIn(Lookup(d, "cmd_bind")) && StrIn(Lookup(d, "telem_bind"))
    ensures ValidateAgent(d).Ok? ==>
      var s := ValidateAgent(d).value;
      && Lookup(d, "agent_id") == Some(Str(s.agentId))
      && AsReal(Lookup(d, "heartbeat_hz").value) == Some(s.heartbeatHz)
      && Lookup(d, "cmd_bind") == Some(Str(s.cmdBind))
      && Lookup(d, "telem_bind") == Some(Str(s.telemBind))
  {
  }

  lemma LoadAgentFromSection(env: Option<Env>, osEnviron: Env, profile: Option<string>,
                             readProfile: (ProfilesDir, string) -> ProfileFile,
                             jsonLoads: string -> Option<Value>)
    ensures var e := EffectiveEnv(env, osEnviron);
      var file := ProfileFileFor(e, profile, readProfile);
      file.Missing? || file.Parsed? ==> LoadAgent(env, osEnviron, profile, readProfile, jsonLoads) == AgentFrom(SectionOf(file, "agent"), e, jsonLoads)
  {
  }

  /** End to end, each agent field comes from the last `EVQ_` variable naming it
      (coerced), else from the profile's [agent] section, else from the default; loading
      succeeds exactly when the file is missing or parses and every such value has its
      field's type. A parsed section is a Python dict, so its keys are distinct; no key
      of the merged dict may equal another up to case (see `FieldFor`). */
  lemma LoadAgentPrecedence(env: Option<Env>, osEnviron: Env, profile: Option<string>,
                            readProfile: (ProfilesDir, string) -> ProfileFile,
                            jsonLoads: string -> Option<Value>)
    requires DistinctKeys(SectionOf(ProfileFileFor(EffectiveEnv(env, osEnviron), profile, readProfile), "agent"))
    requires UpperDistinct(Keys(Update(DumpAgent(DefaultAgent),
                                       SectionOf(ProfileFileFor(EffectiveEnv(env, osEnviron), profile, readProfile), "agent"))))
    ensures var e := EffectiveEnv(env, osEnviron);
      var file := ProfileFileFor(e, profile, readProfile);
      var d := DumpAgent(DefaultAgent);
      var sec := SectionOf(file, "agent");
      var r := LoadAgent(env, osEnviron, profile, readProfile, jsonLoads);
      && (r.Ok? <==>
            (file.Missing? || file.Parsed?) &&
            StrIn(Decisive(d, sec, e, jsonLoads, "agent_id")) && RealIn(Decisive(d, sec, e, jsonLoads, "heartbeat_hz")) &&
            StrIn(Decisive(d, sec, e, jsonLoads, "cmd_bind")) && StrIn(Decisive(d, sec, e, jsonLoads, "telem_bind")))
      && (r.Ok? ==>
            && Decisive(d, sec, e, jsonLoads, "agent_id") == Some(Str(r.value.agentId))
            && AsReal(Decisive(d, sec, e, jsonLoads, "heartbeat_hz").value) == Some(r.value.heartbeatHz)
            && Decisive(d, sec, e, jsonLoads, "cmd_bind") == Some(Str(r.value.cmdBind))
            && Decisive(d, sec, e, jsonLoads, "telem_bind") == Some(Str(r.value.telemBind)))
  {
    var e := EffectiveEnv(env, osEnviron);
    var file := ProfileFileFor(e, profile, readProfile);
    LoadAgentFromSection(env, osEnviron, profile, readProfile, jsonLoads);
    AgentFromFields(SectionOf(file, "agent"), e, jsonLoads);
  }

  /** `load_coordinator_settings(env, profile)`, the same with the "coordinator" section. */
  function LoadCoordinator(env: Option<Env>, osEnviron: Env, profile: Option<string>,
                           readProfile: (ProfilesDir, string) -> ProfileFile,
                           jsonLoads: string -> Option<Value>): (r: Result<CoordinatorSettings>)
    ensures var file := ProfileFileFor(EffectiveEnv(env, osEnviron), profile, readProfile);
      && (file.Unparseable? <==> r == Err("RuntimeError"))
      && (file.Unreadable? ==> r == Err(ReadErrorName(file.error)))
      && (file.Missing? || file.Parsed? ==> r.Ok? || r == Err("ValidationError"))
  {
    var e := EffectiveEnv(env, osEnviron);
    CoordinatorFromFile(ProfileFileFor(e, profile, readProfile), e, jsonLoads)
  }

  /** The coordinator settings from what reading the profile found. */
  function CoordinatorFromFile(file: ProfileFile, e: Env, jsonLoads: string -> Option<Value>): (r: Result<CoordinatorSettings>)
    ensures file.Unparseable? <==> r == Err("RuntimeError")
    ensures file.Unreadable? ==> r == Err(ReadErrorName(file.error))
    ensures file.Missing? || file.Parsed? ==> r.Ok? || r == Err("ValidationError")
  {
    match ProfileTable(file)
    case Err(x) => Err(x)
    case Ok(table) => CoordinatorFrom(Section(table, "coordinator"), e, jsonLoads)
  }

  /** The validated coordinator settings from a section and an environment. */
  function CoordinatorFrom(sec: Entries, e: Env, jsonLoads: string -> Option<Value>): (r: Result<CoordinatorSettings>)
    ensures r.Err? ==> r.error == "ValidationError"
  {
    ValidateCoordinator(Overlay(DumpCoordinator(DefaultCoordinator), sec, e, jsonLoads))
  }

  /** Each field of the validated settings is the value that decides it. */
  lemma CoordinatorFromFields(sec: Entries, e: Env, jsonLoads: string -> Option<Value>)
    requires DistinctKeys(sec)
    ensures var d := DumpCoordinator(DefaultCoordinator);
      var r := CoordinatorFrom(sec, e, jsonLoads);
      && (r.Ok? <==>
            RealIn(Decisive(d, sec, e, jsonLoads, "refresh_hz")) &&
            Decisive(d, sec, e, jsonLoads, "agents_cmd").Some? &&
            AsStrDict(Decisive(d, sec, e, jsonLoads, "agents_cmd").value).Some? &&
            Decisive(d, sec, e, jsonLoads, "telem_subs").Some? &&
            AsStrList(Decisive(d, sec, e, jsonLoads, "telem_subs").value).Some?)
      && (r.Ok? ==>
            && AsReal(Decisive(d, sec, e, jsonLoads, "refresh_hz").value) == Some(r.value.refreshHz)
            && Decisive(d, sec, e, jsonLoads, "agents_cmd") == Some(Dict(StrDict(r.value.agentsCmd)))
            && Decisive(d, sec, e, jsonLoads, "telem_subs") == Some(List(StrList(r.value.telemSubs))))
  {
    var d := DumpCoordinator(DefaultCoordinator);
    var merged := Overlay(d, sec, e, jsonLoads);
    OverlayDecisive(d, sec, e, jsonLoads, "refresh_hz");
    OverlayDecisive(d, sec, e, jsonLoads, "agents_cmd");
    OverlayDecisive(d, sec, e, jsonLoads, "telem_subs");
    assert HasKey(d, "refresh_hz") && HasKey(d, "agents_cmd") && HasKey(d, "telem_subs");
    ValidateCoordinatorFields(merged);
  }

  /** `CoordinatorSettings.model_validate` on a dict holding every field. */
  lemma ValidateCoordinatorFields(d: Entries)
    requires HasKey(d, "refresh_hz") && HasKey(d, "agents_cmd") && HasKey(d, "telem_subs")
    ensures ValidateCoordinator(d).Ok? <==>
      RealIn(Lookup(d, "refresh_hz")) && AsStrDict(Lookup(d, "agents_cmd").value).Some? &&
      AsStrList(Lookup(d, "telem_subs").value).Some?
    ensures ValidateCoordinator(d).Ok? ==>
      var s := ValidateCoordinator(d).value;
      && AsReal(Lookup(d, "refresh_hz").value) == Some(s.refreshHz)
      && Lookup(d, "agents_cmd") == Some(Dict(StrDict(s.agentsCmd)))
      && Lookup(d, "telem_subs") == Some(List(StrList(s.telemSubs)))
  {
  }

  lemma LoadCoordinatorFromSection(env: Option<Env>, osEnviron: Env, profile: Option<string>,
                                   readProfile: (ProfilesDir, string) -> ProfileFile,
                                   jsonLoads: string -> Option<Value>)
    ensures var e := EffectiveEnv(env, osEnviron);
      var file := ProfileFileFor(e, profile, readProfile);
      file.Missing? || file.Parsed? ==>
        LoadCoordinator(env, osEnviron, profile, readProfile, jsonLoads) == CoordinatorFrom(SectionOf(file, "coordinator"), e, jsonLoads)
  {
  }

  /** End to end, each coordinator field comes from the last `EVQ_` variable naming it
      (coerced), else from the [coordinator] section, else from the default; loading
      succeeds exactly when the file is missing or parses and every such value has its
      field's type. */
  lemma LoadCoordinatorPrecedence(env: Option<Env>, osEnviron: Env, profile: Option<string>,
                                  readProfile: (ProfilesDir, string) -> ProfileFile,
                                  jsonLoads: string -> Option<Value>)
    requires DistinctKeys(SectionOf(ProfileFileFor(EffectiveEnv(env, osEnviron), profile, readProfile), "coordinator"))
    requires UpperDistinct(Keys(Update(DumpCoordinator(DefaultCoordinator),
                                       SectionOf(ProfileFileFor(EffectiveEnv(env, osEnviron), profile, readProfile), "coordinator"))))
    ensures var e := EffectiveEnv(env, osEnviron);
      var file := ProfileFileFor(e, profile, readProfile);
      var d := DumpCoordinator(DefaultCoordinator);
      var sec := SectionOf(file, "coordinator");
      var r := LoadCoordinator(env, osEnviron, profile, readProfile, jsonLoads);
      && (r.Ok? <==>
            (file.Missing? || file.Parsed?) &&
            RealIn(Decisive(d, sec, e, jsonLoads, "refresh_hz")) &&
            Decisive(d, sec, e, jsonLoads, "agents_cmd").Some? &&
            AsStrDict(Decisive(d, sec, e, jsonLoads, "agents_cmd").value).Some? &&
            Decisive(d, sec, e, jsonLoads, "telem_subs").Some? &&
            AsStrList(Decisive(d, sec, e, jsonLoads, "telem_subs").value).Some?)
      && (r.Ok? ==>
            && AsReal(Decisive(d, sec, e, jsonLoads, "refresh_hz").value) == Some(r.value.refreshHz)
            && Decisive(d, sec, e, jsonLoads, "agents_cmd") == Some(Dict(StrDict(r.value.agentsCmd)))
            && Decisive(d, sec, e, jsonLoads, "telem_subs") == Some(List(StrList(r.value.telemSubs))))
  {
    var e := EffectiveEnv(env, osEnviron);
    var file := ProfileFileFor(e, profile, readProfile);
    LoadCoordinatorFromSection(env, osEnviron, profile, readProfile, jsonLoads);
    CoordinatorFromFields(SectionOf(file, "coordinator"), e, jsonLoads);
  }

  /** A missing profile file and no overriding variables give the default agent settings. */
  lemma AgentDefaultsWithoutProfile(env: Env, profile: Option<string>,
                                    readProfile: (ProfilesDir, string) -> ProfileFile,
                                    jsonLoads: string -> Option<Value>)
    requires env != []
    requires forall i :: 0 <= i < |env| ==> !StartsWith(env[i].0, Prefix)
    requires readProfile(ProfilesDirFor(env), ProfileName(profile, env)) == Missing
    ensures LoadAgent(Some(env), [], profile, readProfile, jsonLoads) == Ok(DefaultAgent)
  {
    DefaultsSurvive(DumpAgent(DefaultAgent), env, jsonLoads);
    AgentRoundTrip(DefaultAgent);
  }
}
