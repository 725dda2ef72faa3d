/** The in-memory telemetry and metrics ports: append-only logs of what was
    published or observed. */
module TelemetryFakes {
  import opened Common
  import opened PyValue

  /** What `publish` may be handed: a mapping, an object with `model_dump()` (whose
      dump is given), or anything else (only its type name matters). */
  datatype Publishable = Mapping(m: Entries) | ModelDumpLike(dump: Entries) | Other(typeName: string)

  datatype TelemetryPort = TelemetryPort(records: seq<Entries>)

  const NewTelemetryPort := TelemetryPort([])

  /** The dict `publish` stores for a value it accepts. */
  function Contents(rec: Publishable): Option<Entries> {
    match rec
    case Mapping(m) => Some(m)
    case ModelDumpLike(dump) => Some(dump)
    case Other(_) => None
  }

  /** `FakeTelemetryPort.publish`: a mapping is stored as a copy, a model as its dump;
      anything else raises TypeError and leaves the log alone. Earlier records never change. */
  function Publish(p: TelemetryPort, rec: Publishable): (r: Result<TelemetryPort>)
    ensures r.Ok? <==> Contents(rec).Some?
    ensures r.Err? ==> r.error == "TypeError"
    ensures r.Ok? ==>
      && |r.value.records| == |p.records| + 1
      && r.value.records[..|p.records|] == p.records
      && r.value.records[|p.records|] == Contents(rec).value
  {
    match Contents(rec)
    case None => Err("TypeError")
    case Some(d) => Ok(TelemetryPort(p.records + [d]))
  }

  /** Publishing a sequence of values in turn, stopping at the first one that raises;
      what was published before the raise stays published. */
  function PublishAll(p: TelemetryPort, recs: seq<Publishable>): (r: (TelemetryPort, Option<string>))
    decreases |recs|
  {
    if recs == [] then (p, None)
    else
      match Publish(p, recs[0])
      case Err(e) => (p, Some(e))
      case Ok(p1) => PublishAll(p1, recs[1..])
  }

  predicate AllAccepted(recs: seq<Publishable>) {
    forall i :: 0 <= i < |recs| ==> Contents(recs[i]).Some?
  }

  /** The log lists the accepted values in publish order, after what was there. */
  lemma {:induction false} PublishOrder(p: TelemetryPort, recs: seq<Publishable>)
    requires AllAccepted(recs)
    ensures var (q, err) := PublishAll(p, recs);
      && err == None
      && |q.records| == |p.records| + |recs|
      && q.records[..|p.records|] == p.records
      && forall i :: 0 <= i < |recs| ==> q.records[|p.records| + i] == Contents(recs[i]).value
    decreases |recs|
  {
    if recs != [] {
      var p1 := Publish(p, recs[0]).value;
      PublishOrder(p1, recs[1..]);
      var q := PublishAll(p1, recs[1..]).0;
      assert q.records[..|p.records|] == q.records[..|p1.records|][..|p.records|];
      forall i | 0 <= i < |recs|
        ensures q.records[|p.records| + i] == Contents(recs[i]).value
      {
        if i > 0 {
          assert recs[1..][i - 1] == recs[i];
        }
      }
    }
  }

  /** A value that raises stops the sequence there: the log holds exactly what came
      before it. */
  lemma {:induction false} PublishStopsAtReject(p: TelemetryPort, recs: seq<Publishable>, k: nat)
    requires k < |recs| && Contents(recs[k]).None? && AllAccepted(recs[..k])
    ensures var (q, err) := PublishAll(p, recs);
      && err == Some("TypeError")
      && |q.records| == |p.records| + k
      && q.records[..|p.records|] == p.records
    decreases k
  {
    if k > 0 {
      var p1 := Publish(p, recs[0]).value;
      assert recs[1..][..k - 1] == recs[..k][1..];
      PublishStopsAtReject(p1, recs[1..], k - 1);
      var q := PublishAll(p1, recs[1..]).0;
      assert q.records[..|p.records|] == q.records[..|p1.records|][..|p.records|];
    }
  }

  // ----- metrics -----------------------------------------------------------------

  datatype Sample = Sample(name: string, value: real, labels: seq<(string, string)>)

  datatype MetricsPort = MetricsPort(samples: seq<Sample>)

  /** `FakeMetricsPort.observe(name, value, **labels)`: appends one sample holding
      `float(value)`; a value `float()` cannot convert raises and appends nothing. */
  function Observe(m: MetricsPort, name: string, value: Value, labels: seq<(string, string)>): (r: Result<MetricsPort>)
    ensures r.Ok? <==> ToFloat(value).Ok?
    ensures r.Err? ==> r.error == ToFloat(value).error
    ensures r.Ok? ==>
      && |r.value.samples| == |m.samples| + 1
      && r.value.samples[..|m.samples|] == m.samples
      && r.value.samples[|m.samples|] == Sample(name, ToFloat(value).value, labels)
  {
    match ToFloat(value)
    case Err(e) => Err(e)
    case Ok(x) => Ok(MetricsPort(m.samples + [Sample(name, x, labels)]))
  }

  /** An int observation is stored as the same number. */
  lemma ObserveInt(m: MetricsPort, name: string, i: int, labels: seq<(string, string)>)
    ensures Observe(m, name, Int(i), labels) == Ok(MetricsPort(m.samples + [Sample(name, i as real, labels)]))
  {
  }
}
