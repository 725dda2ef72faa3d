/** The in-memory command and telemetry-subscription ports: a last-write-wins log of
    the command sent to each address, and a FIFO queue of injected telemetry records. */
module IpcFakes {
  import opened Common
  import opened PyValue

  // ----- command port ------------------------------------------------------------

  /** `FakeAgentCommandPort`: the last payload sent to each address. */
  datatype CommandPort = CommandPort(sent: map<string, Entries>)

  const NewCommandPort := CommandPort(map[])

  /** What `send` may be handed, as `dict(cmd)` sees it: a mapping (a dict, or the
      dump of a model), another iterable given by its items in iteration order, or an
      object that is neither, such as the `SimpleNamespace` the coordinator sends. */
  datatype Command = Mapping(entries: Entries) | Iterable(items: seq<Value>) | Opaque

  /** One item of an iterable as a (key, value) pair for `dict`: the item must itself
      iterate to exactly two things. A 2-item list gives its items; a 2-character
      string its characters; a 2-key dict its keys. Other lengths raise ValueError, and
      an item that does not iterate, or whose key is a list or dict (unhashable), raises
      TypeError. A key that is hashable but not a string cannot be represented here. */
  function PairOf(item: Value): (r: Result<(string, Value)>)
    ensures r.Err? ==> r.error in {"ValueError", "TypeError", "NonStringKey"}
  {
    match item
    case List(xs) =>
      if |xs| != 2 then Err("ValueError")
      else if xs[0].Str? then Ok((xs[0].s, xs[1]))
      else if xs[0].List? || xs[0].Dict? then Err("TypeError")
      else Err("NonStringKey")
    case Str(t) => if |t| == 2 then Ok(([t[0]], Str([t[1]]))) else Err("ValueError")
    case Dict(e) => if |e| == 2 then Ok((e[0].0, Str(e[1].0))) else Err("ValueError")
    case _ => Err("TypeError")
  }

  /** `dict(items)`: the pairs are put in order into an empty dict, so a repeated key
      keeps its first position and its last value; the first bad item raises. */
  function PairsToDict(acc: Entries, items: seq<Value>): (r: Result<Entries>)
    decreases |items|
  {
    if items == [] then Ok(acc)
    else match PairOf(items[0])
      case Err(x) => Err(x)
      case Ok(kv) => PairsToDict(Put(acc, kv.0, kv.1), items[1..])
  }

  /** `dict(cmd) if not isinstance(cmd, dict) else cmd`. */
  function AsPayload(cmd: Command): (r: Result<Entries>)
    ensures cmd.Mapping? ==> r == Ok(cmd.entries)
    ensures cmd.Opaque? ==> r == Err("TypeError")
  {
    match cmd
    case Mapping(e) => Ok(e)
    case Iterable(items) => PairsToDict([], items)
    case Opaque => Err("TypeError")
  }

  /** The canned reply to every send. */
  function SendReply(payload: Entries): (r: Entries)
    ensures DistinctKeys(r)
  {
    [("ok", Bool(true)), ("echo", Dict(payload))]
  }

  /** Recording a payload: it is stored under `addr`, replacing what was there; other
      addresses keep theirs; the reply echoes it. */
  function Store(p: CommandPort, addr: string, payload: Entries): (r: (CommandPort, Entries))
    ensures addr in r.0.sent && r.0.sent[addr] == payload
    ensures r.0.sent.Keys == p.sent.Keys + {addr}
    ensures forall a :: a in p.sent && a != addr ==> r.0.sent[a] == p.sent[a]
    ensures Lookup(r.1, "ok") == Some(Bool(true))
    ensures Lookup(r.1, "echo") == Some(Dict(payload))
  {
    LookupAt(SendReply(payload), 0);
    LookupAt(SendReply(payload), 1);
    (CommandPort(p.sent[addr := payload]), SendReply(payload))
  }

  /** `send(addr, cmd)`: the command is turned into a dict and recorded; when `dict(cmd)`
      raises, the error propagates and nothing is recorded. A dict is recorded as given;
      an object that is not iterable raises TypeError. */
  function Send(p: CommandPort, addr: string, cmd: Command): (r: Result<(CommandPort, Entries)>)
    ensures r.Ok? <==> AsPayload(cmd).Ok?
    ensures r.Ok? ==> r.value == Store(p, addr, AsPayload(cmd).value)
    ensures r.Err? ==> r.error == AsPayload(cmd).error
    ensures cmd.Mapping? ==> r.Ok? && r.value.0.sent[addr] == cmd.entries
    ensures cmd.Opaque? ==> r == Err("TypeError")
  {
    match AsPayload(cmd)
    case Err(x) => Err(x)
    case Ok(payload) => Ok(Store(p, addr, payload))
  }

  /** The key and value of the last pair among `items` whose key is `k`, if any. */
  function LastPairValue(items: seq<Value>, k: string): Option<Value>
    decreases |items|
  {
    if items == [] then None
    else
      var last := items[|items| - 1];
      if PairOf(last).Ok? && PairOf(last).value.0 == k then Some(PairOf(last).value.1)
      else LastPairValue(items[..|items| - 1], k)
  }

  lemma {:induction false} PairsToDictOkAcc(acc: Entries, items: seq<Value>)
    ensures PairsToDict(acc, items).Ok? <==> forall i :: 0 <= i < |items| ==> PairOf(items[i]).Ok?
    decreases |items|
  {
    if items != [] {
      match PairOf(items[0])
      case Err(_) =>
      case Ok(kv) =>
        PairsToDictOkAcc(Put(acc, kv.0, kv.1), items[1..]);
        assert forall i :: 1 <= i < |items| ==> items[1..][i - 1] == items[i];
    }
  }

  /** `dict(items)` succeeds exactly when every item is a pair. */
  lemma PairsToDictOk(items: seq<Value>)
    ensures AsPayload(Iterable(items)).Ok? <==> forall i :: 0 <= i < |items| ==> PairOf(items[i]).Ok?
  {
    PairsToDictOkAcc([], items);
  }

  lemma {:induction false} PairsToDictLookupAcc(acc: Entries, items: seq<Value>, k: string)
    requires PairsToDict(acc, items).Ok?
    ensures Lookup(PairsToDict(acc, items).value, k) ==
      match LastPairValue(items, k)
      case Some(v) => Some(v)
      case None => Lookup(acc, k)
    ensures DistinctKeys(acc) ==> DistinctKeys(PairsToDict(acc, items).value)
    decreases |items|
  {
    if items != [] {
      var kv := PairOf(items[0]).value;
      var acc' := Put(acc, kv.0, kv.1);
      PutDistinctIf(acc, kv.0, kv.1);
      PairsToDictLookupAcc(acc', items[1..], k);
      LastPairSplit(items, k);
    }
  }

  /** The last pair for `k` is in the tail when there is one there, else it is the head's. */
  lemma {:induction false} LastPairSplit(items: seq<Value>, k: string)
    requires items != []
    ensures LastPairValue(items, k) ==
      match LastPairValue(items[1..], k)
      case Some(v) => Some(v)
      case None => if PairOf(items[0]).Ok? && PairOf(items[0]).value.0 == k then Some(PairOf(items[0]).value.1) else None
    decreases |items|
  {
    if |items| > 1 {
      var init := items[..|items| - 1];
      assert init[1..] == items[1..][..|items[1..]| - 1];
      assert items[1..][|items[1..]| - 1] == items[|items| - 1];
      assert init[0] == items[0];
      LastPairSplit(init, k);
    } else {
      assert items[..0] == [];
      assert items[1..] == [];
    }
  }

  /** The dict `dict(items)` builds has distinct keys, and each key holds the value of
      the last pair naming it. */
  lemma PairsToDictLookup(items: seq<Value>, k: string)
    requires AsPayload(Iterable(items)).Ok?
    ensures DistinctKeys(AsPayload(Iterable(items)).value)
    ensures Lookup(AsPayload(Iterable(items)).value, k) == LastPairValue(items, k)
  {
    PairsToDictLookupAcc([], items, k);
  }

  /** A dict's items as 2-item lists, in order: `list(d.items())`. */
  function ItemsOf(e: Entries): (r: seq<Value>)
    ensures |r| == |e|
    ensures forall i :: 0 <= i < |e| ==> r[i] == List([Str(e[i].0), e[i].1])
  {
    seq(|e|, i requires 0 <= i < |e| => List([Str(e[i].0), e[i].1]))
  }

  lemma {:induction false} ItemsRebuild(acc: Entries, e: Entries)
    requires DistinctKeys(acc + e)
    ensures PairsToDict(acc, ItemsOf(e)) == Ok(acc + e)
    decreases |e|
  {
    if e != [] {
      FreshKeyAppends(acc, e);
      var acc' := acc + [e[0]];
      assert acc' + e[1..] == acc + e;
      ItemsStep(acc, e);
      ItemsRebuild(acc', e[1..]);
    } else {
      assert acc + e == acc;
    }
  }

  /** The next key of a dict being rebuilt is new, so putting it appends it. */
  lemma FreshKeyAppends(acc: Entries, e: Entries)
    requires e != [] && DistinctKeys(acc + e)
    ensures Put(acc, e[0].0, e[0].1) == acc + [e[0]]
  {
    assert !HasKey(acc, e[0].0) by {
      HasKeyIndex(acc, e[0].0);
      assert forall i :: 0 <= i < |acc| ==> (acc + e)[i] == acc[i];
      assert (acc + e)[|acc|] == e[0];
    }
    PutAppends(acc, e[0].0, e[0].1);
  }

  /** One step of `dict(items)` over a dict's own items. */
  lemma ItemsStep(acc: Entries, e: Entries)
    requires e != []
    ensures PairsToDict(acc, ItemsOf(e)) == PairsToDict(Put(acc, e[0].0, e[0].1), ItemsOf(e[1..]))
  {
    var items := ItemsOf(e);
    assert items[1..] == ItemsOf(e[1..]);
    assert PairOf(items[0]) == Ok(e[0]);
  }

  lemma PutAppends(acc: Entries, k: string, v: Value)
    requires !HasKey(acc, k)
    ensures Put(acc, k, v) == acc + [(k, v)]
  {
    if acc != [] {
      PutAppends(acc[1..], k, v);
    }
  }

  /** Round trip: sending a dict's item pairs records that same dict. */
  lemma ItemsRoundTrip(e: Entries)
    requires DistinctKeys(e)
    ensures AsPayload(Iterable(ItemsOf(e))) == Ok(e)
  {
    assert [] + e == e;
    ItemsRebuild([], e);
  }

  /** Sending twice to one address keeps only the later payload. */
  lemma LastWriteWins(p: CommandPort, addr: string, c1: Entries, c2: Entries)
    ensures Store(Store(p, addr, c1).0, addr, c2).0 == Store(p, addr, c2).0
  {
  }

  /** Sends to different addresses do not interfere: their order does not matter. */
  lemma SendsCommute(p: CommandPort, a: string, ca: Entries, b: string, cb: Entries)
    requires a != b
    ensures Store(Store(p, a, ca).0, b, cb).0 == Store(Store(p, b, cb).0, a, ca).0
  {
  }

  // ----- telemetry subscription port ---------------------------------------------

  /** `FakeTelemetrySubPort`: the subscribed addresses and the pending records, oldest first. */
  datatype SubPort = SubPort(subs: set<string>, queue: seq<Entries>)

  const NewSubPort := SubPort({}, [])

  /** `subscribe(addr)`: records the address; the queue is neither filtered nor touched. */
  function Subscribe(p: SubPort, addr: string): (r: SubPort)
    ensures r.subs == p.subs + {addr}
    ensures r.queue == p.queue
  {
    p.(subs := p.subs + {addr})
  }

  lemma SubscribeIdempotent(p: SubPort, addr: string)
    ensures Subscribe(Subscribe(p, addr), addr) == Subscribe(p, addr)
  {
  }

  /** `inject(record)`: enqueues the record behind everything pending. */
  function Inject(p: SubPort, record: Entries): (r: SubPort)
    ensures r.subs == p.subs
    ensures r.queue == p.queue + [record]
  {
    p.(queue := p.queue + [record])
  }

  /** `recv(timeout_ms)`: the oldest pending record, removed from the queue, or None
      when nothing is pending (nothing is injected while it waits). */
  function Recv(p: SubPort): (r: (SubPort, Option<Entries>))
    ensures p.queue == [] ==> r == (p, None)
    ensures p.queue != [] ==> r.1 == Some(p.queue[0]) && [p.queue[0]] + r.0.queue == p.queue
    ensures r.0.subs == p.subs
  {
    if p.queue == [] then (p, None) else (p.(queue := p.queue[1..]), Some(p.queue[0]))
  }

  function InjectAll(p: SubPort, records: seq<Entries>): (r: SubPort)
    decreases |records|
  {
    if records == [] then p else InjectAll(Inject(p, records[0]), records[1..])
  }

  /** `n` calls of `recv`, collecting what each returned. */
  function RecvN(p: SubPort, n: nat): (r: (SubPort, seq<Option<Entries>>))
    decreases n
  {
    if n == 0 then (p, [])
    else
      var (p1, x) := Recv(p);
      var (p2, xs) := RecvN(p1, n - 1);
      (p2, [x] + xs)
  }

  lemma {:induction false} InjectAllQueue(p: SubPort, records: seq<Entries>)
    ensures InjectAll(p, records) == p.(queue := p.queue + records)
    decreases |records|
  {
    if records != [] {
      InjectAllQueue(Inject(p, records[0]), records[1..]);
      assert p.queue + [records[0]] + records[1..] == p.queue + records;
    }
  }

  function Wrap(records: seq<Entries>): (r: seq<Option<Entries>>)
    ensures |r| == |records|
    ensures forall i :: 0 <= i < |records| ==> r[i] == Some(records[i])
  {
    seq(|records|, i requires 0 <= i < |records| => Some(records[i]))
  }

  /** Receiving as many times as there are pending records returns exactly those
      records, oldest first, and empties the queue. */
  lemma {:induction false} RecvDrains(p: SubPort)
    ensures RecvN(p, |p.queue|) == (p.(queue := []), Wrap(p.queue))
    decreases |p.queue|
  {
    if p.queue != [] {
      var (p1, x) := Recv(p);
      RecvDrains(p1);
      assert [x] + Wrap(p1.queue) == Wrap(p.queue);
    }
  }

  /** FIFO: records injected into an idle port come back from `recv` in injection
      order, and one more `recv` finds nothing. */
  lemma Fifo(p: SubPort, records: seq<Entries>)
    requires p.queue == []
    ensures var q := InjectAll(p, records);
      && RecvN(q, |records|).1 == Wrap(records)
      && Recv(RecvN(q, |records|).0).1 == None
  {
    InjectAllQueue(p, records);
    RecvDrains(InjectAll(p, records));
  }

  /** Subscribing between injections changes nothing `recv` returns. */
  lemma SubscribeDoesNotFilter(p: SubPort, addr: string, n: nat)
    ensures RecvN(Subscribe(p, addr), n).1 == RecvN(p, n).1
    decreases n
  {
    if n > 0 {
      SubscribeDoesNotFilter(Recv(p).0, addr, n - 1);
      assert Recv(Subscribe(p, addr)).0 == Subscribe(Recv(p).0, addr);
    }
  }
}
