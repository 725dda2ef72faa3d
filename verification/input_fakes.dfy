/** The in-memory keyboard/mouse port, which records what it would have sent to the
    operating system and tracks which scan codes are held down, and the focus port,
    which counts its calls. */
module InputFakes {
  import opened Common

  datatype KeyEvent = KeyEvent(scan: int, down: bool)

  datatype KeyEventRecord = KeyEventRecord(scan: int, down: bool)

  datatype MousePathPoint = MousePathPoint(x: int, y: int, tMs: int)

  datatype MousePathRecord = MousePathRecord(path: seq<(int, int, int)>)

  datatype Keyboard = Keyboard(keys: seq<KeyEventRecord>, paths: seq<MousePathRecord>, pressed: set<int>)

  const NewKeyboard := Keyboard([], [], {})

  /** `tap_scancode(scan)`: a down and an up record for `scan`; the pressed set is
      not consulted or changed. */
  function Tap(k: Keyboard, scan: int): (r: Keyboard)
    ensures r.keys == k.keys + [KeyEventRecord(scan, true), KeyEventRecord(scan, false)]
    ensures r.pressed == k.pressed && r.paths == k.paths
  {
    k.(keys := k.keys + [KeyEventRecord(scan, true), KeyEventRecord(scan, false)])
  }

  /** One event of `send_keys`: record it, then press or release its scan code. */
  function Step(k: Keyboard, e: KeyEvent): (r: Keyboard)
    ensures r.keys == k.keys + [KeyEventRecord(e.scan, e.down)]
    ensures r.pressed == if e.down then k.pressed + {e.scan} else k.pressed - {e.scan}
    ensures r.paths == k.paths
  {
    Keyboard(k.keys + [KeyEventRecord(e.scan, e.down)], k.paths,
             if e.down then k.pressed + {e.scan} else k.pressed - {e.scan})
  }

  /** `send_keys(events)`. */
  function SendKeys(k: Keyboard, events: seq<KeyEvent>): (r: Keyboard)
    ensures r.paths == k.paths
    decreases |events|
  {
    if events == [] then k else SendKeys(Step(k, events[0]), events[1..])
  }

  function Records(events: seq<KeyEvent>): (r: seq<KeyEventRecord>)
    ensures |r| == |events|
    ensures forall i :: 0 <= i < |events| ==> r[i] == KeyEventRecord(events[i].scan, events[i].down)
  {
    seq(|events|, i requires 0 <= i < |events| => KeyEventRecord(events[i].scan, events[i].down))
  }

  /** Whether the last event for `scan` in `events` is a press, or None when there is
      no event for it. */
  function LastEvent(events: seq<KeyEvent>, scan: int): Option<bool>
    decreases |events|
  {
    if events == [] then None
    else if events[|events| - 1].scan == scan then Some(events[|events| - 1].down)
    else LastEvent(events[..|events| - 1], scan)
  }

  /** Looking at the last event for a scan from the front: the tail's last event, if
      it has one, else the head's. */
  lemma {:induction false} LastEventCons(e: KeyEvent, rest: seq<KeyEvent>, scan: int)
    ensures LastEvent([e] + rest, scan) ==
      if LastEvent(rest, scan).Some? then LastEvent(rest, scan)
      else if e.scan == scan then Some(e.down) else None
    decreases |rest|
  {
    var all := [e] + rest;
    if rest != [] {
      assert all[|all| - 1] == rest[|rest| - 1];
      assert all[..|all| - 1] == [e] + rest[..|rest| - 1];
      LastEventCons(e, rest[..|rest| - 1], scan);
    }
  }

  /** After `send_keys`, one record per event is appended in order, and a scan code is
      pressed exactly when its last event in the batch was a press, or it had no event
      in the batch and was pressed before. */
  lemma {:induction false} SendKeysEffect(k: Keyboard, events: seq<KeyEvent>)
    ensures SendKeys(k, events).keys == k.keys + Records(events)
    ensures forall scan :: scan in SendKeys(k, events).pressed <==>
      LastEvent(events, scan) == Some(true) || (LastEvent(events, scan) == None && scan in k.pressed)
    decreases |events|
  {
    if events != [] {
      var k1 := Step(k, events[0]);
      SendKeysEffect(k1, events[1..]);
      assert [events[0]] + events[1..] == events;
      assert Records(events) == [KeyEventRecord(events[0].scan, events[0].down)] + Records(events[1..]);
      forall scan
        ensures scan in SendKeys(k, events).pressed <==>
          LastEvent(events, scan) == Some(true) || (LastEvent(events, scan) == None && scan in k.pressed)
      {
        LastEventCons(events[0], events[1..], scan);
      }
    }
  }

  /** `mouse_path(path)`: one record holding the points as (x, y, t_ms) in order. */
  function MousePath(k: Keyboard, path: seq<MousePathPoint>): (r: Keyboard)
    ensures |r.paths| == |k.paths| + 1 && r.paths[..|k.paths|] == k.paths
    ensures |r.paths[|k.paths|].path| == |path|
    ensures forall i :: 0 <= i < |path| ==> r.paths[|k.paths|].path[i] == (path[i].x, path[i].y, path[i].tMs)
    ensures r.keys == k.keys && r.pressed == k.pressed
  {
    var triples := seq(|path|, i requires 0 <= i < |path| => (path[i].x, path[i].y, path[i].tMs));
    k.(paths := k.paths + [MousePathRecord(triples)])
  }

  function Ups(scans: seq<int>): (r: seq<KeyEventRecord>)
    ensures |r| == |scans|
    ensures forall i :: 0 <= i < |scans| ==> r[i] == KeyEventRecord(scans[i], false)
  {
    seq(|scans|, i requires 0 <= i < |scans| => KeyEventRecord(scans[i], false))
  }

  /** The up records `key_up_all` emits for a pressed set: one per scan code, each a
      release, in strictly ascending scan order. */
  function Releases(pressed: set<int>): (ups: seq<KeyEventRecord>)
    ensures |ups| == |pressed|
    ensures forall i :: 0 <= i < |ups| ==> !ups[i].down && ups[i].scan in pressed
    ensures forall i, j :: 0 <= i < j < |ups| ==> ups[i].scan < ups[j].scan
    ensures forall s :: s in pressed ==> exists i :: 0 <= i < |ups| && ups[i].scan == s
  {
    var sorted := SortedElements(pressed);
    SortedElementsSpec(pressed);
    var ups := Ups(sorted);
    assert forall s :: s in pressed ==> exists j :: 0 <= j < |sorted| && sorted[j] == s;
    ups
  }

  /** `key_up_all()`: releases every pressed scan code, then nothing is pressed. */
  function KeyUpAll(k: Keyboard): (r: Keyboard)
    ensures r.keys == k.keys + Releases(k.pressed)
    ensures r.pressed == {} && r.paths == k.paths
  {
    Keyboard(k.keys + Releases(k.pressed), k.paths, {})
  }

  /** With nothing pressed, `key_up_all` records nothing; so a second call adds nothing. */
  lemma KeyUpAllIdempotent(k: Keyboard)
    ensures KeyUpAll(KeyUpAll(k)) == KeyUpAll(k)
  {
    var once := KeyUpAll(k);
    assert Releases(once.pressed) == [];
    assert KeyUpAll(once).keys == once.keys;
  }

  /** Releasing after a batch of presses lifts exactly the keys the batch left down. */
  lemma PressThenReleaseAll(k: Keyboard, events: seq<KeyEvent>)
    requires k.pressed == {}
    ensures var ups := Releases(SendKeys(k, events).pressed);
      && (forall i :: 0 <= i < |ups| ==> LastEvent(events, ups[i].scan) == Some(true))
      && (forall s :: LastEvent(events, s) == Some(true) ==> exists i :: 0 <= i < |ups| && ups[i].scan == s)
  {
    SendKeysEffect(k, events);
    var pressed := SendKeys(k, events).pressed;
    assert forall s :: LastEvent(events, s) == Some(true) ==> s in pressed;
  }

  // ----- focus port --------------------------------------------------------------

  datatype Focus = Focus(timesCalled: nat, willFocus: bool)

  function NewFocus(willFocus: bool): (f: Focus)
    ensures f.timesCalled == 0 && f.willFocus == willFocus
  {
    Focus(0, willFocus)
  }

  /** `ensure_foreground()`: counts the call and answers the configured outcome. */
  function EnsureForeground(f: Focus): (r: (Focus, bool))
    ensures r.0.timesCalled == f.timesCalled + 1
    ensures r.0.willFocus == f.willFocus && r.1 == f.willFocus
  {
    (f.(timesCalled := f.timesCalled + 1), f.willFocus)
  }

  /** `n` calls are counted as `n`. */
  function EnsureForegroundTimes(f: Focus, n: nat): (r: Focus)
    decreases n
  {
    if n == 0 then f else EnsureForegroundTimes(EnsureForeground(f).0, n - 1)
  }

  lemma {:induction false} FocusCountsCalls(f: Focus, n: nat)
    ensures EnsureForegroundTimes(f, n) == Focus(f.timesCalled + n, f.willFocus)
    decreases n
  {
    if n > 0 {
      FocusCountsCalls(EnsureForeground(f).0, n - 1);
    }
  }
}
