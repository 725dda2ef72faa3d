/** Choosing the target window in the ROI scripts: the title match applied while
    enumerating top-level windows, and the pick among the matches by a 1-based
    `--index`. Both scripts share the same logic. */
module WindowSelect {
  import opened Common

  /** A top-level window as enumeration reports it. */
  datatype Window = Window(hwnd: int, title: string, visible: bool)

  /** The title test: windows with an empty title never match; otherwise the lower-cased
      title must equal (`--exact`) or contain the lower-cased query. */
  predicate TitleMatches(title: string, query: string, exact: bool) {
    title != [] && (if exact then Lower(title) == Lower(query) else Contains(Lower(title), Lower(query)))
  }

  /** The (hwnd, title) pairs of the windows `keep` accepts, in enumeration order. */
  function Collect(windows: seq<Window>, keep: Window -> bool): (r: seq<(int, string)>)
    ensures |r| <= |windows|
    decreases |windows|
  {
    if windows == [] then []
    else
      var rest := Collect(windows[1..], keep);
      if keep(windows[0]) then [(windows[0].hwnd, windows[0].title)] + rest else rest
  }

  /** Everything collected comes from an accepted window. */
  lemma {:induction false} CollectSound(windows: seq<Window>, keep: Window -> bool, j: nat)
    requires j < |Collect(windows, keep)|
    ensures exists i :: 0 <= i < |windows| && keep(windows[i])
                        && Collect(windows, keep)[j] == (windows[i].hwnd, windows[i].title)
    decreases |windows|
  {
    var rest := Collect(windows[1..], keep);
    var k := if keep(windows[0]) then j - 1 else j;
    if keep(windows[0]) && j == 0 {
      assert Collect(windows, keep)[0] == (windows[0].hwnd, windows[0].title);
    } else {
      assert Collect(windows, keep)[j] == rest[k];
      CollectSound(windows[1..], keep, k);
      var i :| 0 <= i < |windows[1..]| && keep(windows[1..][i]) && rest[k] == (windows[1..][i].hwnd, windows[1..][i].title);
      assert windows[i + 1] == windows[1..][i];
    }
  }

  /** Every accepted window is collected. */
  lemma {:induction false} CollectComplete(windows: seq<Window>, keep: Window -> bool, i: nat)
    requires i < |windows| && keep(windows[i])
    ensures (windows[i].hwnd, windows[i].title) in Collect(windows, keep)
    decreases i
  {
    if i > 0 {
      assert windows[1..][i - 1] == windows[i];
      CollectComplete(windows[1..], keep, i - 1);
    }
  }

  /** The positions from `lo` on of the windows `keep` accepts, in increasing order:
      every position is in range and accepted, and every accepted position from `lo`
      on is listed. */
  function AcceptedFrom(windows: seq<Window>, keep: Window -> bool, lo: nat): (idx: seq<nat>)
    requires lo <= |windows|
    ensures forall j :: 0 <= j < |idx| ==> lo <= idx[j] < |windows| && keep(windows[idx[j]])
    ensures forall j1, j2 :: 0 <= j1 < j2 < |idx| ==> idx[j1] < idx[j2]
    ensures forall i :: lo <= i < |windows| && keep(windows[i]) ==> i in idx
    decreases |windows| - lo
  {
    if lo == |windows| then []
    else
      var rest := AcceptedFrom(windows, keep, lo + 1);
      if keep(windows[lo]) then [lo] + rest else rest
  }

  /** The accepted positions of the whole enumeration. */
  function AcceptedAt(windows: seq<Window>, keep: Window -> bool): seq<nat> {
    AcceptedFrom(windows, keep, 0)
  }

  /** From position `lo` on, the collected pairs are the accepted windows in order. */
  lemma {:induction false} CollectFrom(windows: seq<Window>, keep: Window -> bool, lo: nat)
    requires lo <= |windows|
    ensures var idx := AcceptedFrom(windows, keep, lo);
      var c := Collect(windows[lo..], keep);
      && |c| == |idx|
      && forall j :: 0 <= j < |idx| ==> c[j] == (windows[idx[j]].hwnd, windows[idx[j]].title)
    decreases |windows| - lo
  {
    if lo < |windows| {
      CollectFrom(windows, keep, lo + 1);
      var w := windows[lo..];
      assert w[1..] == windows[lo + 1..];
      assert w[0] == windows[lo];
      var rest := AcceptedFrom(windows, keep, lo + 1);
      var cr := Collect(windows[lo + 1..], keep);
      var head := (windows[lo].hwnd, windows[lo].title);
      if keep(windows[lo]) {
        assert Collect(w, keep) == [head] + cr;
        assert AcceptedFrom(windows, keep, lo) == [lo] + rest;
      } else {
        assert Collect(w, keep) == cr;
        assert AcceptedFrom(windows, keep, lo) == rest;
      }
    }
  }

  /** The collected pairs are the accepted windows taken in enumeration order, one per
      accepted window: pair `j` comes from the `j`-th accepted position. */
  lemma CollectInOrder(windows: seq<Window>, keep: Window -> bool)
    ensures var idx := AcceptedAt(windows, keep);
      && |Collect(windows, keep)| == |idx|
      && forall j :: 0 <= j < |idx| ==> Collect(windows, keep)[j] == (windows[idx[j]].hwnd, windows[idx[j]].title)
  {
    CollectFrom(windows, keep, 0);
    assert windows[0..] == windows;
  }

  /** A stricter test collects a subset. */
  lemma {:induction false} CollectMonotone(windows: seq<Window>, k1: Window -> bool, k2: Window -> bool)
    requires forall w :: k1(w) ==> k2(w)
    ensures forall p :: p in Collect(windows, k1) ==> p in Collect(windows, k2)
    decreases |windows|
  {
    if windows != [] {
      CollectMonotone(windows[1..], k1, k2);
    }
  }

  /** The window test of the enumeration callback. */
  function Accepts(query: string, exact: bool): Window -> bool {
    (w: Window) => w.visible && TitleMatches(w.title, query, exact)
  }

  /** `_find_windows_by_title`: the visible matching windows, in enumeration order,
      as (hwnd, title) pairs. */
  function FindWindows(windows: seq<Window>, query: string, exact: bool): (r: seq<(int, string)>)
    ensures |r| <= |windows|
  {
    Collect(windows, Accepts(query, exact))
  }

  /** Every window found is a visible window whose title matches, and is never
      untitled. */
  lemma FindWindowsSound(windows: seq<Window>, query: string, exact: bool, j: nat)
    requires j < |FindWindows(windows, query, exact)|
    ensures exists i :: 0 <= i < |windows| && windows[i].visible && TitleMatches(windows[i].title, query, exact)
                        && FindWindows(windows, query, exact)[j] == (windows[i].hwnd, windows[i].title)
    ensures FindWindows(windows, query, exact)[j].1 != []
  {
    CollectSound(windows, Accepts(query, exact), j);
  }

  /** The matches keep enumeration order and multiplicity, which is what `--index`
      relies on: match `j` is the window at the `j`-th position that passes the test,
      the positions increase, and every passing window has one. */
  lemma FindWindowsInOrder(windows: seq<Window>, query: string, exact: bool)
    ensures var r := FindWindows(windows, query, exact);
      var idx := AcceptedAt(windows, Accepts(query, exact));
      && |r| == |idx|
      && (forall j :: 0 <= j < |idx| ==> r[j] == (windows[idx[j]].hwnd, windows[idx[j]].title))
      && (forall j :: 0 <= j < |idx| ==>
            idx[j] < |windows| && windows[idx[j]].visible && TitleMatches(windows[idx[j]].title, query, exact))
      && (forall j1, j2 :: 0 <= j1 < j2 < |idx| ==> idx[j1] < idx[j2])
      && (forall i :: 0 <= i < |windows| && windows[i].visible && TitleMatches(windows[i].title, query, exact) ==> i in idx)
  {
    var keep := Accepts(query, exact);
    CollectInOrder(windows, keep);
    var idx := AcceptedAt(windows, keep);
    assert forall i :: 0 <= i < |windows| ==> (keep(windows[i]) <==> windows[i].visible && TitleMatches(windows[i].title, query, exact));
  }

  /** Every visible matching window is found. */
  lemma FindWindowsComplete(windows: seq<Window>, query: string, exact: bool, i: nat)
    requires i < |windows| && windows[i].visible && TitleMatches(windows[i].title, query, exact)
    ensures (windows[i].hwnd, windows[i].title) in FindWindows(windows, query, exact)
  {
    CollectComplete(windows, Accepts(query, exact), i);
  }

  lemma {:induction false} ContainsSelf(s: string)
    ensures Contains(s, s)
  {
    assert StartsWith(s, s);
  }

  /** An exact match is also a substring match, so `--exact` only narrows the search. */
  lemma ExactNarrows(title: string, query: string)
    ensures TitleMatches(title, query, true) ==> TitleMatches(title, query, false)
  {
    ContainsSelf(Lower(title));
  }

  /** `--exact` finds a subset of what the substring search finds. */
  lemma ExactSubset(windows: seq<Window>, query: string)
    ensures forall p :: p in FindWindows(windows, query, true) ==> p in FindWindows(windows, query, false)
  {
    forall w: Window
      ensures Accepts(query, true)(w) ==> Accepts(query, false)(w)
    {
      ExactNarrows(w.title, query);
    }
    CollectMonotone(windows, Accepts(query, true), Accepts(query, false));
  }

  /** The query is matched without regard to case. */
  lemma MatchIgnoresQueryCase(title: string, query: string, exact: bool)
    ensures TitleMatches(title, Upper(query), exact) == TitleMatches(title, query, exact)
  {
    LowerOfUpper(query);
  }

  lemma LowerOfUpper(s: string)
    ensures Lower(Upper(s)) == Lower(s)
  {
    assert forall i :: 0 <= i < |s| ==> LowerChar(UpperChar(s[i])) == LowerChar(s[i]);
  }

  // ----- picking among the matches -----------------------------------------------

  /** The outcome of the selection: a window, or the script's exit code. */
  datatype Pick = Picked(hwnd: int, title: string) | Exit(code: int)

  /** The pick as `main` writes it: exit 1 without matches; with a truthy `--index n`
      the n-th match (exit 2 when out of range); otherwise the first match. An index of
      0 is falsy and so selects the first match. */
  function PickAsWritten(wins: seq<(int, string)>, index: Option<int>): (r: Pick)
    ensures wins == [] ==> r == Exit(1)
    ensures wins != [] && index.Some? && index.value != 0 ==>
      (r.Picked? <==> 1 <= index.value <= |wins|)
    ensures wins != [] && index.Some? && 1 <= index.value <= |wins| ==>
      r == Picked(wins[index.value - 1].0, wins[index.value - 1].1)
    ensures wins != [] && (index.None? || index.value == 0) ==> r == Picked(wins[0].0, wins[0].1)
    ensures r.Exit? ==> r.code == 1 || r.code == 2
  {
    if wins == [] then Exit(1)
    else if index.Some? && index.value != 0 then
      var idx := index.value - 1;
      if !(0 <= idx < |wins|) then Exit(2) else Picked(wins[idx].0, wins[idx].1)
    else Picked(wins[0].0, wins[0].1)
  }

  /** `--index 0` is out of the 1-based range, yet it is accepted as "first match". */
  lemma IndexZeroAccepted(wins: seq<(int, string)>)
    requires wins != []
    ensures PickAsWritten(wins, Some(0)) == Picked(wins[0].0, wins[0].1)
    ensures PickAsWritten(wins, Some(0)) != PickAsWritten(wins, Some(-1))
  {
  }

  /** The pick with `--index` checked whenever it is given: every given index must lie
      in 1..n, where n is the number of matches. */
  function Pick1Based(wins: seq<(int, string)>, index: Option<int>): (r: Pick)
    ensures wins == [] ==> r == Exit(1)
    ensures wins != [] && index.Some? ==> (r.Picked? <==> 1 <= index.value <= |wins|)
    ensures wins != [] && index.Some? && r.Picked? ==> r == Picked(wins[index.value - 1].0, wins[index.value - 1].1)
    ensures wins != [] && index.None? ==> r == Picked(wins[0].0, wins[0].1)
    ensures r.Exit? ==> r.code == 1 || r.code == 2
  {
    if wins == [] then Exit(1)
    else match index
      case Some(n) => if 1 <= n <= |wins| then Picked(wins[n - 1].0, wins[n - 1].1) else Exit(2)
      case None => Picked(wins[0].0, wins[0].1)
  }

  /** The two agree on every input except an explicit `--index 0`. */
  lemma PicksAgreeExceptZero(wins: seq<(int, string)>, index: Option<int>)
    ensures index != Some(0) ==> PickAsWritten(wins, index) == Pick1Based(wins, index)
    ensures wins != [] ==> PickAsWritten(wins, Some(0)).Picked? && Pick1Based(wins, Some(0)) == Exit(2)
  {
  }
}
