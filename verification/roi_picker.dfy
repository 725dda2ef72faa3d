/** The ROI picker's file logic: the TOML text `_dump_toml` writes for a config
    (a `[meta]` block, then a `[rois]` table with one inline table per ROI), the
    defaults `main` fills in before writing, the ROI built from two marked corners and
    the config update that saves it. The window, cursor, keyboard and file I/O are
    not modelled; the config is the dict the script holds. */
module RoiPicker {
  import opened Common
  import opened PyValue

  /** The meta keys written, in the order written. */
  const MetaKeys: seq<string> := ["name", "width", "height", "coordinate_space", "units"]

  /** The two ROI forms: pixel offsets and sizes, or fractions of the window. */
  const PixelKeys: seq<string> := ["x", "y", "w", "h"]
  const PctKeys: seq<string> := ["x_pct", "y_pct", "w_pct", "h_pct"]

  // ----- the [meta] block ----------------------------------------------------------

  /** One meta line: a string value is written in double quotes, any other value as
      Python prints it. */
  function MetaLine(k: string, v: Value): (line: string)
    ensures StartsWith(line, k + " = ")
    ensures v.Str? ==> line == k + " = \"" + v.s + "\""
    ensures !v.Str? ==> line == k + " = " + PyStr(v)
  {
    if v.Str? then k + " = \"" + v.s + "\"" else k + " = " + PyStr(v)
  }

  /** The keys of `keys` that `e` has, in the order of `keys`. */
  function PresentKeys(keys: seq<string>, e: Entries): (ks: seq<string>)
    ensures |ks| <= |keys|
    ensures forall i :: 0 <= i < |ks| ==> HasKey(e, ks[i]) && ks[i] in keys
    ensures forall k :: k in keys && HasKey(e, k) ==> k in ks
  {
    if keys == [] then []
    else (if HasKey(e, keys[0]) then [keys[0]] else []) + PresentKeys(keys[1..], e)
  }

  /** The line for one meta key: `k in meta` is asked and, when it holds, `meta[k]`
      is written. `in` on anything but a dict, string or list raises TypeError, and
      so does subscripting a string or list. */
  function MetaHead(meta: Value, k: string): (r: Result<seq<string>>)
    ensures meta.Dict? ==> r == Ok(if HasKey(meta.entries, k) then [MetaLine(k, Lookup(meta.entries, k).value)] else [])
    ensures !(meta.Dict? || meta.Str? || meta.List?) ==> r == Err("TypeError")
    ensures r.Err? ==> r.error == "TypeError"
  {
    match In(k, meta)
    case Err(e) => Err(e)
    case Ok(present) =>
      if !present then Ok([])
      else match Subscript(meta, k)
        case Ok(v) => Ok([MetaLine(k, v)])
        case Err(_) => Err("TypeError")
  }

  /** The meta lines for `keys`, each key in turn; the first failure aborts. */
  function MetaLines(meta: Value, keys: seq<string>): (r: Result<seq<string>>)
    ensures meta.Dict? ==> r.Ok?
    ensures keys != [] && !(meta.Dict? || meta.Str? || meta.List?) ==> r == Err("TypeError")
    ensures r.Err? ==> r.error == "TypeError"
    decreases |keys|
  {
    if keys == [] then Ok([])
    else
      match MetaHead(meta, keys[0])
      case Err(e) => Err(e)
      case Ok(h) =>
        match MetaLines(meta, keys[1..])
        case Err(e) => Err(e)
        case Ok(t) => Ok(h + t)
  }

  /** On a dict, the meta lines are one line per present key, in the order of `keys`,
      each rendering that key's value. */
  lemma {:induction false} MetaLinesOnDict(e: Entries, keys: seq<string>)
    ensures var ks := PresentKeys(keys, e);
      MetaLines(Dict(e), keys).Ok? && |MetaLines(Dict(e), keys).value| == |ks| &&
      forall i :: 0 <= i < |ks| ==> MetaLines(Dict(e), keys).value[i] == MetaLine(ks[i], Lookup(e, ks[i]).value)
    decreases |keys|
  {
    if keys != [] {
      MetaLinesOnDict(e, keys[1..]);
      var h := MetaHead(Dict(e), keys[0]).value;
      var t := MetaLines(Dict(e), keys[1..]).value;
      var hk: seq<string> := if HasKey(e, keys[0]) then [keys[0]] else [];
      assert MetaLines(Dict(e), keys).value == h + t;
      assert PresentKeys(keys, e) == hk + PresentKeys(keys[1..], e);
      assert |h| == |hk|;
    }
  }

  // ----- ROI lines -----------------------------------------------------------------

  /** The values of `keys` in `e`, which has them all. */
  function ValuesOf(e: Entries, keys: seq<string>): (vs: seq<Value>)
    requires forall i :: 0 <= i < |keys| ==> HasKey(e, keys[i])
    ensures |vs| == |keys|
    ensures forall i :: 0 <= i < |keys| ==> Some(vs[i]) == Lookup(e, keys[i])
  {
    seq(|keys|, i requires 0 <= i < |keys| => Lookup(e, keys[i]).value)
  }

  predicate HasAll(e: Entries, keys: seq<string>) {
    forall i :: 0 <= i < |keys| ==> HasKey(e, keys[i])
  }

  /** `c[k]` for each key in turn; the first failing subscript aborts. */
  function Fields(c: Value, keys: seq<string>): (r: Result<seq<Value>>)
    ensures c.Dict? && HasAll(c.entries, keys) ==> r == Ok(ValuesOf(c.entries, keys))
    ensures keys != [] && !c.Dict? ==> r == Err("TypeError")
    decreases |keys|
  {
    if keys == [] then Ok([])
    else
      match Subscript(c, keys[0])
      case Err(e) => Err(e)
      case Ok(v) =>
        match Fields(c, keys[1..])
        case Err(e) => Err(e)
        case Ok(vs) =>
          assert c.Dict? && HasAll(c.entries, keys) ==> [v] + vs == ValuesOf(c.entries, keys) by {
            if c.Dict? && HasAll(c.entries, keys) {
              assert forall i :: 0 <= i < |keys[1..]| ==> keys[1..][i] == keys[i + 1];
              assert HasAll(c.entries, keys[1..]);
              var all := ValuesOf(c.entries, keys);
              assert forall i :: 1 <= i < |keys| ==> Some(all[i]) == Lookup(c.entries, keys[1..][i - 1]);
            }
          }
          Ok([v] + vs)
  }

  /** `k = v` for each key and value, joined by ", ". */
  function Pairs(keys: seq<string>, vals: seq<Value>): (ps: seq<string>)
    requires |keys| == |vals|
    ensures |ps| == |keys|
    ensures forall i :: 0 <= i < |keys| ==> ps[i] == keys[i] + " = " + PyStr(vals[i])
  {
    seq(|keys|, i requires 0 <= i < |keys| => keys[i] + " = " + PyStr(vals[i]))
  }

  /** The inline-table line `name = { k1 = v1, k2 = v2, ... }`. */
  function FormLine(name: string, keys: seq<string>, vals: seq<Value>): (line: string)
    requires |keys| == |vals|
    ensures StartsWith(line, name + " = { ")
  {
    var line := name + " = { " + Join(Pairs(keys, vals), ", ") + " }";
    assert line[..|name + " = { "|] == name + " = { ";
    line
  }

  /** The line for one ROI, or None when it is left out: `all(k in roi ...)` for the
      pixel keys, then for the pct keys, then the subscripts of the form found. */
  function RoiLine(name: string, roi: Value): Result<Option<string>>
  {
    match AllIn(PixelKeys, roi)
    case Err(e) => Err(e)
    case Ok(pixel) =>
      if pixel then
        (match Fields(roi, PixelKeys) case Err(e) => Err(e) case Ok(vs) => Ok(Some(FormLine(name, PixelKeys, vs))))
      else
        match AllIn(PctKeys, roi)
        case Err(e) => Err(e)
        case Ok(pct) =>
          if pct then
            (match Fields(roi, PctKeys) case Err(e) => Err(e) case Ok(vs) => Ok(Some(FormLine(name, PctKeys, vs))))
          else Ok(None)
  }

  /** A dict ROI is written in pixel form when it has all of x/y/w/h (whatever pct
      keys it also has), else in pct form when it has all four pct keys, else not at
      all; a ROI that is not a dict, string or list raises TypeError. */
  lemma RoiLineForms(name: string, roi: Value)
    ensures roi.Dict? && HasAll(roi.entries, PixelKeys) ==>
      RoiLine(name, roi) == Ok(Some(FormLine(name, PixelKeys, ValuesOf(roi.entries, PixelKeys))))
    ensures roi.Dict? && !HasAll(roi.entries, PixelKeys) && HasAll(roi.entries, PctKeys) ==>
      RoiLine(name, roi) == Ok(Some(FormLine(name, PctKeys, ValuesOf(roi.entries, PctKeys))))
    ensures roi.Dict? && !HasAll(roi.entries, PixelKeys) && !HasAll(roi.entries, PctKeys) ==>
      RoiLine(name, roi) == Ok(None)
    ensures roi.Dict? ==> RoiLine(name, roi).Ok?
    ensures !(roi.Dict? || roi.Str? || roi.List?) ==> RoiLine(name, roi) == Err("TypeError")
  {
  }

  predicate AllDicts(e: Entries) {
    forall i :: 0 <= i < |e| ==> e[i].1.Dict?
  }

  /** The lines `line` produces for the entries in order, a None producing nothing;
      the first error aborts. */
  function CollectLines(rois: Entries, line: (string, Value) -> Result<Option<string>>): (r: Result<seq<string>>)
    ensures r.Ok? ==> |r.value| <= |rois|
    decreases |rois|
  {
    if rois == [] then Ok([])
    else
      match line(rois[0].0, rois[0].1)
      case Err(e) => Err(e)
      case Ok(l) =>
        match CollectLines(rois[1..], line)
        case Err(e) => Err(e)
        case Ok(rest) => Ok((if l.Some? then [l.value] else []) + rest)
  }

  lemma {:induction false} CollectOk(rois: Entries, line: (string, Value) -> Result<Option<string>>)
    requires forall i :: 0 <= i < |rois| ==> line(rois[i].0, rois[i].1).Ok?
    ensures CollectLines(rois, line).Ok?
    decreases |rois|
  {
    if rois != [] {
      assert forall i :: 0 <= i < |rois[1..]| ==> rois[1..][i] == rois[i + 1];
      CollectOk(rois[1..], line);
    }
  }

  lemma {:induction false} CollectAppend(a: Entries, b: Entries, line: (string, Value) -> Result<Option<string>>)
    ensures CollectLines(a + b, line) ==
      match CollectLines(a, line)
      case Err(e) => Err(e)
      case Ok(la) => (match CollectLines(b, line) case Err(e) => Err(e) case Ok(lb) => Ok(la + lb))
    decreases |a|
  {
    if a == [] {
      assert a + b == b;
      match CollectLines(b, line)
      case Err(e) =>
      case Ok(lb) => assert [] + lb == lb;
    } else {
      assert (a + b)[0] == a[0];
      assert (a + b)[1..] == a[1..] + b;
      CollectAppend(a[1..], b, line);
      match line(a[0].0, a[0].1)
      case Err(e) =>
      case Ok(l) =>
        var head := if l.Some? then [l.value] else [];
        match CollectLines(a[1..], line)
        case Err(e) =>
        case Ok(la) =>
          match CollectLines(b, line)
          case Err(e) =>
          case Ok(lb) =>
            assert head + (la + lb) == (head + la) + lb;
    }
  }

  lemma {:induction false} CollectWritten(rois: Entries, line: (string, Value) -> Result<Option<string>>, i: nat, text: string)
    requires CollectLines(rois, line).Ok? && i < |rois|
    requires line(rois[i].0, rois[i].1) == Ok(Some(text))
    ensures text in CollectLines(rois, line).value
    decreases i
  {
    if i > 0 {
      assert rois[1..][i - 1] == rois[i];
      CollectWritten(rois[1..], line, i - 1, text);
    }
  }

  function RoiLineOf(): (string, Value) -> Result<Option<string>> {
    (name: string, roi: Value) => RoiLine(name, roi)
  }

  /** The ROI lines, in the order the ROIs are stored; the first ROI that raises aborts.
      When every ROI is a dict there is no error and at most one line per ROI. */
  function RoiLines(rois: Entries): (r: Result<seq<string>>)
    ensures AllDicts(rois) ==> r.Ok?
    ensures r.Ok? ==> |r.value| <= |rois|
  {
    assert AllDicts(rois) ==> CollectLines(rois, RoiLineOf()).Ok? by {
      if AllDicts(rois) {
        forall i | 0 <= i < |rois|
          ensures RoiLineOf()(rois[i].0, rois[i].1).Ok?
        {
          RoiLineForms(rois[i].0, rois[i].1);
        }
        CollectOk(rois, RoiLineOf());
      }
    }
    CollectLines(rois, RoiLineOf())
  }

  /** Writing two runs of ROIs writes the lines of the first, then those of the second. */
  lemma RoiLinesAppend(a: Entries, b: Entries)
    ensures RoiLines(a + b) ==
      match RoiLines(a)
      case Err(e) => Err(e)
      case Ok(la) => (match RoiLines(b) case Err(e) => Err(e) case Ok(lb) => Ok(la + lb))
  {
    CollectAppend(a, b, RoiLineOf());
  }

  /** Every ROI line produced for a stored ROI appears in the output. */
  lemma RoiLineWritten(rois: Entries, i: nat, line: string)
    requires RoiLines(rois).Ok? && i < |rois|
    requires RoiLine(rois[i].0, rois[i].1) == Ok(Some(line))
    ensures line in RoiLines(rois).value
  {
    CollectWritten(rois, RoiLineOf(), i, line);
  }

  // ----- the whole file --------------------------------------------------------------

  /** `data.get("rois", {}) or {}`. */
  function RoisValue(data: Entries): (v: Value)
    ensures !HasKey(data, "rois") ==> v == Dict([])
    ensures HasKey(data, "rois") && Truthy(Lookup(data, "rois").value) ==> v == Lookup(data, "rois").value
    ensures HasKey(data, "rois") && !Truthy(Lookup(data, "rois").value) ==> v == Dict([])
  {
    Or(GetOr(data, "rois", Dict([])), Dict([]))
  }

  /** A config the dumper writes without raising: any meta is a dict and the ROI
      table is a dict (or missing or empty) whose ROIs are all dicts. */
  predicate WellFormed(data: Entries) {
    && (HasKey(data, "meta") ==> Lookup(data, "meta").value.Dict?)
    && RoisValue(data).Dict?
    && AllDicts(RoisValue(data).entries)
  }

  /** The lines `_dump_toml` writes for `data`. With "meta" present: "[meta]", the meta
      lines and a blank line; then "[rois]", always; then one line per written ROI.
      A truthy ROI table that is not a dict raises AttributeError (`.items()`). */
  function DumpLines(data: Entries): (r: Result<seq<string>>)
    ensures WellFormed(data) ==> r.Ok?
    ensures r.Ok? ==> |r.value| >= 1 && (r.value[0] == "[meta]" <==> HasKey(data, "meta"))
    ensures r.Ok? ==> "[rois]" in r.value
    ensures !HasKey(data, "meta") && r.Ok? ==> r.value[0] == "[rois]"
    ensures (!HasKey(data, "meta") || Lookup(data, "meta").value.Dict?) && !RoisValue(data).Dict? ==>
      r == Err("AttributeError")
  {
    var metaBlock: Result<seq<string>> :=
      if !HasKey(data, "meta") then Ok([])
      else
        match MetaLines(Lookup(data, "meta").value, MetaKeys)
        case Err(e) => Err(e)
        case Ok(ls) => Ok(["[meta]"] + ls + [""]);
    match metaBlock
    case Err(e) => Err(e)
    case Ok(mb) =>
      var rois := RoisValue(data);
      if !rois.Dict? then Err("AttributeError")
      else
        match RoiLines(rois.entries)
        case Err(e) => Err(e)
        case Ok(rl) =>
          var lines := mb + ["[rois]"] + rl;
          assert lines[|mb|] == "[rois]";
          Ok(lines)
  }

  /** The file content: the lines joined by newlines, plus a final newline. */
  function Content(lines: seq<string>): (text: string)
    ensures EndsWith(text, "\n")
  {
    var text := Join(lines, "\n") + "\n";
    assert text[|text| - 1..] == "\n";
    text
  }

  /** Python's `s.split(sep)` for a one-character separator. */
  function SplitOn(s: string, sep: char): (parts: seq<string>)
    ensures |parts| >= 1
    decreases |s|
  {
    if s == [] then [[]]
    else
      var rest := SplitOn(s[1..], sep);
      if s[0] == sep then [[]] + rest else [[s[0]] + rest[0]] + rest[1..]
  }

  lemma {:induction false} SplitNoSep(a: string, sep: char)
    requires sep !in a
    ensures SplitOn(a, sep) == [a]
    decreases |a|
  {
    if a != [] {
      SplitNoSep(a[1..], sep);
      assert [a[0]] + a[1..] == a;
    }
  }

  lemma {:induction false} SplitAfter(a: string, sep: char, b: string)
    requires sep !in a
    ensures SplitOn(a + [sep] + b, sep) == [a] + SplitOn(b, sep)
    decreases |a|
  {
    if a == [] {
      assert a + [sep] + b == [sep] + b;
      assert ([sep] + b)[1..] == b;
    } else {
      var s := a + [sep] + b;
      assert s[0] == a[0];
      assert s[1..] == a[1..] + [sep] + b;
      SplitAfter(a[1..], sep, b);
      assert [a[0]] + a[1..] == a;
    }
  }

  /** Splitting the joined lines at the newlines gives the lines back, when none of
      them holds a newline. */
  lemma {:induction false} JoinSplit(lines: seq<string>)
    requires lines != []
    requires forall i :: 0 <= i < |lines| ==> '\n' !in lines[i]
    ensures SplitOn(Join(lines, "\n"), '\n') == lines
    decreases |lines|
  {
    if |lines| == 1 {
      SplitNoSep(lines[0], '\n');
    } else {
      JoinSplit(lines[1..]);
      assert Join(lines, "\n") == lines[0] + ['\n'] + Join(lines[1..], "\n");
      SplitAfter(lines[0], '\n', Join(lines[1..], "\n"));
      assert [lines[0]] + lines[1..] == lines;
    }
  }

  lemma {:induction false} JoinSnoc(lines: seq<string>, last: string, sep: string)
    requires lines != []
    ensures Join(lines + [last], sep) == Join(lines, sep) + sep + last
    decreases |lines|
  {
    if |lines| == 1 {
      assert lines + [last] == [lines[0], last];
    } else {
      assert (lines + [last])[1..] == lines[1..] + [last];
      JoinSnoc(lines[1..], last, sep);
    }
  }

  /** Reading the written file back line by line yields exactly the dumped lines,
      followed by the empty remainder after the final newline. */
  lemma ContentLines(lines: seq<string>)
    requires lines != []
    requires forall i :: 0 <= i < |lines| ==> '\n' !in lines[i]
    ensures SplitOn(Content(lines), '\n') == lines + [""]
  {
    JoinSnoc(lines, "", "\n");
    assert Join(lines + [""], "\n") == Content(lines);
    var all := lines + [""];
    assert forall i :: 0 <= i < |all| ==> '\n' !in all[i] by {
      forall i | 0 <= i < |all|
        ensures '\n' !in all[i]
      {
        if i < |lines| {
          assert all[i] == lines[i];
        }
      }
    }
    JoinSplit(all);
  }

  /** An empty config is written as just the `[rois]` header. */
  lemma EmptyConfig()
    ensures DumpLines([]) == Ok(["[rois]"])
    ensures Content(["[rois]"]) == "[rois]\n"
  {
    assert RoisValue([]) == Dict([]);
    assert RoiLines([]) == Ok([]);
    assert [] + ["[rois]"] + [] == ["[rois]"];
  }

  /** Joining four parts puts the separator between each neighbouring pair. */
  lemma Join4(a: string, b: string, c: string, d: string, sep: string)
    ensures Join([a, b, c, d], sep) == a + sep + b + sep + c + sep + d
  {
    assert [c, d][1..] == [d];
    assert Join([c, d], sep) == c + sep + d;
    assert [b, c, d][1..] == [c, d];
    assert Join([b, c, d], sep) == b + sep + (c + sep + d);
    assert [a, b, c, d][1..] == [b, c, d];
    assert Join([a, b, c, d], sep) == a + sep + (b + sep + (c + sep + d));
  }

  /** The pixel line for integer coordinates. */
  function PixelLine(name: string, x: int, y: int, w: int, h: int): (line: string)
  {
    name + " = { " + ("x = " + IntToString(x)) + ", " + ("y = " + IntToString(y))
         + ", " + ("w = " + IntToString(w)) + ", " + ("h = " + IntToString(h)) + " }"
  }

  /** The ROI dict the picker stores for a pixel ROI. */
  function PixelEntry(roi: PixelRoi): (e: Entries)
    ensures DistinctKeys(e) && HasAll(e, PixelKeys)
    ensures ValuesOf(e, PixelKeys) == [Int(roi.x), Int(roi.y), Int(roi.w), Int(roi.h)]
  {
    var e := [("x", Int(roi.x)), ("y", Int(roi.y)), ("w", Int(roi.w)), ("h", Int(roi.h))];
    LookupAt(e, 0);
    LookupAt(e, 1);
    LookupAt(e, 2);
    LookupAt(e, 3);
    e
  }

  /** An integer pixel ROI is written as `name = { x = X, y = Y, w = W, h = H }`. */
  lemma PixelRoiLine(name: string, roi: PixelRoi)
    ensures RoiLine(name, Dict(PixelEntry(roi))) == Ok(Some(PixelLine(name, roi.x, roi.y, roi.w, roi.h)))
  {
    RoiLineForms(name, Dict(PixelEntry(roi)));
    PixelFormLine(name, roi.x, roi.y, roi.w, roi.h);
  }

  lemma PixelFormLine(name: string, x: int, y: int, w: int, h: int)
    ensures FormLine(name, PixelKeys, [Int(x), Int(y), Int(w), Int(h)]) == PixelLine(name, x, y, w, h)
  {
    var ps := Pairs(PixelKeys, [Int(x), Int(y), Int(w), Int(h)]);
    PixelPairs(x, y, w, h);
    Join4(ps[0], ps[1], ps[2], ps[3], ", ");
    FormLineIs(name, PixelKeys, [Int(x), Int(y), Int(w), Int(h)]);
    Regroup(name, " = { ", ps[0], ps[1], ps[2], ps[3], ", ", " }");
  }

  lemma FormLineIs(name: string, keys: seq<string>, vals: seq<Value>)
    requires |keys| == |vals|
    ensures FormLine(name, keys, vals) == name + " = { " + Join(Pairs(keys, vals), ", ") + " }"
  {
  }

  /** Concatenation is associative: the inline-table braces around a four-part join
      read as one flat string. Kept apart so the solver meets it without the
      surrounding definitions. */
  lemma Regroup(n: string, o: string, a: string, b: string, c: string, d: string, sep: string, cl: string)
    ensures n + o + (a + sep + b + sep + c + sep + d) + cl == n + o + a + sep + b + sep + c + sep + d + cl
  {
  }

  lemma PixelPairs(x: int, y: int, w: int, h: int)
    ensures Pairs(PixelKeys, [Int(x), Int(y), Int(w), Int(h)])
         == ["x = " + IntToString(x), "y = " + IntToString(y), "w = " + IntToString(w), "h = " + IntToString(h)]
  {
    var ps := Pairs(PixelKeys, [Int(x), Int(y), Int(w), Int(h)]);
    assert ps[0] == "x" + " = " + PyStr(Int(x));
    assert ps[1] == "y" + " = " + PyStr(Int(y));
    assert ps[2] == "w" + " = " + PyStr(Int(w));
    assert ps[3] == "h" + " = " + PyStr(Int(h));
    assert "x" + " = " == "x = " && "y" + " = " == "y = ";
    assert "w" + " = " == "w = " && "h" + " = " == "h = ";
    assert ps == [ps[0], ps[1], ps[2], ps[3]];
  }

  /** A ROI that has both forms is written in pixel form. */
  lemma PixelFormWins(name: string, roi: PixelRoi, pct: Entries)
    ensures RoiLine(name, Dict(PixelEntry(roi) + pct)) == Ok(Some(PixelLine(name, roi.x, roi.y, roi.w, roi.h)))
  {
    var e := PixelEntry(roi);
    assert forall i :: 0 <= i < |e| ==> (e + pct)[i] == e[i];
    LookupAt(e, 0);
    LookupAt(e, 1);
    LookupAt(e, 2);
    LookupAt(e, 3);
    PrefixLookup(e, pct, "x");
    PrefixLookup(e, pct, "y");
    PrefixLookup(e, pct, "w");
    PrefixLookup(e, pct, "h");
    assert ValuesOf(e + pct, PixelKeys) == ValuesOf(e, PixelKeys);
    RoiLineForms(name, Dict(e + pct));
    PixelRoiLine(name, roi);
  }

  lemma {:induction false} PrefixLookup(e: Entries, more: Entries, k: string)
    requires HasKey(e, k)
    ensures Lookup(e + more, k) == Lookup(e, k)
    decreases |e|
  {
    assert (e + more)[0] == e[0];
    if e[0].0 != k {
      assert (e + more)[1..] == e[1..] + more;
      PrefixLookup(e[1..], more, k);
    }
  }

  // ----- defaults and saving --------------------------------------------------------

  /** The meta `main` writes into a config that has none. */
  function DefaultMeta(w: int, h: int): Entries {
    [("name", Str("Window")), ("width", Int(w)), ("height", Int(h)),
     ("coordinate_space", Str("client")), ("units", Str("px"))]
  }

  /** `main`'s preparation of the loaded config: add the default meta when "meta" is
      missing and an empty ROI table when "rois" is missing; present keys are kept. */
  function Prepare(data: Entries, w: int, h: int): (r: Entries)
    ensures HasKey(r, "meta") && HasKey(r, "rois")
    ensures Lookup(r, "meta") == if HasKey(data, "meta") then Lookup(data, "meta") else Some(Dict(DefaultMeta(w, h)))
    ensures Lookup(r, "rois") == if HasKey(data, "rois") then Lookup(data, "rois") else Some(Dict([]))
    ensures forall k :: k != "meta" && k != "rois" ==> Lookup(r, k) == Lookup(data, k)
  {
    var d1 := if HasKey(data, "meta") then data else Put(data, "meta", Dict(DefaultMeta(w, h)));
    if HasKey(d1, "rois") then d1 else Put(d1, "rois", Dict([]))
  }

  /** The default meta block lists all five keys, strings quoted. */
  lemma DefaultMetaLines(w: int, h: int)
    ensures MetaLines(Dict(DefaultMeta(w, h)), MetaKeys) == Ok([
      MetaLine("name", Str("Window")), MetaLine("width", Int(w)), MetaLine("height", Int(h)),
      MetaLine("coordinate_space", Str("client")), MetaLine("units", Str("px"))])
  {
    var m := DefaultMeta(w, h);
    DefaultMetaKeys(w, h);
    FiveLines(m);
  }

  lemma FiveLines(m: Entries)
    requires |m| == 5 && DistinctKeys(m)
    ensures MetaLines(Dict(m), Keys(m)) == Ok([MetaLine(m[0].0, m[0].1), MetaLine(m[1].0, m[1].1),
      MetaLine(m[2].0, m[2].1), MetaLine(m[3].0, m[3].1), MetaLine(m[4].0, m[4].1)])
  {
    OwnKeysLines(m);
    var r := MetaLines(Dict(m), Keys(m));
    assert r.Ok?;
    var v := r.value;
    assert |v| == 5;
    assert v[0] == MetaLine(m[0].0, m[0].1);
    assert v[1] == MetaLine(m[1].0, m[1].1);
    assert v[2] == MetaLine(m[2].0, m[2].1);
    assert v[3] == MetaLine(m[3].0, m[3].1);
    assert v[4] == MetaLine(m[4].0, m[4].1);
    assert v == [v[0], v[1], v[2], v[3], v[4]];
  }

  lemma DefaultMetaKeys(w: int, h: int)
    ensures Keys(DefaultMeta(w, h)) == MetaKeys
    ensures DistinctKeys(DefaultMeta(w, h))
  {
    var m := DefaultMeta(w, h);
    var ks := Keys(m);
    assert |ks| == 5 && ks[0] == "name" && ks[1] == "width" && ks[2] == "height";
    assert ks[3] == "coordinate_space" && ks[4] == "units";
    assert ks == [ks[0], ks[1], ks[2], ks[3], ks[4]];
  }

  /** A dict whose keys are exactly the keys asked for gets one line per entry, in
      its own order. */
  lemma OwnKeysLines(e: Entries)
    requires DistinctKeys(e)
    ensures MetaLines(Dict(e), Keys(e)).Ok?
    ensures |MetaLines(Dict(e), Keys(e)).value| == |e|
    ensures forall i :: 0 <= i < |e| ==> MetaLines(Dict(e), Keys(e)).value[i] == MetaLine(e[i].0, e[i].1)
  {
    var ks := Keys(e);
    MetaLinesOnDict(e, ks);
    forall i | 0 <= i < |e|
      ensures HasKey(e, ks[i]) && Lookup(e, ks[i]) == Some(e[i].1)
    {
      LookupAt(e, i);
    }
    assert HasAll(e, ks);
    PresentAll(ks, e);
  }

  /** When every key is present, every key gets a line. */
  lemma {:induction false} PresentAll(keys: seq<string>, e: Entries)
    requires HasAll(e, keys)
    ensures PresentKeys(keys, e) == keys
    decreases |keys|
  {
    if keys != [] {
      assert HasKey(e, keys[0]);
      assert HasAll(e, keys[1..]) by {
        assert forall i :: 0 <= i < |keys[1..]| ==> keys[1..][i] == keys[i + 1];
      }
      PresentAll(keys[1..], e);
    }
  }

  /** A fresh config for a client area of w x h is written as the full default meta
      block, a blank line and the empty `[rois]` table. */
  lemma FreshConfigDump(w: int, h: int)
    ensures DumpLines(Prepare([], w, h)) == Ok([
      "[meta]", MetaLine("name", Str("Window")), MetaLine("width", Int(w)), MetaLine("height", Int(h)),
      MetaLine("coordinate_space", Str("client")), MetaLine("units", Str("px")), "", "[rois]"])
  {
    PrepareEmpty(w, h);
    DefaultMetaLines(w, h);
    var lines := [MetaLine("name", Str("Window")), MetaLine("width", Int(w)), MetaLine("height", Int(h)),
      MetaLine("coordinate_space", Str("client")), MetaLine("units", Str("px"))];
    MetaOnlyDump(DefaultMeta(w, h), lines);
    Bracket(lines);
  }

  /** The five meta lines between the `[meta]` header and the blank line before
      `[rois]`, element by element; kept apart for the same reason as `Regroup`. */
  lemma Bracket(lines: seq<string>)
    requires |lines| == 5
    ensures ["[meta]"] + lines + ["", "[rois]"] == ["[meta]", lines[0], lines[1], lines[2], lines[3], lines[4], "", "[rois]"]
  {
  }

  lemma PrepareEmpty(w: int, h: int)
    ensures Prepare([], w, h) == [("meta", Dict(DefaultMeta(w, h))), ("rois", Dict([]))]
  {
  }

  /** The dump of a document with a `[meta]` table: the bracketed meta block, a blank
      line, then the `[rois]` block. */
  lemma DumpWithMeta(data: Entries, m: Value, ls: seq<string>, e: Entries, rl: seq<string>)
    requires Lookup(data, "meta") == Some(m) && MetaLines(m, MetaKeys) == Ok(ls)
    requires RoisValue(data) == Dict(e) && RoiLines(e) == Ok(rl)
    ensures DumpLines(data) == Ok(["[meta]"] + ls + [""] + ["[rois]"] + rl)
  {
  }

  /** A config with a dict meta and an empty ROI table is written as the meta block
      and the bare `[rois]` header. */
  lemma MetaOnlyDump(meta: Entries, lines: seq<string>)
    requires MetaLines(Dict(meta), MetaKeys) == Ok(lines)
    ensures DumpLines([("meta", Dict(meta)), ("rois", Dict([]))]) == Ok(["[meta]"] + lines + ["", "[rois]"])
  {
    var d := [("meta", Dict(meta)), ("rois", Dict([]))];
    MetaAndEmptyRois(meta);
    DumpWithMeta(d, Dict(meta), lines, [], []);
    assert ["[meta]"] + lines + [""] + ["[rois]"] + [] == ["[meta]"] + lines + ["", "[rois]"];
  }

  /** The lookups `MetaOnlyDump` needs, kept apart so its own proof stays small. */
  lemma MetaAndEmptyRois(meta: Entries)
    ensures Lookup([("meta", Dict(meta)), ("rois", Dict([]))], "meta") == Some(Dict(meta))
    ensures RoisValue([("meta", Dict(meta)), ("rois", Dict([]))]) == Dict([])
    ensures RoiLines([]) == Ok([])
  {
    var d := [("meta", Dict(meta)), ("rois", Dict([]))];
    assert Lookup(d, "rois") == Some(Dict([]));
  }

  /** A pixel ROI. */
  datatype PixelRoi = PixelRoi(x: int, y: int, w: int, h: int)

  function Abs(n: int): (a: nat)
    ensures a == n || a == -n
  {
    if n < 0 then -n else n
  }

  function Min(a: int, b: int): (m: int)
    ensures m <= a && m <= b && (m == a || m == b)
  {
    if a <= b then a else b
  }

  /** The ROI spanned by the two marked corners: the top-left is the smaller of each
      coordinate and the size is the distance, so its two x edges are exactly the two
      marked x values, and likewise for y. */
  function CornersToRoi(tl: (int, int), br: (int, int)): (r: PixelRoi)
    ensures r.w >= 0 && r.h >= 0
    ensures {r.x, r.x + r.w} == {tl.0, br.0}
    ensures {r.y, r.y + r.h} == {tl.1, br.1}
  {
    PixelRoi(Min(tl.0, br.0), Min(tl.1, br.1), Abs(br.0 - tl.0), Abs(br.1 - tl.1))
  }

  /** The order in which the corners were marked does not matter. */
  lemma CornersSymmetric(a: (int, int), b: (int, int))
    ensures CornersToRoi(a, b) == CornersToRoi(b, a)
  {
  }

  /** The corner ROI is the only rectangle of non-negative size whose edges are the
      marked coordinates. */
  lemma CornersUnique(a: (int, int), b: (int, int), r: PixelRoi)
    requires r.w >= 0 && r.h >= 0
    requires {r.x, r.x + r.w} == {a.0, b.0} && {r.y, r.y + r.h} == {a.1, b.1}
    ensures r == CornersToRoi(a, b)
  {
    var c := CornersToRoi(a, b);
    assert r.x in {a.0, b.0} && c.x in {a.0, b.0};
    assert r.x + r.w in {a.0, b.0} && c.x + c.w in {a.0, b.0};
    assert r.y in {a.1, b.1} && c.y in {a.1, b.1};
    assert r.y + r.h in {a.1, b.1} && c.y + c.h in {a.1, b.1};
    assert a.0 in {r.x, r.x + r.w} && b.0 in {r.x, r.x + r.w};
    assert a.1 in {r.y, r.y + r.h} && b.1 in {r.y, r.y + r.h};
  }

  /** The empty config a missing file loads as is replaced by a default holding only
      the client size and an empty ROI table. */
  function LoadedOrDefault(loaded: Entries, w: int, h: int): Entries {
    if loaded == [] then [("meta", Dict([("width", Int(w)), ("height", Int(h))])), ("rois", Dict([]))]
    else loaded
  }

  lemma DefaultWellFormed(loaded: Entries, w: int, h: int)
    requires WellFormed(loaded) && HasDictRois(loaded)
    ensures WellFormed(LoadedOrDefault(loaded, w, h)) && HasDictRois(LoadedOrDefault(loaded, w, h))
  {
    if loaded == [] {
      var b := LoadedOrDefault(loaded, w, h);
      LookupAt(b, 0);
      LookupAt(b, 1);
    }
  }

  /** `data.setdefault("rois", {})`: a missing ROI table is added empty. */
  function WithRoiTable(data: Entries): (r: Entries)
    ensures HasKey(r, "rois")
    ensures Lookup(r, "rois") == if HasKey(data, "rois") then Lookup(data, "rois") else Some(Dict([]))
    ensures forall k :: k != "rois" ==> Lookup(r, k) == Lookup(data, k)
  {
    if HasKey(data, "rois") then data else Put(data, "rois", Dict([]))
  }

  /** `data["rois"][name] = entry`: only a dict table can be stored into. */
  function StoreRoi(d: Entries, name: string, entry: Value): (r: Result<Entries>)
    requires HasKey(d, "rois")
    ensures r.Ok? <==> Lookup(d, "rois").value.Dict?
    ensures r.Ok? ==> Lookup(r.value, "rois") == Some(Dict(Put(Lookup(d, "rois").value.entries, name, entry)))
    ensures r.Ok? ==> forall k :: k != "rois" ==> Lookup(r.value, k) == Lookup(d, k)
    ensures r.Err? ==> r.error == "TypeError"
  {
    match Lookup(d, "rois").value
    case Dict(table) => Ok(Put(d, "rois", Dict(Put(table, name, entry))))
    case _ => Err("TypeError")
  }

  /** The 'n' key: the typed name is stripped and an empty name saves nothing (None).
      Otherwise the corner ROI is stored under the name in the config's ROI table
      (added when missing) and the config is returned for writing. Storing into a
      ROI table that is not a dict raises TypeError. */
  function SaveRoi(loaded: Entries, w: int, h: int, typed: string, tl: (int, int), br: (int, int)): (r: Result<Option<Entries>>)
    ensures Strip(typed) == [] ==> r == Ok(None)
    ensures r.Ok? && r.value.Some? ==>
      var d := r.value.value;
      && HasKey(d, "rois") && Lookup(d, "rois").value.Dict?
      && Lookup(Lookup(d, "rois").value.entries, Strip(typed)) == Some(Dict(PixelEntry(CornersToRoi(tl, br))))
      && forall k :: k != "rois" ==> Lookup(d, k) == Lookup(LoadedOrDefault(loaded, w, h), k)
    ensures r.Ok? && r.value.Some? ==>
      var before := WithRoiTable(LoadedOrDefault(loaded, w, h));
      && Lookup(before, "rois").value.Dict?
      && forall n :: n != Strip(typed) ==>
           Lookup(Lookup(r.value.value, "rois").value.entries, n) == Lookup(Lookup(before, "rois").value.entries, n)
    ensures Strip(typed) != [] ==>
      (r.Ok? <==> Lookup(WithRoiTable(LoadedOrDefault(loaded, w, h)), "rois").value.Dict?)
    ensures r.Err? ==> r.error == "TypeError"
  {
    var name := Strip(typed);
    if name == [] then Ok(None)
    else
      match StoreRoi(WithRoiTable(LoadedOrDefault(loaded, w, h)), name, Dict(PixelEntry(CornersToRoi(tl, br))))
      case Ok(d) => Ok(Some(d))
      case Err(e) => Err(e)
  }

  /** A ROI table that is missing or a dict: one the picker can store into. */
  predicate HasDictRois(data: Entries) {
    HasKey(data, "rois") ==> Lookup(data, "rois").value.Dict?
  }

  /** Storing into a ROI table that is present but not a dict raises TypeError, even
      where the dumper would treat a falsy table as empty. */
  lemma SaveIntoNonDictRaises(loaded: Entries, w: int, h: int, typed: string, tl: (int, int), br: (int, int))
    requires loaded != [] && HasKey(loaded, "rois") && !Lookup(loaded, "rois").value.Dict?
    requires Strip(typed) != []
    ensures SaveRoi(loaded, w, h, typed, tl, br) == Err("TypeError")
  {
  }

  lemma {:induction false} PutAllDicts(e: Entries, k: string, v: Value)
    requires AllDicts(e) && v.Dict?
    ensures AllDicts(Put(e, k, v))
    decreases |e|
  {
    if e != [] && e[0].0 != k {
      PutAllDicts(e[1..], k, v);
    }
  }

  lemma SetDefaultWellFormed(base: Entries)
    requires WellFormed(base) && HasDictRois(base)
    ensures WellFormed(WithRoiTable(base))
    ensures Lookup(WithRoiTable(base), "rois").value.Dict?
  {
    var d := WithRoiTable(base);
    assert RoisValue(d) == RoisValue(base);
  }

  lemma TableAllDicts(d: Entries)
    requires WellFormed(d) && HasKey(d, "rois") && Lookup(d, "rois").value.Dict?
    ensures AllDicts(Lookup(d, "rois").value.entries)
  {
    var table := Lookup(d, "rois").value;
    if table.entries != [] {
      assert Truthy(table);
      assert table == RoisValue(d);
    }
  }

  lemma StoreWellFormed(d: Entries, name: string, entry: Value)
    requires WellFormed(d) && HasKey(d, "rois") && Lookup(d, "rois").value.Dict? && entry.Dict?
    ensures StoreRoi(d, name, entry).Ok? && WellFormed(StoreRoi(d, name, entry).value)
  {
    var table := Lookup(d, "rois").value.entries;
    TableAllDicts(d);
    PutAllDicts(table, name, entry);
    var stored := StoreRoi(d, name, entry).value;
    var newTable := Put(table, name, entry);
    assert newTable != [] by {
      assert HasKey(newTable, name);
    }
    assert RoisValue(stored) == Dict(newTable);
  }

  /** Saving into a well-formed config succeeds and keeps it well-formed. */
  lemma SaveKeepsWellFormed(loaded: Entries, w: int, h: int, typed: string, tl: (int, int), br: (int, int))
    requires WellFormed(loaded) && HasDictRois(loaded)
    requires Strip(typed) != []
    ensures var r := SaveRoi(loaded, w, h, typed, tl, br);
      r.Ok? && r.value.Some? && WellFormed(r.value.value)
  {
    var base := LoadedOrDefault(loaded, w, h);
    DefaultWellFormed(loaded, w, h);
    SetDefaultWellFormed(base);
    StoreWellFormed(WithRoiTable(base), Strip(typed), Dict(PixelEntry(CornersToRoi(tl, br))));
  }

  /** Saving a named ROI into a well-formed config makes the written file carry its
      pixel line. */
  lemma SavedRoiWritten(loaded: Entries, w: int, h: int, typed: string, tl: (int, int), br: (int, int))
    requires WellFormed(loaded) && HasDictRois(loaded)
    requires Strip(typed) != []
    ensures var r := SaveRoi(loaded, w, h, typed, tl, br);
      var roi := CornersToRoi(tl, br);
      && r.Ok? && r.value.Some?
      && DumpLines(r.value.value).Ok?
      && PixelLine(Strip(typed), roi.x, roi.y, roi.w, roi.h) in DumpLines(r.value.value).value
  {
    SaveKeepsWellFormed(loaded, w, h, typed, tl, br);
    var saved := SaveRoi(loaded, w, h, typed, tl, br).value.value;
    WrittenRoi(saved, Strip(typed), CornersToRoi(tl, br));
  }

  /** A well-formed config whose ROI table holds a pixel ROI under `name` is written
      with that ROI's pixel line. */
  lemma WrittenRoi(d: Entries, name: string, roi: PixelRoi)
    requires WellFormed(d) && HasKey(d, "rois") && Lookup(d, "rois").value.Dict?
    requires Lookup(Lookup(d, "rois").value.entries, name) == Some(Dict(PixelEntry(roi)))
    ensures DumpLines(d).Ok?
    ensures PixelLine(name, roi.x, roi.y, roi.w, roi.h) in DumpLines(d).value
  {
    var table := Lookup(d, "rois").value.entries;
    assert table != [] by {
      assert HasKey(table, name);
    }
    assert RoisValue(d).entries == table;
    LookupSomeIndex(table, name);
    var i :| 0 <= i < |table| && table[i] == (name, Dict(PixelEntry(roi)));
    PixelRoiLine(name, roi);
    RoiLineWritten(table, i, PixelLine(name, roi.x, roi.y, roi.w, roi.h));
  }
}
