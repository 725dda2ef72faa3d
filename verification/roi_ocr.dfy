/** The OCR check's ROI arithmetic: the rectangle an ROI entry of the config denotes,
    in pixels (taken as is) or in fractions of the meta size (scaled and rounded),
    the meta size that falls back to the client size, and the list of ROIs that are
    cropped, which silently skips every ROI whose conversion raises. Floats are exact
    reals; the capture, crop and OCR calls are not modelled. */
module RoiOcr {
  import opened Common
  import opened PyValue

  const PixelKeys: seq<string> := ["x", "y", "w", "h"]
  const PctKeys: seq<string> := ["x_pct", "y_pct", "w_pct", "h_pct"]

  /** A rectangle as (x, y, w, h) in client pixels. */
  type Rect = (int, int, int, int)

  function AbsR(x: real): real {
    if x < 0.0 then -x else x
  }

  // ----- rounding ------------------------------------------------------------------

  /** Python's `round(x)` on a number: the nearest integer, a tie going to the even
      neighbour. */
  function RoundHalfEven(x: real): (n: int)
    ensures AbsR(x - n as real) <= 0.5
    ensures AbsR(x - n as real) == 0.5 ==> n % 2 == 0
  {
    var f := x.Floor;
    var d := x - f as real;
    if d < 0.5 then f
    else if d > 0.5 then f + 1
    else if f % 2 == 0 then f
    else f + 1
  }

  /** No integer is nearer to `x` than its rounding. */
  lemma RoundIsNearest(x: real, m: int)
    ensures AbsR(x - RoundHalfEven(x) as real) <= AbsR(x - m as real)
  {
    var n := RoundHalfEven(x);
    if m < n - 1 || m > n + 1 {
    } else if m == n - 1 || m == n + 1 {
    }
  }

  /** An integer strictly within one half of `x` is its rounding. */
  lemma RoundUnique(x: real, m: int)
    requires AbsR(x - m as real) < 0.5
    ensures RoundHalfEven(x) == m
  {
    var n := RoundHalfEven(x);
    assert AbsR((m - n) as real) < 1.0;
  }

  /** Whole numbers round to themselves. */
  lemma RoundWhole(m: int)
    ensures RoundHalfEven(m as real) == m
  {
    RoundUnique(m as real, m);
  }

  // ----- one coordinate ------------------------------------------------------------

  /** `_pct_to_px`: `float(v) * float(total)` rounded; the conversion's error is the
      result's. */
  function PctToPx(v: Value, total: int): (r: Result<int>)
    ensures ToFloat(v).Err? ==> r == Err(ToFloat(v).error)
    ensures ToFloat(v).Ok? ==> r.Ok? && AbsR(ToFloat(v).value * total as real - r.value as real) <= 0.5
  {
    var c := ToFloat(v);
    if c.Err? then Err(c.error) else Ok(Scale(c.value, total))
  }

  /** `round(f * total)`: within one half of the exact product. */
  function Scale(f: real, total: int): (n: int)
    ensures AbsR(f * total as real - n as real) <= 0.5
  {
    RoundHalfEven(f * total as real)
  }

  /** A fraction that lands on a whole pixel gives that pixel exactly: a fraction of 0
      is 0, of 1 is the whole dimension, and a whole number `k` gives `k * total`. */
  lemma PctExactOnWholePixels(k: int, total: int)
    ensures PctToPx(Int(k), total) == Ok(k * total)
    ensures PctToPx(Float(1.0), total) == Ok(total)
    ensures PctToPx(Float(0.0), total) == Ok(0)
  {
    assert ToFloat(Int(k)) == Ok(k as real);
    assert (k as real) * (total as real) == (k * total) as real;
    RoundWhole(k * total);
    assert Scale(k as real, total) == k * total;
    RoundWhole(total);
    RoundWhole(0);
  }

  /** `int(roi[k])`. */
  function IntField(roi: Value, k: string): (r: Result<int>)
    ensures roi.Dict? && Lookup(roi.entries, k).Some? ==> r == ToInt(Lookup(roi.entries, k).value)
    ensures !roi.Dict? ==> r == Err("TypeError")
  {
    match Subscript(roi, k)
    case Err(e) => Err(e)
    case Ok(v) => ToInt(v)
  }

  /** `_pct_to_px(roi[k], total)`. */
  function PctField(roi: Value, k: string, total: int): (r: Result<int>)
    ensures roi.Dict? && Lookup(roi.entries, k).Some? ==> r == PctToPx(Lookup(roi.entries, k).value, total)
    ensures !roi.Dict? ==> r == Err("TypeError")
  {
    match Subscript(roi, k)
    case Err(e) => Err(e)
    case Ok(v) => PctToPx(v, total)
  }

  /** Four conversions in order; the first failure is the result. */
  function Four(a: Result<int>, b: Result<int>, c: Result<int>, d: Result<int>): (r: Result<Rect>)
    ensures r.Ok? <==> a.Ok? && b.Ok? && c.Ok? && d.Ok?
    ensures r.Ok? ==> r.value == (a.value, b.value, c.value, d.value)
    ensures a.Err? ==> r == Err(a.error)
    ensures a.Ok? && b.Err? ==> r == Err(b.error)
  {
    if a.Err? then Err(a.error)
    else if b.Err? then Err(b.error)
    else if c.Err? then Err(c.error)
    else if d.Err? then Err(d.error)
    else Ok((a.value, b.value, c.value, d.value))
  }

  /** The pixel form: `int(roi[k])` for x, y, w and h. */
  function PixelRect(roi: Value): Result<Rect> {
    Four(IntField(roi, "x"), IntField(roi, "y"), IntField(roi, "w"), IntField(roi, "h"))
  }

  /** The fraction form: x and w scale by the meta width, y and h by the meta height. */
  function PctRect(roi: Value, metaW: int, metaH: int): Result<Rect> {
    Four(PctField(roi, "x_pct", metaW), PctField(roi, "y_pct", metaH),
         PctField(roi, "w_pct", metaW), PctField(roi, "h_pct", metaH))
  }

  /** `_roi_to_rect`: the pixel form when all four pixel keys are present, else the
      fraction form when all four fraction keys are, else ValueError. Asking `in` of
      something that is not a container raises TypeError. */
  function RoiToRect(roi: Value, metaW: int, metaH: int): (r: Result<Rect>)
    ensures !(roi.Dict? || roi.Str? || roi.List?) ==> r == Err("TypeError")
    ensures roi.Dict? && HasAll(roi.entries, PixelKeys) ==> r == PixelRect(roi)
    ensures roi.Dict? && !HasAll(roi.entries, PixelKeys) && HasAll(roi.entries, PctKeys) ==>
      r == PctRect(roi, metaW, metaH)
    ensures roi.Dict? && !HasAll(roi.entries, PixelKeys) && !HasAll(roi.entries, PctKeys) ==>
      r == Err("ValueError")
    ensures r.Ok? ==> roi.Dict?
  {
    match AllIn(PixelKeys, roi)
    case Err(e) => Err(e)
    case Ok(pixel) =>
      if pixel then PixelRect(roi)
      else
        match AllIn(PctKeys, roi)
        case Err(e) => Err(e)
        case Ok(pct) => if pct then PctRect(roi, metaW, metaH) else Err("ValueError")
  }

  predicate HasAll(e: Entries, keys: seq<string>) {
    forall i :: 0 <= i < |keys| ==> HasKey(e, keys[i])
  }

  /** A pixel-form entry whose values are integers denotes exactly those integers,
      whatever the meta size and whatever fraction keys it also has. */
  lemma PixelExact(e: Entries, x: int, y: int, w: int, h: int, metaW: int, metaH: int)
    requires Lookup(e, "x") == Some(Int(x)) && Lookup(e, "y") == Some(Int(y))
    requires Lookup(e, "w") == Some(Int(w)) && Lookup(e, "h") == Some(Int(h))
    ensures RoiToRect(Dict(e), metaW, metaH) == Ok((x, y, w, h))
  {
    assert HasAll(e, PixelKeys);
  }

  /** The pixel form takes precedence: once the four pixel keys are present, the
      meta size (which only the fraction form uses) cannot change the outcome. */
  lemma PixelPrecedence(e: Entries, w1: int, h1: int, w2: int, h2: int)
    requires HasAll(e, PixelKeys)
    ensures RoiToRect(Dict(e), w1, h1) == RoiToRect(Dict(e), w2, h2)
  {
  }

  /** In the fraction form with numeric values, each coordinate is the nearest integer
      to its fraction of the matching meta dimension: x and w of the width, y and h of
      the height. */
  lemma PctScales(e: Entries, metaW: int, metaH: int, fx: real, fy: real, fw: real, fh: real)
    requires !HasAll(e, PixelKeys)
    requires Lookup(e, "x_pct") == Some(Float(fx)) && Lookup(e, "y_pct") == Some(Float(fy))
    requires Lookup(e, "w_pct") == Some(Float(fw)) && Lookup(e, "h_pct") == Some(Float(fh))
    ensures RoiToRect(Dict(e), metaW, metaH).Ok?
    ensures var r := RoiToRect(Dict(e), metaW, metaH).value;
      && AbsR(fx * metaW as real - r.0 as real) <= 0.5
      && AbsR(fy * metaH as real - r.1 as real) <= 0.5
      && AbsR(fw * metaW as real - r.2 as real) <= 0.5
      && AbsR(fh * metaH as real - r.3 as real) <= 0.5
  {
    assert HasAll(e, PctKeys);
    var roi := Dict(e);
    assert RoiToRect(roi, metaW, metaH) == PctRect(roi, metaW, metaH);
    PctFieldFloat(e, "x_pct", metaW, fx);
    PctFieldFloat(e, "y_pct", metaH, fy);
    PctFieldFloat(e, "w_pct", metaW, fw);
    PctFieldFloat(e, "h_pct", metaH, fh);
  }

  lemma PctFieldFloat(e: Entries, k: string, total: int, f: real)
    requires Lookup(e, k) == Some(Float(f))
    ensures PctField(Dict(e), k, total).Ok?
    ensures AbsR(f * total as real - PctField(Dict(e), k, total).value as real) <= 0.5
  {
    assert ToFloat(Float(f)) == Ok(f);
  }

  /** The width and height of the meta size feed only x/w and y/h respectively. */
  lemma PctAxesIndependent(roi: Value, w1: int, h1: int, w2: int, h2: int)
    ensures PctRect(roi, w1, h1).Ok? && PctRect(roi, w1, h2).Ok? ==>
      PctRect(roi, w1, h1).value.0 == PctRect(roi, w1, h2).value.0 &&
      PctRect(roi, w1, h1).value.2 == PctRect(roi, w1, h2).value.2
    ensures PctRect(roi, w1, h1).Ok? && PctRect(roi, w2, h1).Ok? ==>
      PctRect(roi, w1, h1).value.1 == PctRect(roi, w2, h1).value.1 &&
      PctRect(roi, w1, h1).value.3 == PctRect(roi, w2, h1).value.3
  {
  }

  // ----- meta size and the cropped ROIs ----------------------------------------------

  /** `int(meta.get("width", w))`, `int(meta.get("height", h))` with
      `meta = cfg.get("meta", {})`: a missing key falls back to the client size;
      `.get` on a meta that is not a table raises AttributeError. */
  function MetaSize(cfg: Entries, clientW: int, clientH: int): (r: Result<(int, int)>)
    ensures !HasKey(cfg, "meta") ==> r == Ok((clientW, clientH))
    ensures HasKey(cfg, "meta") && !Lookup(cfg, "meta").value.Dict? ==> r == Err("AttributeError")
  {
    var meta := GetOr(cfg, "meta", Dict([]));
    if !meta.Dict? then Err("AttributeError")
    else
      match ToInt(GetOr(meta.entries, "width", Int(clientW)))
      case Err(e) => Err(e)
      case Ok(w) =>
        match ToInt(GetOr(meta.entries, "height", Int(clientH)))
        case Err(e) => Err(e)
        case Ok(h) => Ok((w, h))
  }

  /** Each dimension the meta table gives as an integer is used; each it leaves out
      is the client's. */
  lemma MetaSizeDefaults(meta: Entries, rest: Entries, clientW: int, clientH: int)
    requires !HasKey(meta, "width") || Lookup(meta, "width").value.Int?
    requires !HasKey(meta, "height") || Lookup(meta, "height").value.Int?
    ensures var r := MetaSize([("meta", Dict(meta))] + rest, clientW, clientH);
      && r.Ok?
      && r.value.0 == (if HasKey(meta, "width") then Lookup(meta, "width").value.i else clientW)
      && r.value.1 == (if HasKey(meta, "height") then Lookup(meta, "height").value.i else clientH)
  {
    assert Lookup([("meta", Dict(meta))] + rest, "meta") == Some(Dict(meta));
  }

  /** The named results of `conv` over a table, in table order, those that fail
      skipped. */
  function KeepConverted(rois: Entries, conv: Value -> Result<Rect>): (r: seq<(string, Rect)>)
    ensures |r| <= |rois|
    decreases |rois|
  {
    if rois == [] then []
    else
      var rest := KeepConverted(rois[1..], conv);
      if conv(rois[0].1).Ok? then [(rois[0].0, conv(rois[0].1).value)] + rest else rest
  }

  lemma {:induction false} KeepSound(rois: Entries, conv: Value -> Result<Rect>, j: nat)
    requires j < |KeepConverted(rois, conv)|
    ensures exists i :: (0 <= i < |rois| && conv(rois[i].1).Ok? &&
                         KeepConverted(rois, conv)[j] == (rois[i].0, conv(rois[i].1).value))
    decreases |rois|
  {
    var ok := conv(rois[0].1).Ok?;
    var rest := KeepConverted(rois[1..], conv);
    if ok && j == 0 {
      assert KeepConverted(rois, conv)[0] == (rois[0].0, conv(rois[0].1).value);
    } else {
      var k := if ok then j - 1 else j;
      assert KeepConverted(rois, conv)[j] == rest[k];
      KeepSound(rois[1..], conv, k);
      var i :| 0 <= i < |rois[1..]| && conv(rois[1..][i].1).Ok? && rest[k] == (rois[1..][i].0, conv(rois[1..][i].1).value);
      assert rois[i + 1] == rois[1..][i];
    }
  }

  lemma {:induction false} KeepComplete(rois: Entries, conv: Value -> Result<Rect>, i: nat)
    requires i < |rois| && conv(rois[i].1).Ok?
    ensures (rois[i].0, conv(rois[i].1).value) in KeepConverted(rois, conv)
    decreases i
  {
    if i > 0 {
      assert rois[1..][i - 1] == rois[i];
      KeepComplete(rois[1..], conv, i - 1);
    }
  }

  /** The table position the `j`-th kept entry comes from. */
  function KeptIndex(rois: Entries, conv: Value -> Result<Rect>, j: nat): (i: nat)
    requires j < |KeepConverted(rois, conv)|
    ensures i < |rois| && conv(rois[i].1).Ok?
    ensures KeepConverted(rois, conv)[j] == (rois[i].0, conv(rois[i].1).value)
    decreases |rois|
  {
    if conv(rois[0].1).Ok? then
      if j == 0 then 0
      else
        var k := KeptIndex(rois[1..], conv, j - 1);
        assert rois[1..][k] == rois[k + 1];
        k + 1
    else
      var k := KeptIndex(rois[1..], conv, j);
      assert rois[1..][k] == rois[k + 1];
      k + 1
  }

  /** Kept entries keep the table's order. */
  lemma {:induction false} KeptInOrder(rois: Entries, conv: Value -> Result<Rect>, j1: nat, j2: nat)
    requires j1 < j2 < |KeepConverted(rois, conv)|
    ensures KeptIndex(rois, conv, j1) < KeptIndex(rois, conv, j2)
    decreases |rois|
  {
    if conv(rois[0].1).Ok? {
      if j1 > 0 {
        KeptInOrder(rois[1..], conv, j1 - 1, j2 - 1);
      }
    } else {
      KeptInOrder(rois[1..], conv, j1, j2);
    }
  }

  function Converter(metaW: int, metaH: int): Value -> Result<Rect> {
    (roi: Value) => RoiToRect(roi, metaW, metaH)
  }

  /** The ROIs cropped, in table order: each with its rectangle, those whose
      conversion raises skipped. */
  function Rects(rois: Entries, metaW: int, metaH: int): (r: seq<(string, Rect)>)
    ensures |r| <= |rois|
  {
    KeepConverted(rois, Converter(metaW, metaH))
  }

  /** Every ROI cropped is one of the table's, with the rectangle it converts to. */
  lemma RectsSound(rois: Entries, metaW: int, metaH: int, j: nat)
    requires j < |Rects(rois, metaW, metaH)|
    ensures exists i :: (0 <= i < |rois| && RoiToRect(rois[i].1, metaW, metaH).Ok? &&
                         Rects(rois, metaW, metaH)[j] == (rois[i].0, RoiToRect(rois[i].1, metaW, metaH).value))
  {
    KeepSound(rois, Converter(metaW, metaH), j);
  }

  /** Every ROI that converts is cropped. */
  lemma RectsComplete(rois: Entries, metaW: int, metaH: int, i: nat)
    requires i < |rois| && RoiToRect(rois[i].1, metaW, metaH).Ok?
    ensures (rois[i].0, RoiToRect(rois[i].1, metaW, metaH).value) in Rects(rois, metaW, metaH)
  {
    KeepComplete(rois, Converter(metaW, metaH), i);
  }

  /** The crop plan of `main`: the meta size first, then `cfg.get("rois", {}).items()`,
      which raises AttributeError on a `rois` value that is not a table. */
  function CropPlan(cfg: Entries, clientW: int, clientH: int): (r: Result<seq<(string, Rect)>>)
    ensures MetaSize(cfg, clientW, clientH).Err? ==> r == Err(MetaSize(cfg, clientW, clientH).error)
    ensures MetaSize(cfg, clientW, clientH).Ok? && HasKey(cfg, "rois") && !Lookup(cfg, "rois").value.Dict? ==>
      r == Err("AttributeError")
    ensures r.Ok? <==> MetaSize(cfg, clientW, clientH).Ok? && (!HasKey(cfg, "rois") || Lookup(cfg, "rois").value.Dict?)
    ensures MetaSize(cfg, clientW, clientH).Ok? && !HasKey(cfg, "rois") ==> r == Ok([])
    ensures r.Ok? && HasKey(cfg, "rois") ==>
      r.value == Rects(Lookup(cfg, "rois").value.entries, MetaSize(cfg, clientW, clientH).value.0,
                       MetaSize(cfg, clientW, clientH).value.1)
  {
    match MetaSize(cfg, clientW, clientH)
    case Err(e) => Err(e)
    case Ok(size) =>
      var rois := GetOr(cfg, "rois", Dict([]));
      if !rois.Dict? then Err("AttributeError") else Ok(Rects(rois.entries, size.0, size.1))
  }

  /** An entry is kept exactly when some table entry of that name converts to its
      rectangle. */
  lemma KeepExact(rois: Entries, conv: Value -> Result<Rect>, name: string, rect: Rect)
    ensures (name, rect) in KeepConverted(rois, conv) <==>
      exists i :: 0 <= i < |rois| && rois[i].0 == name && conv(rois[i].1) == Ok(rect)
  {
    var kept := KeepConverted(rois, conv);
    if (name, rect) in kept {
      var j :| 0 <= j < |kept| && kept[j] == (name, rect);
      KeepSound(rois, conv, j);
    }
    if exists i :: 0 <= i < |rois| && rois[i].0 == name && conv(rois[i].1) == Ok(rect) {
      var i :| 0 <= i < |rois| && rois[i].0 == name && conv(rois[i].1) == Ok(rect);
      KeepComplete(rois, conv, i);
    }
  }

  /** Of two kept entries, the earlier comes from the earlier table entry. */
  lemma KeepOrdered(rois: Entries, conv: Value -> Result<Rect>, j1: nat, j2: nat)
    requires j1 < j2 < |KeepConverted(rois, conv)|
    ensures exists i1, i2 :: (0 <= i1 < i2 < |rois| &&
      rois[i1].0 == KeepConverted(rois, conv)[j1].0 && conv(rois[i1].1) == Ok(KeepConverted(rois, conv)[j1].1) &&
      rois[i2].0 == KeepConverted(rois, conv)[j2].0 && conv(rois[i2].1) == Ok(KeepConverted(rois, conv)[j2].1))
  {
    var i1 := KeptIndex(rois, conv, j1);
    var i2 := KeptIndex(rois, conv, j2);
    KeptInOrder(rois, conv, j1, j2);
  }

  /** The ROI table the plan walks: `rois` when it is a table, none when it is missing. */
  function PlanTable(cfg: Entries): Entries {
    var v := GetOr(cfg, "rois", Dict([]));
    if v.Dict? then v.entries else []
  }

  /** With a valid meta size and a ROI table, the plan holds exactly the ROIs that
      convert at that size, each with its rectangle. */
  lemma CropPlanExact(cfg: Entries, clientW: int, clientH: int, name: string, rect: Rect)
    requires CropPlan(cfg, clientW, clientH).Ok?
    ensures var rois := PlanTable(cfg);
      var size := MetaSize(cfg, clientW, clientH).value;
      (name, rect) in CropPlan(cfg, clientW, clientH).value <==>
        exists i :: 0 <= i < |rois| && rois[i].0 == name && RoiToRect(rois[i].1, size.0, size.1) == Ok(rect)
  {
    var size := MetaSize(cfg, clientW, clientH).value;
    var conv := Converter(size.0, size.1);
    assert CropPlan(cfg, clientW, clientH).value == KeepConverted(PlanTable(cfg), conv);
    KeepExact(PlanTable(cfg), conv, name, rect);
  }

  /** The plan follows the table's order: of two planned ROIs, the earlier comes from
      the earlier table entry. */
  lemma CropPlanOrdered(cfg: Entries, clientW: int, clientH: int, j1: nat, j2: nat)
    requires CropPlan(cfg, clientW, clientH).Ok?
    requires j1 < j2 < |CropPlan(cfg, clientW, clientH).value|
    ensures var rois := PlanTable(cfg);
      var size := MetaSize(cfg, clientW, clientH).value;
      var plan := CropPlan(cfg, clientW, clientH).value;
      exists i1, i2 :: 0 <= i1 < i2 < |rois| &&
        rois[i1].0 == plan[j1].0 && RoiToRect(rois[i1].1, size.0, size.1) == Ok(plan[j1].1) &&
        rois[i2].0 == plan[j2].0 && RoiToRect(rois[i2].1, size.0, size.1) == Ok(plan[j2].1)
  {
    var size := MetaSize(cfg, clientW, clientH).value;
    var conv := Converter(size.0, size.1);
    assert CropPlan(cfg, clientW, clientH).value == KeepConverted(PlanTable(cfg), conv);
    KeepOrdered(PlanTable(cfg), conv, j1, j2);
  }
}
