/** The dynamic values the Python code passes around: `None`, booleans, ints,
    floats (as exact reals), strings, lists and string-keyed dicts. A dict is an
    association list in insertion order, which is the order Python iterates it in. */
module PyValue {
  import opened Common

  datatype Value =
    | Null
    | Bool(b: bool)
    | Int(i: int)
    | Float(f: real)
    | Str(s: string)
    | List(items: seq<Value>)
    | Dict(entries: seq<(string, Value)>)

  type Entries = seq<(string, Value)>

  // ----- ordered dicts ------------------------------------------------------

  function Keys<V>(e: seq<(string, V)>): (ks: seq<string>)
    ensures |ks| == |e|
    ensures forall i :: 0 <= i < |e| ==> ks[i] == e[i].0
  {
    if e == [] then [] else [e[0].0] + Keys(e[1..])
  }

  /** No key occurs twice, which every Python dict satisfies. */
  predicate DistinctKeys<V>(e: seq<(string, V)>) {
    forall i, j :: 0 <= i < j < |e| ==> e[i].0 != e[j].0
  }

  predicate HasKey<V>(e: seq<(string, V)>, k: string) {
    e != [] && (e[0].0 == k || HasKey(e[1..], k))
  }

  lemma HasKeyIndex<V>(e: seq<(string, V)>, k: string)
    ensures HasKey(e, k) <==> exists i :: 0 <= i < |e| && e[i].0 == k
  {
    if e != [] {
      HasKeyIndex(e[1..], k);
      if HasKey(e[1..], k) {
        var i :| 0 <= i < |e[1..]| && e[1..][i].0 == k;
        assert e[i + 1].0 == k;
      }
      if exists i :: 0 <= i < |e| && e[i].0 == k {
        var i :| 0 <= i < |e| && e[i].0 == k;
        if i > 0 {
          assert e[1..][i - 1].0 == k;
        }
      }
    }
  }

  /** `d.get(k)`: the value stored under `k`, if any. */
  function Lookup<V>(e: seq<(string, V)>, k: string): (r: Option<V>)
    ensures r.Some? <==> HasKey(e, k)
  {
    if e == [] then None
    else if e[0].0 == k then Some(e[0].1)
    else Lookup(e[1..], k)
  }

  /** In a dict, the entry at position `i` is what its key looks up. */
  lemma {:induction false} LookupAt<V>(e: seq<(string, V)>, i: nat)
    requires DistinctKeys(e) && i < |e|
    ensures Lookup(e, e[i].0) == Some(e[i].1)
  {
    if i > 0 {
      LookupAt(e[1..], i - 1);
    }
  }

  /** A key that looks something up sits at some position with that value. */
  lemma {:induction false} LookupSomeIndex<V>(e: seq<(string, V)>, k: string)
    requires Lookup(e, k).Some?
    ensures exists i :: 0 <= i < |e| && e[i] == (k, Lookup(e, k).value)
  {
    if e[0].0 != k {
      LookupSomeIndex(e[1..], k);
      var i :| 0 <= i < |e[1..]| && e[1..][i] == (k, Lookup(e[1..], k).value);
      assert e[i + 1] == e[1..][i];
    }
  }

  /** `d.get(k, default)`. */
  function GetOr<V>(e: seq<(string, V)>, k: string, default: V): V {
    Lookup(e, k).GetOr(default)
  }

  /** `d[k] = v`: an existing key keeps its position, a new key goes last. */
  function Put<V>(e: seq<(string, V)>, k: string, v: V): (r: seq<(string, V)>)
    ensures Lookup(r, k) == Some(v)
    ensures forall k' :: k' != k ==> Lookup(r, k') == Lookup(e, k')
    ensures forall k' :: HasKey(r, k') <==> HasKey(e, k') || k' == k
    ensures |r| == if HasKey(e, k) then |e| else |e| + 1
    ensures forall i :: 0 <= i < |e| ==> r[i].0 == e[i].0
    ensures !HasKey(e, k) ==> r[|e|] == (k, v)
  {
    if e == [] then [(k, v)]
    else if e[0].0 == k then [(k, v)] + e[1..]
    else [e[0]] + Put(e[1..], k, v)
  }

  /** Putting a key keeps the keys distinct. */
  lemma PutDistinct<V>(e: seq<(string, V)>, k: string, v: V)
    requires DistinctKeys(e)
    ensures DistinctKeys(Put(e, k, v))
  {
    HasKeyIndex(e, k);
  }

  lemma PutDistinctIf<V>(e: seq<(string, V)>, k: string, v: V)
    ensures DistinctKeys(e) ==> DistinctKeys(Put(e, k, v))
  {
    if DistinctKeys(e) {
      PutDistinct(e, k, v);
    }
  }

  /** `d.update(other)`: `other`'s entries are put one by one, in order. */
  function Update<V>(e: seq<(string, V)>, other: seq<(string, V)>): (r: seq<(string, V)>)
    ensures DistinctKeys(e) ==> DistinctKeys(r)
    ensures forall k :: HasKey(r, k) <==> HasKey(e, k) || HasKey(other, k)
    decreases |other|
  {
    if other == [] then e
    else
      PutDistinctIf(e, other[0].0, other[0].1);
      Update(Put(e, other[0].0, other[0].1), other[1..])
  }

  /** After `d.update(other)`, a key of `other` maps to the value `other` gives it,
      and every other key keeps its old value. */
  lemma {:induction false} UpdateLookup<V>(e: seq<(string, V)>, other: seq<(string, V)>, k: string)
    requires DistinctKeys(other)
    ensures Lookup(Update(e, other), k) ==
      (if HasKey(other, k) then Lookup(other, k) else Lookup(e, k))
    decreases |other|
  {
    if other != [] {
      var rest := other[1..];
      assert DistinctKeys(rest);
      UpdateLookup(Put(e, other[0].0, other[0].1), rest, k);
      if k == other[0].0 {
        HasKeyIndex(rest, k);
      }
    }
  }

  /** `d.update(other)` leaves keys that `other` does not have alone. */
  lemma {:induction false} UpdateLookupOutside<V>(e: seq<(string, V)>, other: seq<(string, V)>, k: string)
    requires !HasKey(other, k)
    ensures Lookup(Update(e, other), k) == Lookup(e, k)
    decreases |other|
  {
    if other != [] {
      UpdateLookupOutside(Put(e, other[0].0, other[0].1), other[1..], k);
    }
  }

  // ----- Python semantics of single values ------------------------------------

  /** Python truthiness: `bool(v)`. */
  predicate Truthy(v: Value) {
    match v
    case Null => false
    case Bool(b) => b
    case Int(i) => i != 0
    case Float(f) => f != 0.0
    case Str(s) => s != []
    case List(items) => items != []
    case Dict(entries) => entries != []
  }

  /** `a or b` on values. */
  function Or(a: Value, b: Value): (r: Value)
    ensures Truthy(a) ==> r == a
    ensures !Truthy(a) ==> r == b
  {
    if Truthy(a) then a else b
  }

  /** Text used for a value whose Python rendering is not modelled. */
  const Unrendered: string := "<unrendered>"

  function Pow10(k: nat): (r: nat)
    ensures r >= 1
  {
    if k == 0 then 1 else 10 * Pow10(k - 1)
  }

  /** Python's `repr` of a float, for non-negative values with at most 15 significant
      decimal digits in [0.0001, 10**15): the shortest decimal, with at least one digit
      after the point. Other floats get `Unrendered`. */
  function FloatRepr(x: real): (r: string)
    ensures |r| >= 1
  {
    if x < 0.0 then "-" + NonNegFloatRepr(-x) else NonNegFloatRepr(x)
  }

  function NonNegFloatRepr(x: real): (r: string)
    requires x >= 0.0
    ensures |r| >= 1
  {
    if x != 0.0 && x < 0.0001 then Unrendered else FixedRepr(x, 0)
  }

  lemma MulNonNegative(a: real, b: real)
    requires a >= 0.0 && b >= 0.0
    ensures a * b >= 0.0
  {
  }

  /** Places a decimal point before the last `k` digits. */
  function PointAt(digits: string, k: nat): (r: string)
    requires |digits| >= k + 1
  {
    var cut := |digits| - k;
    digits[..cut] + "." + (if k == 0 then "0" else digits[cut..])
  }

  function FixedRepr(x: real, k: nat): (r: string)
    requires x >= 0.0
    ensures |r| >= 1
    decreases 16 - k
  {
    if k > 15 then Unrendered
    else
      var scaled := x * (Pow10(k) as real);
      if scaled != scaled.Floor as real then FixedRepr(x, k + 1)
      else
        MulNonNegative(x, Pow10(k) as real);
        var n: nat := scaled.Floor;
        if n >= Pow10(15) then Unrendered
        else PointAt(ZeroPad(NatToString(n), k + 1), k)
  }

  function ZeroPad(s: string, width: nat): (r: string)
    ensures |r| >= width && |r| >= |s|
    decreases width - |s|
  {
    if |s| >= width then s else ZeroPad("0" + s, width)
  }

  /** Python's `str(v)`. Strings render as themselves, `None`, booleans, ints and
      short floats as Python prints them; lists and dicts get `Unrendered`. */
  function PyStr(v: Value): (r: string)
    ensures v.Str? ==> r == v.s
    ensures v.Int? ==> r == IntToString(v.i)
  {
    match v
    case Null => "None"
    case Bool(b) => if b then "True" else "False"
    case Int(i) => IntToString(i)
    case Float(f) => FloatRepr(f)
    case Str(s) => s
    case List(_) => Unrendered
    case Dict(_) => Unrendered
  }

  // ----- conversions: float(v) and int(v) ------------------------------------

  /** Splits an optional leading sign off a numeral. */
  function SignOf(s: string): (r: (int, string))
    ensures r.0 == 1 || r.0 == -1
    ensures |r.1| <= |s|
  {
    if s != [] && s[0] == '-' then (-1, s[1..])
    else if s != [] && s[0] == '+' then (1, s[1..])
    else (1, s)
  }

  /** Python's `int(text)` for `[sign]digits` surrounded by whitespace. */
  function ParseIntText(text: string): (r: Option<int>)
    ensures r.Some? <==> (var (_, body) := SignOf(Strip(text)); body != [] && AllDigits(body))
  {
    var (sign, body) := SignOf(Strip(text));
    if body != [] && AllDigits(body) then Some(sign * DigitsValue(body)) else None
  }

  /** Index of the first '.' in `s`, or |s| when there is none. */
  function DotIndex(s: string): (i: nat)
    ensures i <= |s|
    ensures forall j :: 0 <= j < i ==> s[j] != '.'
    ensures i < |s| ==> s[i] == '.'
  {
    if s == [] then 0 else if s[0] == '.' then 0 else 1 + DotIndex(s[1..])
  }

  /** Python's `float(text)` for `[sign]digits[.digits]` (at least one digit)
      surrounded by whitespace. */
  function ParseFloatText(text: string): (r: Option<real>)
  {
    var (sign, body) := SignOf(Strip(text));
    var d := DotIndex(body);
    var whole := body[..d];
    var frac := if d < |body| then body[d + 1..] else [];
    if (whole == [] && frac == []) || !AllDigits(whole) || !AllDigits(frac) then None
    else
      Some((sign as real) * (DigitsValue(whole) as real
                              + (DigitsValue(frac) as real) / (Pow10(|frac|) as real)))
  }

  /** Python's `float(v)`; `None`, lists and dicts raise TypeError and a string that
      is not a numeral raises ValueError. */
  function ToFloat(v: Value): (r: Result<real>)
    ensures v.Float? ==> r == Ok(v.f)
    ensures v.Int? ==> r == Ok(v.i as real)
    ensures (v.Null? || v.List? || v.Dict?) ==> r == Err("TypeError")
  {
    match v
    case Bool(b) => Ok(if b then 1.0 else 0.0)
    case Int(i) => Ok(i as real)
    case Float(f) => Ok(f)
    case Str(s) => (match ParseFloatText(s) case Some(x) => Ok(x) case None => Err("ValueError"))
    case _ => Err("TypeError")
  }

  /** Truncation toward zero, as Python's `int` does to a float. */
  function Truncate(x: real): (n: int)
    ensures x >= 0.0 ==> n as real <= x < n as real + 1.0
    ensures x < 0.0 ==> n as real - 1.0 < x <= n as real
  {
    if x >= 0.0 then x.Floor else -((-x).Floor)
  }

  /** Python's `int(v)`. */
  function ToInt(v: Value): (r: Result<int>)
    ensures v.Int? ==> r == Ok(v.i)
    ensures v.Float? ==> r == Ok(Truncate(v.f))
    ensures (v.Null? || v.List? || v.Dict?) ==> r == Err("TypeError")
  {
    match v
    case Bool(b) => Ok(if b then 1 else 0)
    case Int(i) => Ok(i)
    case Float(f) => Ok(Truncate(f))
    case Str(s) => (match ParseIntText(s) case Some(n) => Ok(n) case None => Err("ValueError"))
    case _ => Err("TypeError")
  }

  lemma StripNoop(t: string)
    requires t != [] && !IsSpace(t[0]) && !IsSpace(t[|t| - 1])
    ensures Strip(t) == t
  {
    assert StripLeft(t) == t;
    assert StripRight(t) == t;
  }

  /** `int(str(i)) == i`: rendering an int and parsing it back is the identity. */
  lemma IntTextRoundTrip(i: int)
    ensures ParseIntText(IntToString(i)) == Some(i)
  {
    var t := IntToString(i);
    var n: nat := if i < 0 then -i else i;
    var digits := NatToString(n);
    NatToStringRoundTrip(n);
    assert t == if i < 0 then "-" + digits else digits;
    assert !IsSpace(t[0]) && !IsSpace(t[|t| - 1]);
    StripNoop(t);
    if i < 0 {
      assert t[1..] == digits;
      assert SignOf(t) == (-1, digits);
    } else {
      assert SignOf(t) == (1, digits);
    }
  }

  // ----- containers: `k in c` and `c[k]` for a string key ---------------------

  /** Python's `k in c`: a key of a dict, a substring of a string, an item of a list;
      any other value raises TypeError. */
  function In(k: string, c: Value): (r: Result<bool>)
    ensures r.Err? <==> !(c.Dict? || c.Str? || c.List?)
    ensures r.Err? ==> r.error == "TypeError"
    ensures c.Dict? ==> r == Ok(HasKey(c.entries, k))
  {
    match c
    case Dict(e) => Ok(HasKey(e, k))
    case Str(s) => Ok(Contains(s, k))
    case List(items) => Ok(Str(k) in items)
    case _ => Err("TypeError")
  }

  /** `all(k in c for k in keys)`: stops at the first key that is missing. */
  function AllIn(keys: seq<string>, c: Value): (r: Result<bool>)
    ensures r.Err? <==> keys != [] && !(c.Dict? || c.Str? || c.List?)
    ensures c.Dict? ==> r == Ok(forall i :: 0 <= i < |keys| ==> HasKey(c.entries, keys[i]))
    decreases |keys|
  {
    if keys == [] then Ok(true)
    else
      match In(keys[0], c)
      case Err(e) => Err(e)
      case Ok(b) => if !b then Ok(false) else AllIn(keys[1..], c)
  }

  /** Python's `c[k]`: a dict's value, KeyError when missing; a string or list
      subscripted by a string raises TypeError, and so does anything else. */
  function Subscript(c: Value, k: string): (r: Result<Value>)
    ensures c.Dict? && HasKey(c.entries, k) ==> r == Ok(Lookup(c.entries, k).value)
    ensures r.Ok? ==> c.Dict?
  {
    match c
    case Dict(e) => (match Lookup(e, k) case Some(v) => Ok(v) case None => Err("KeyError"))
    case _ => Err("TypeError")
  }
}
