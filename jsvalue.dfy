/** A closed model of the JavaScript values the core compares and interpolates:
    `undefined`, `null`, booleans, (integer) numbers, strings, arrays and plain
    objects. Objects keep their keys in insertion order, as `Object.keys` does. */
module JsValue {
  import opened Wrappers

  datatype Value =
    | Undefined
    | Null
    | Bool(b: bool)
    | Num(n: int)
    | Str(s: string)
    | List(items: seq<Value>)
    | Record(fields: seq<Field>)

  datatype Field = Field(key: string, val: Value)

  /** JavaScript truthiness (`NaN` is not modelled). */
  predicate Truthy(v: Value) {
    match v
    case Undefined => false
    case Null => false
    case Bool(b) => b
    case Num(n) => n != 0
    case Str(s) => s != ""
    case List(_) => true
    case Record(_) => true
  }

  /** A default parameter `x = null` replaces an explicit `undefined` argument by `null`. */
  function DefaultNull(v: Value): (r: Value)
    ensures r != Undefined
    ensures v != Undefined ==> r == v
  {
    if v.Undefined? then Null else v
  }

  // ---------------------------------------------------------------------------
  // String conversion, as a template literal `${v}` performs it.

  function DigitChar(d: nat): (c: char)
    requires d < 10
    ensures '0' <= c <= '9'
  {
    "0123456789"[d]
  }

  function NatToString(n: nat): (s: string)
    ensures |s| > 0
    ensures forall i :: 0 <= i < |s| ==> '0' <= s[i] <= '9'
    decreases n
  {
    if n < 10 then [DigitChar(n)] else NatToString(n / 10) + [DigitChar(n % 10)]
  }

  function IntToString(n: int): (s: string)
    ensures |s| > 0
  {
    if n < 0 then "-" + NatToString(-n) else NatToString(n)
  }

  function Join(parts: seq<string>, sep: string): string
    decreases |parts|
  {
    if parts == [] then ""
    else if |parts| == 1 then parts[0]
    else parts[0] + sep + Join(parts[1..], sep)
  }

  /** `String(v)`. Arrays join their elements with "," (null and undefined elements
      become empty); plain objects print as "[object Object]". */
  function ToJsString(v: Value): string
    decreases v
  {
    match v
    case Undefined => "undefined"
    case Null => "null"
    case Bool(b) => if b then "true" else "false"
    case Num(n) => IntToString(n)
    case Str(s) => s
    case List(xs) =>
      Join(seq(|xs|, i requires 0 <= i < |xs| =>
        if xs[i].Null? || xs[i].Undefined? then "" else ToJsString(xs[i])), ",")
    case Record(_) => "[object Object]"
  }

  /** `array.join(sep)`: null and undefined elements become empty strings. */
  function ArrayJoin(xs: seq<Value>, sep: string): string {
    Join(seq(|xs|, i requires 0 <= i < |xs| =>
      if xs[i].Null? || xs[i].Undefined? then "" else ToJsString(xs[i])), sep)
  }

  // ---------------------------------------------------------------------------
  // Object keys.

  /** `obj[key]` on a plain object: the value stored under `key`, `None` when absent. */
  function Lookup(fs: seq<Field>, k: string): (r: Option<Value>)
    ensures r.None? <==> forall j :: 0 <= j < |fs| ==> fs[j].key != k
    ensures r.Some? ==> exists j :: 0 <= j < |fs| && fs[j].key == k && fs[j].val == r.value
  {
    if fs == [] then None
    else if fs[0].key == k then Some(fs[0].val)
    else Lookup(fs[1..], k)
  }

  predicate DistinctKeys(fs: seq<Field>) {
    forall i, j :: 0 <= i < j < |fs| ==> fs[i].key != fs[j].key
  }

  /** Every value JavaScript can build has distinct keys in each of its objects. */
  predicate WellFormed(v: Value)
    decreases v
  {
    match v
    case List(xs) => forall i :: 0 <= i < |xs| ==> WellFormed(xs[i])
    case Record(fs) => DistinctKeys(fs) && forall i :: 0 <= i < |fs| ==> WellFormed(fs[i].val)
    case _ => true
  }

  function Keys(fs: seq<Field>): (ks: seq<string>)
    ensures |ks| == |fs| && forall i :: 0 <= i < |fs| ==> ks[i] == fs[i].key
  {
    seq(|fs|, i requires 0 <= i < |fs| => fs[i].key)
  }

  /** An object literal `{k0: v0, k1: v1, ...}` with its keys written in order. */
  function Zip(ks: seq<string>, vs: seq<Value>): (fs: seq<Field>)
    requires |ks| == |vs|
    ensures |fs| == |ks| && forall i :: 0 <= i < |fs| ==> fs[i] == Field(ks[i], vs[i])
  {
    seq(|ks|, i requires 0 <= i < |ks| => Field(ks[i], vs[i]))
  }

  function KeySet(fs: seq<Field>): set<string> {
    set i | 0 <= i < |fs| :: fs[i].key
  }

  // ---------------------------------------------------------------------------
  // deepEqual (utils/helpers.js and its copy in index.js).

  /** Structural equality: `null` and `undefined` only equal themselves, primitives of
      different `typeof` differ, arrays never equal objects, arrays compare index by
      index, and objects need the same number of keys with every key of the first
      present in the second under a deeply equal value. */
  predicate DeepEqual(a: Value, b: Value)
    decreases a
  {
    if a.Undefined? || a.Null? || b.Undefined? || b.Null? then a == b
    else match a
      case Bool(x) => b.Bool? && x == b.b
      case Num(x) => b.Num? && x == b.n
      case Str(x) => b.Str? && x == b.s
      case List(xs) =>
        && b.List?
        && |xs| == |b.items|
        && forall i :: 0 <= i < |xs| ==> DeepEqual(xs[i], b.items[i])
      case Record(fs) =>
        && b.Record?
        && |fs| == |b.fields|
        && forall i :: 0 <= i < |fs| ==>
             Lookup(b.fields, fs[i].key).Some? && DeepEqual(fs[i].val, Lookup(b.fields, fs[i].key).value)
  }

  /** With distinct keys, looking up the key stored at index `i` finds the value at index `i`. */
  lemma {:induction false} LookupAt(fs: seq<Field>, i: nat)
    requires DistinctKeys(fs)
    requires i < |fs|
    ensures Lookup(fs, fs[i].key) == Some(fs[i].val)
  {
    if i > 0 {
      assert fs[0].key != fs[i].key;
      assert fs[1..][i - 1] == fs[i];
      LookupAt(fs[1..], i - 1);
    }
  }

  lemma {:induction false} KeySetSize(fs: seq<Field>)
    requires DistinctKeys(fs)
    ensures |KeySet(fs)| == |fs|
  {
    if fs != [] {
      KeySetSize(fs[1..]);
      assert KeySet(fs) == {fs[0].key} + KeySet(fs[1..]) by {
        forall k | k in KeySet(fs) ensures k in {fs[0].key} + KeySet(fs[1..]) {
          var i :| 0 <= i < |fs| && fs[i].key == k;
          if i > 0 { assert fs[1..][i - 1].key == k; }
        }
      }
      assert fs[0].key !in KeySet(fs[1..]) by {
        forall k | k in KeySet(fs[1..]) ensures k != fs[0].key {
          var i :| 0 <= i < |fs[1..]| && fs[1..][i].key == k;
          assert fs[i + 1].key == k;
        }
      }
    }
  }

  lemma SubsetOfEqualSize<T>(a: set<T>, b: set<T>)
    requires a <= b && |a| == |b|
    ensures a == b
  {
    forall x | x in b ensures x in a {
      if x !in a {
        SubsetSize(a, b - {x});
        assert false;
      }
    }
  }

  lemma {:induction false} SubsetSize<T>(a: set<T>, b: set<T>)
    requires a <= b
    ensures |a| <= |b|
    decreases |b|
  {
    if a != {} {
      var x :| x in a;
      SubsetSize(a - {x}, b - {x});
    }
  }

  /** deepEqual is reflexive on every value JavaScript can build. */
  lemma {:induction false} DeepEqualReflexive(v: Value)
    requires WellFormed(v)
    ensures DeepEqual(v, v)
    decreases v
  {
    match v
    case List(xs) =>
      forall i | 0 <= i < |xs| ensures DeepEqual(xs[i], xs[i]) {
        DeepEqualReflexive(xs[i]);
      }
    case Record(fs) =>
      forall i | 0 <= i < |fs|
        ensures Lookup(fs, fs[i].key) == Some(fs[i].val) && DeepEqual(fs[i].val, fs[i].val)
      {
        LookupAt(fs, i);
        DeepEqualReflexive(fs[i].val);
      }
    case _ =>
  }

  /** deepEqual is symmetric on every value JavaScript can build. */
  lemma {:induction false} DeepEqualSymmetric(a: Value, b: Value)
    requires WellFormed(a) && WellFormed(b)
    ensures DeepEqual(a, b) <==> DeepEqual(b, a)
  {
    if DeepEqual(a, b) {
      DeepEqualSymmetricStep(a, b);
    }
    if DeepEqual(b, a) {
      DeepEqualSymmetricStep(b, a);
    }
  }

  lemma {:induction false} DeepEqualSymmetricStep(a: Value, b: Value)
    requires WellFormed(a) && WellFormed(b)
    requires DeepEqual(a, b)
    ensures DeepEqual(b, a)
    decreases a
  {
    if a.Undefined? || a.Null? || b.Undefined? || b.Null? {
    } else {
      match a
      case List(xs) =>
        var ys := b.items;
        forall i | 0 <= i < |ys| ensures DeepEqual(ys[i], xs[i]) {
          DeepEqualSymmetricStep(xs[i], ys[i]);
        }
      case Record(fs) =>
        var gs := b.fields;
        assert KeySet(fs) <= KeySet(gs) by {
          forall k | k in KeySet(fs) ensures k in KeySet(gs) {
            var i :| 0 <= i < |fs| && fs[i].key == k;
            assert Lookup(gs, k).Some?;
          }
        }
        KeySetSize(fs);
        KeySetSize(gs);
        SubsetOfEqualSize(KeySet(fs), KeySet(gs));
        forall j | 0 <= j < |gs|
          ensures Lookup(fs, gs[j].key).Some? && DeepEqual(gs[j].val, Lookup(fs, gs[j].key).value)
        {
          assert gs[j].key in KeySet(gs);
          var i :| 0 <= i < |fs| && fs[i].key == gs[j].key;
          LookupAt(fs, i);
          LookupAt(gs, j);
          DeepEqualSymmetricStep(fs[i].val, gs[j].val);
        }
      case _ =>
    }
  }

  /** `null` and `undefined` are deepEqual only to themselves, and not to each other. */
  lemma NullishOnlyEqualThemselves(v: Value)
    ensures DeepEqual(Null, v) <==> v == Null
    ensures DeepEqual(Undefined, v) <==> v == Undefined
    ensures !DeepEqual(Null, Undefined) && !DeepEqual(Undefined, Null)
  {
  }

  /** An array and an object are never deepEqual, and arrays of different lengths differ. */
  lemma ListNeverEqualsRecord(xs: seq<Value>, fs: seq<Field>, ys: seq<Value>)
    ensures !DeepEqual(List(xs), Record(fs)) && !DeepEqual(Record(fs), List(xs))
    ensures |xs| != |ys| ==> !DeepEqual(List(xs), List(ys))
  {
  }

  /** Arrays are compared by position: swapping two elements that are not deepEqual
      gives an array that is not deepEqual to the original. */
  lemma SwapIsUnequal(x: Value, y: Value)
    requires !DeepEqual(x, y)
    ensures !DeepEqual(List([x, y]), List([y, x]))
  {
    assert [x, y][0] == x && [y, x][0] == y;
  }

  /** Two objects with the same keys in the same order are deepEqual exactly when their
      values are deepEqual position by position. */
  lemma {:induction false} DeepEqualFieldwise(fs: seq<Field>, gs: seq<Field>)
    requires |fs| == |gs| && DistinctKeys(gs)
    requires forall i :: 0 <= i < |fs| ==> fs[i].key == gs[i].key
    ensures DeepEqual(Record(fs), Record(gs)) <==>
              forall i :: 0 <= i < |fs| ==> DeepEqual(fs[i].val, gs[i].val)
  {
    forall i | 0 <= i < |fs| ensures Lookup(gs, fs[i].key) == Some(gs[i].val) {
      LookupAt(gs, i);
    }
  }

  /** Two object literals with the same distinct keys are deepEqual exactly when their
      values are, key by key. */
  lemma ZipDeepEqual(ks: seq<string>, xs: seq<Value>, ys: seq<Value>)
    requires |ks| == |xs| == |ys|
    requires forall i, j :: 0 <= i < j < |ks| ==> ks[i] != ks[j]
    ensures DeepEqual(Record(Zip(ks, xs)), Record(Zip(ks, ys))) <==>
              forall i :: 0 <= i < |ks| ==> DeepEqual(xs[i], ys[i])
  {
    DeepEqualFieldwise(Zip(ks, xs), Zip(ks, ys));
  }
}
