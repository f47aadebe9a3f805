/** Option and Result, and the Python exceptions the connector can raise. */
module Outcomes {

  datatype Option<+T> = None | Some(value: T)

  /** The exceptions of the modelled code, named after the Python ones. */
  datatype Error =
    | KeyError(key: string)        // `d[k]` or `d.pop(k)` on a missing key
    | TypeError                    // iterating or subscripting the wrong kind of value, a bad call
    | AttributeError               // `.items()` or an attribute on a value that lacks it
    | IndexError                   // `[][0]`
    | NotFound(path: string)       // deleting a storage object that does not exist
    | HttpError(url: string)       // `raise_for_status` on a URL the server cannot serve
    | NetworkExhausted            // the modelled server has no further page to answer with
    | ConfigTypeMismatch(key: string) // a configuration value of another type than the field's

  datatype Result<+T> = Ok(value: T) | Err(error: Error)
}

/** Decoded JSON, as the API delivers it and as Python holds it after `json.loads`,
    and the few Python operations the connector applies to such values. */
module Json {
  import opened Outcomes
  import opened Strings

  /** A JSON value. An object keeps its entries in arrival order: Python dicts
      iterate in insertion order, and the custom-field transform emits rows in
      that order. */
  datatype Value =
    | Null
    | Bool(b: bool)
    | Int(i: int)
    | Str(s: string)
    | Arr(elems: seq<Value>)
    | Obj(entries: seq<(string, Value)>)

  /** A top-level API record as its key/value mapping. */
  type Record = map<string, Value>

  /** A mutable Python dict holding one record; the transforms change it in place. */
  class RecordRef {
    var fields: Record

    constructor (fields: Record)
      ensures this.fields == fields
    {
      this.fields := fields;
    }
  }

  /** `d.get(k)`: the value under `k`, or None when `k` is absent. */
  function Get(d: Record, k: string): Value
  {
    if k in d then d[k] else Null
  }

  /** The keys of an object's entries, in order. */
  function EntryKeys(entries: seq<(string, Value)>): (ks: seq<string>)
    ensures |ks| == |entries|
    ensures forall i :: 0 <= i < |entries| ==> ks[i] == entries[i].0
  {
    if entries == [] then [] else EntryKeys(entries[..|entries| - 1]) + [entries[|entries| - 1].0]
  }

  /** A Python dict never holds a key twice. */
  predicate DistinctKeys(entries: seq<(string, Value)>)
  {
    forall i, j :: 0 <= i < j < |entries| ==> entries[i].0 != entries[j].0
  }

  /** The value an object holds under `k`. */
  function Lookup(entries: seq<(string, Value)>, k: string): (r: Option<Value>)
    ensures r.None? <==> forall i :: 0 <= i < |entries| ==> entries[i].0 != k
    ensures r.Some? ==> exists i :: 0 <= i < |entries| && entries[i] == (k, r.value)
  {
    if entries == [] then None
    else if entries[0].0 == k then Some(entries[0].1)
    else
      var r := Lookup(entries[1..], k);
      assert r.Some? ==> exists i :: 0 <= i < |entries[1..]| && entries[1..][i] == (k, r.value);
      r
  }

  /** Python truthiness: None, False, 0, "", [] and {} are false. */
  predicate Truthy(v: Value)
  {
    match v
    case Null => false
    case Bool(b) => b
    case Int(i) => i != 0
    case Str(s) => s != ""
    case Arr(es) => es != []
    case Obj(es) => es != []
  }

  /** What `for x in v` visits: a list's elements, a string's characters (each a
      one-character string), a dict's keys; any other value is not iterable. */
  function Iterate(v: Value): (r: Result<seq<Value>>)
    ensures v.Arr? ==> r == Ok(v.elems)
    ensures (v.Null? || v.Bool? || v.Int?) ==> r == Err(TypeError)
    ensures v.Str? ==> r.Ok? && |r.value| == |v.s|
    ensures v.Str? ==> forall i :: 0 <= i < |v.s| ==> r.value[i] == Str([v.s[i]])
    ensures v.Obj? ==> r.Ok? && |r.value| == |v.entries|
    ensures v.Obj? ==> forall i :: 0 <= i < |v.entries| ==> r.value[i] == Str(v.entries[i].0)
  {
    match v
    case Arr(es) => Ok(es)
    case Str(s) => Ok(seq(|s|, i requires 0 <= i < |s| => Str([s[i]])))
    case Obj(es) => Ok(seq(|es|, i requires 0 <= i < |es| => Str(es[i].0)))
    case _ => Err(TypeError)
  }

  /** `v[k]` with a string key: only a dict can be subscripted so; a missing
      key is a KeyError, any other kind of value a TypeError. */
  function Subscript(v: Value, k: string): (r: Result<Value>)
    ensures r.Ok? <==> v.Obj? && Lookup(v.entries, k).Some?
    ensures r.Ok? ==> r.value == Lookup(v.entries, k).value
    ensures v.Obj? && r.Err? ==> r.error == KeyError(k)
  {
    match v
    case Obj(es) =>
      (match Lookup(es, k)
       case Some(x) => Ok(x)
       case None => Err(KeyError(k)))
    case _ => Err(TypeError)
  }

  /** Whether Python can put the value in a set (lists and dicts cannot). */
  predicate Hashable(v: Value)
  {
    !v.Arr? && !v.Obj?
  }

  /** Python's `str(v)`, as an f-string renders it, for the scalar values record
      ids take. */
  function PyStr(v: Value): string
  {
    match v
    case Null => "None"
    case Bool(b) => if b then "True" else "False"
    case Int(i) => Decimal(i)
    case Str(s) => s
    case Arr(_) => "[...]"
    case Obj(_) => "{...}"
  }

  /** Two different integer ids never render to the same string. */
  lemma {:induction false} PyStrIntInjective(m: int, n: int)
    requires PyStr(Int(m)) == PyStr(Int(n))
    ensures m == n
  {
    var a, b := PyStr(Int(m)), PyStr(Int(n));
    assert a[0] == b[0];
    if m < 0 && n < 0 {
      SameSuffix("-", NatDecimal(-m), NatDecimal(-n));
      NatDecimalInjective(-m, -n);
    } else if m >= 0 && n >= 0 {
      NatDecimalInjective(m, n);
    }
  }
}
