/**
 * JSON values as Python's `json.loads` returns them: objects are dicts, which
 * keep their keys in insertion order, so an object is a sequence of fields.
 */
module JsonValue {
  import opened Wrappers
  import opened Text

  datatype Json =
    | JNull
    | JBool(b: bool)
    | JNum(n: int)
    | JStr(s: string)
    | JArr(items: seq<Json>)
    | JObj(fields: seq<Field>)

  datatype Field = Field(key: string, val: Json)

  function Keys(fs: seq<Field>): (ks: seq<string>)
    ensures |ks| == |fs|
    ensures forall i :: 0 <= i < |fs| ==> ks[i] == fs[i].key
  {
    seq(|fs|, i requires 0 <= i < |fs| => fs[i].key)
  }

  /** A dict never holds the same key twice. */
  predicate DistinctKeys(fs: seq<Field>) {
    forall i, j :: 0 <= i < j < |fs| ==> fs[i].key != fs[j].key
  }

  /** `d.get(k)`: the value stored under `k`, if any. */
  function Lookup(fs: seq<Field>, k: string): (r: Option<Json>)
    ensures r.None? <==> k !in Keys(fs)
    ensures r.Some? ==> exists i :: 0 <= i < |fs| && fs[i] == Field(k, r.value)
  {
    if fs == [] then None
    else if fs[0].key == k then Some(fs[0].val)
    else Lookup(fs[1..], k)
  }

  /**
   * `d[k] = v`: an existing key keeps its place and takes the new value; a new
   * key goes to the end.
   */
  function Put(fs: seq<Field>, k: string, v: Json): (r: seq<Field>)
    ensures Keys(r) == if k in Keys(fs) then Keys(fs) else Keys(fs) + [k]
  {
    if fs == [] then [Field(k, v)]
    else if fs[0].key == k then [Field(k, v)] + fs[1..]
    else [fs[0]] + Put(fs[1..], k, v)
  }

  /** `d.pop(k, None)`: the key and its value leave the dict. */
  function Remove(fs: seq<Field>, k: string): (r: seq<Field>)
    ensures k !in Keys(r)
    ensures forall x :: x in Keys(r) <==> x in Keys(fs) && x != k
    ensures |r| <= |fs|
  {
    if fs == [] then []
    else
      var rest := Remove(fs[1..], k);
      assert Keys(fs) == [fs[0].key] + Keys(fs[1..]);
      if fs[0].key == k then rest
      else
        assert Keys([fs[0]] + rest) == [fs[0].key] + Keys(rest);
        [fs[0]] + rest
  }

  lemma {:induction false} PutLookup(fs: seq<Field>, k: string, v: Json, x: string)
    ensures Lookup(Put(fs, k, v), x) == if x == k then Some(v) else Lookup(fs, x)
  {
    if fs != [] && fs[0].key != k {
      PutLookup(fs[1..], k, v, x);
    }
  }

  lemma {:induction false} PutDistinct(fs: seq<Field>, k: string, v: Json)
    requires DistinctKeys(fs)
    ensures DistinctKeys(Put(fs, k, v))
  {
    var r := Put(fs, k, v);
    var ks := Keys(fs);
    var rs := Keys(r);
    forall i, j | 0 <= i < j < |r| ensures r[i].key != r[j].key {
      assert rs[i] == r[i].key && rs[j] == r[j].key;
      if k in ks {
        assert rs == ks;
        assert ks[i] == fs[i].key && ks[j] == fs[j].key;
      } else {
        assert rs == ks + [k];
        if j < |fs| {
          assert ks[i] == fs[i].key && ks[j] == fs[j].key;
        } else {
          assert rs[j] == k && rs[i] == ks[i];
        }
      }
    }
  }

  lemma {:induction false} RemoveLookup(fs: seq<Field>, k: string, x: string)
    ensures Lookup(Remove(fs, k), x) == if x == k then None else Lookup(fs, x)
  {
    if fs != [] {
      RemoveLookup(fs[1..], k, x);
    }
  }

  /** `dict.get` on a value that may not be a dict at all. */
  function Get(j: Json, k: string): Option<Json> {
    if j.JObj? then Lookup(j.fields, k) else None
  }

  /** Python truthiness of a JSON value (`x or []`, `if x:`). */
  predicate Truthy(j: Json) {
    match j
    case JNull => false
    case JBool(b) => b
    case JNum(n) => n != 0
    case JStr(s) => s != ""
    case JArr(xs) => xs != []
    case JObj(fs) => fs != []
  }

  /** The items of `x` when `x or []` is a non-empty list, as the parsers test it. */
  function NonEmptyList(x: Option<Json>): Option<seq<Json>> {
    match x
    case Some(JArr(xs)) => if xs != [] then Some(xs) else None
    case _ => None
  }

  /** Python's `str(x)`; containers are shown as their repr. */
  function Str(j: Json): string {
    match j
    case JStr(s) => s
    case _ => Repr(j)
  }

  /** Python's `repr(x)`, with strings quoted by `'` and no escaping. */
  function Repr(j: Json): string
    decreases j
  {
    match j
    case JNull => "None"
    case JBool(b) => BoolToString(b)
    case JNum(n) => IntToString(n)
    case JStr(s) => "'" + s + "'"
    case JArr(xs) => "[" + ReprItems(xs) + "]"
    case JObj(fs) => "{" + ReprFields(fs) + "}"
  }

  function ReprItems(xs: seq<Json>): string
    decreases xs
  {
    if xs == [] then ""
    else if |xs| == 1 then Repr(xs[0])
    else Repr(xs[0]) + ", " + ReprItems(xs[1..])
  }

  function ReprFields(fs: seq<Field>): string
    decreases fs
  {
    if fs == [] then ""
    else
      var head := "'" + fs[0].key + "': " + Repr(fs[0].val);
      if |fs| == 1 then head else head + ", " + ReprFields(fs[1..])
  }
}
