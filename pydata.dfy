/**
 * The Python values that the back end passes around in dictionaries:
 * JSON-like data, with a dictionary kept as its entries in insertion order.
 */
module PyData {
  import opened Wrappers

  datatype Value =
    | VNone
    | VBool(b: bool)
    | VInt(i: int)
    | VStr(s: string)
    | VList(items: seq<Value>)
    | VDict(entries: seq<(string, Value)>)

  /** A `dict[str, Any]`: its entries in insertion order. */
  type Dict = seq<(string, Value)>

  /** The keys of a dictionary in insertion order, as `list(d.keys())` returns them. */
  function Keys(d: Dict): (ks: seq<string>)
    ensures |ks| == |d|
    ensures forall i :: 0 <= i < |d| ==> ks[i] == d[i].0
  {
    if d == [] then [] else [d[0].0] + Keys(d[1..])
  }

  /** No key occurs twice, as in every Python dictionary. */
  predicate DistinctKeys(d: Dict)
  {
    forall i, j :: 0 <= i < j < |d| ==> d[i].0 != d[j].0
  }

  /** `d.get(key)`: the value stored under `key`, if any. */
  function Get(d: Dict, key: string): Option<Value>
  {
    if d == [] then None
    else if d[0].0 == key then Some(d[0].1)
    else Get(d[1..], key)
  }

  /** `key in d`. */
  predicate HasKey(d: Dict, key: string)
  {
    Get(d, key).Some?
  }

  /** `get` finds a key exactly when the dictionary has it, and then one of its entries. */
  lemma {:induction false} GetFinds(d: Dict, key: string)
    ensures Get(d, key).None? <==> key !in Keys(d)
    ensures Get(d, key).Some? ==> (key, Get(d, key).value) in d
  {
    if d != [] {
      GetFinds(d[1..], key);
      assert Keys(d) == [d[0].0] + Keys(d[1..]);
    }
  }

  /** An entry with no earlier entry of the same key is what `get` finds. */
  lemma {:induction false} GetAt(d: Dict, i: nat)
    requires i < |d|
    requires forall j :: 0 <= j < i ==> d[j].0 != d[i].0
    ensures Get(d, d[i].0) == Some(d[i].1)
  {
    if i > 0 {
      assert d[1..][i - 1] == d[i];
      GetAt(d[1..], i - 1);
    }
  }

  /** Python truthiness: `None`, `False`, `0`, `''`, `[]` and `{}` are false. */
  predicate Truthy(v: Value)
  {
    match v
    case VNone => false
    case VBool(b) => b
    case VInt(i) => i != 0
    case VStr(s) => s != ""
    case VList(items) => items != []
    case VDict(entries) => entries != []
  }

  /** A list of strings as a list value. */
  function StrList(xs: seq<string>): (vs: seq<Value>)
    ensures |vs| == |xs|
    ensures forall i :: 0 <= i < |xs| ==> vs[i] == VStr(xs[i])
  {
    if xs == [] then [] else [VStr(xs[0])] + StrList(xs[1..])
  }

  /** The strings of a list value, when every item is a string. */
  function AsStrings(vs: seq<Value>): (r: Option<seq<string>>)
    ensures r.Some? <==> forall i :: 0 <= i < |vs| ==> vs[i].VStr?
    ensures r.Some? ==> |r.value| == |vs| && forall i :: 0 <= i < |vs| ==> vs[i] == VStr(r.value[i])
  {
    if vs == [] then Some([])
    else if !vs[0].VStr? then None
    else match AsStrings(vs[1..])
      case None => None
      case Some(rest) => Some([vs[0].s] + rest)
  }

  /** Reading back a list of strings gives the strings. */
  lemma StringsRoundTrip(xs: seq<string>)
    ensures AsStrings(StrList(xs)) == Some(xs)
  {
    var r := AsStrings(StrList(xs));
    assert r.Some?;
    assert |r.value| == |xs|;
    forall i | 0 <= i < |xs| ensures r.value[i] == xs[i] {
      assert StrList(xs)[i] == VStr(xs[i]);
    }
    assert r.value == xs;
  }
}
