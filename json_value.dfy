// JSON-shaped Python values as the Python services pass them around:
// None, booleans, integers, strings, lists and insertion-ordered dicts with
// string keys, with Python's truthiness, dict.get, and the canonical form
// that json.dumps(..., sort_keys=True) renders.
module Json {
  import opened Wrappers

  datatype Value =
    | Null
    | Bool(b: bool)
    | Int(i: int)
    | Str(s: string)
    | List(items: seq<Value>)
    | Dict(entries: seq<(string, Value)>)

  /** Python's truth value of a JSON-shaped value. */
  predicate Truthy(v: Value)
  {
    match v
    case Null => false
    case Bool(b) => b
    case Int(i) => i != 0
    case Str(s) => s != []
    case List(items) => items != []
    case Dict(entries) => entries != []
  }

  predicate DistinctKeys(entries: seq<(string, Value)>)
  {
    forall a, b :: 0 <= a < b < |entries| ==> entries[a].0 != entries[b].0
  }

  function Keys(entries: seq<(string, Value)>): (ks: set<string>)
    ensures forall k :: k in ks <==> exists i :: 0 <= i < |entries| && entries[i].0 == k
  {
    set i | 0 <= i < |entries| :: entries[i].0
  }

  /** The value stored under `key`, if any (the first entry, which in a dict is the only one). */
  function Lookup(entries: seq<(string, Value)>, key: string): (r: Option<Value>)
    ensures r.None? <==> key !in Keys(entries)
    ensures r.Some? ==> (key, r.value) in entries
    ensures DistinctKeys(entries) ==> forall i :: 0 <= i < |entries| && entries[i].0 == key ==> r == Some(entries[i].1)
  {
    if entries == [] then None
    else if entries[0].0 == key then Some(entries[0].1)
    else
      assert DistinctKeys(entries) ==> DistinctKeys(entries[1..]) by {
        if DistinctKeys(entries) {
          forall a, b | 0 <= a < b < |entries[1..]| ensures entries[1..][a].0 != entries[1..][b].0 {
            assert entries[1..][a] == entries[a + 1] && entries[1..][b] == entries[b + 1];
          }
        }
      }
      assert forall i :: 1 <= i < |entries| ==> entries[i] == entries[1..][i - 1];
      Lookup(entries[1..], key)
  }

  /** Python `d.get(key, default)` on a dict; anything else has no `get`, which the callers rule out. */
  function Get(v: Value, key: string, default: Value): (r: Value)
    requires v.Dict?
    ensures key in Keys(v.entries) ==> Some(r) == Lookup(v.entries, key)
    ensures key !in Keys(v.entries) ==> r == default
  {
    var found := Lookup(v.entries, key);
    if found.Some? then found.value else default
  }

  /** The value json.dumps with sorted keys renders: dicts compared as mappings, key order forgotten. */
  datatype Canon =
    | CNull
    | CBool(b: bool)
    | CInt(i: int)
    | CStr(s: string)
    | CList(items: seq<Canon>)
    | CDict(fields: map<string, Canon>)

  function ToCanon(v: Value): Canon
    decreases v
  {
    match v
    case Null => CNull
    case Bool(b) => CBool(b)
    case Int(i) => CInt(i)
    case Str(s) => CStr(s)
    case List(items) => CList(seq(|items|, k requires 0 <= k < |items| => ToCanon(items[k])))
    case Dict(entries) =>
      CDict(map key | key in Keys(entries) :: ToCanon(EntryValue(entries, key)))
  }

  /** The value of the first entry under `key`. */
  function EntryValue(entries: seq<(string, Value)>, key: string): (r: Value)
    requires key in Keys(entries)
    ensures (key, r) in entries
    ensures r < Dict(entries)
  {
    var found := Lookup(entries, key);
    assert (key, found.value) in entries;
    found.value
  }

  /**
   * Two dicts holding the same key/value pairs, in whatever order, have the
   * same canonical form: sorted-key rendering ignores insertion order.
   */
  lemma SameEntriesSameCanon(e1: seq<(string, Value)>, e2: seq<(string, Value)>)
    requires DistinctKeys(e1) && DistinctKeys(e2)
    requires forall p :: p in e1 <==> p in e2
    ensures ToCanon(Dict(e1)) == ToCanon(Dict(e2))
  {
    assert Keys(e1) == Keys(e2) by {
      forall k | k in Keys(e1) ensures k in Keys(e2) {
        var i :| 0 <= i < |e1| && e1[i].0 == k;
        assert e1[i] in e2;
      }
      forall k | k in Keys(e2) ensures k in Keys(e1) {
        var i :| 0 <= i < |e2| && e2[i].0 == k;
        assert e2[i] in e1;
      }
    }
    forall k | k in Keys(e1) ensures EntryValue(e1, k) == EntryValue(e2, k) {
      var v1 := EntryValue(e1, k);
      assert (k, v1) in e2;
      var j :| 0 <= j < |e2| && e2[j] == (k, v1);
    }
  }
}
