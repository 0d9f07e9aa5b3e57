/** A Python `dict` as the services use it: a key-to-value map that remembers
    insertion order (listing endpoints return `list(d.values())`, and
    `len(d)` is the number of keys). Overwriting a key keeps its position. */
module OrderedDict {
  datatype Dict<V> = Dict(keys: seq<string>, entries: map<string, V>) {
    /** Keys are distinct and are exactly the keys of the map. */
    predicate Valid() {
      && (forall i, j :: 0 <= i < j < |keys| ==> keys[i] != keys[j])
      && entries.Keys == set k | k in keys
    }

    /** `len(d)`. */
    function Size(): nat {
      |keys|
    }

    /** `d[k] = v`. */
    function Put(k: string, v: V): (d: Dict<V>)
      requires Valid()
      ensures d.Valid()
      ensures d.entries == entries[k := v]
      ensures k in entries ==> d.keys == keys
      ensures k !in entries ==> d.keys == keys + [k]
    {
      if k in entries then Dict(keys, entries[k := v]) else Dict(keys + [k], entries[k := v])
    }

    /** `del d[k]`. */
    function Remove(k: string): (d: Dict<V>)
      requires Valid()
      ensures d.Valid()
      ensures d.entries == entries - {k}
      ensures d.keys == Without(keys, k)
      ensures k in entries ==> d.Size() == Size() - 1
      ensures k !in entries ==> d == this
    {
      Dict(Without(keys, k), entries - {k})
    }

    /** `list(d.values())`, in key order. */
    function Values(): (vs: seq<V>)
      requires Valid()
      ensures |vs| == Size()
      ensures forall i :: 0 <= i < |keys| ==> vs[i] == entries[keys[i]]
    {
      seq(|keys|, i requires 0 <= i < |keys| => entries[keys[i]])
    }
  }

  function Empty<V>(): (d: Dict<V>)
    ensures d.Valid() && d.Size() == 0 && d.entries == map[]
  {
    Dict([], map[])
  }

  /** `r` is `s` with some elements left out, the rest in their order. */
  predicate Subsequence(r: seq<string>, s: seq<string>)
    decreases |s|
  {
    if r == [] then true
    else if s == [] then false
    else if r[0] == s[0] then Subsequence(r[1..], s[1..])
    else Subsequence(r, s[1..])
  }

  /** `s` with every occurrence of `k` removed, order kept. */
  function Without(s: seq<string>, k: string): (r: seq<string>)
    ensures Subsequence(r, s)
    ensures forall x :: x in r <==> x in s && x != k
    ensures (forall i, j :: 0 <= i < j < |s| ==> s[i] != s[j]) ==>
              (forall i, j :: 0 <= i < j < |r| ==> r[i] != r[j])
    ensures (forall i, j :: 0 <= i < j < |s| ==> s[i] != s[j]) && k in s ==> |r| == |s| - 1
    ensures k !in s ==> r == s
  {
    if s == [] then []
    else if s[0] == k then Without(s[1..], k)
    else
      var rest := Without(s[1..], k);
      assert (forall i, j :: 0 <= i < j < |s| ==> s[i] != s[j]) ==> s[0] !in s[1..];
      [s[0]] + rest
  }
}
