/** JavaScript objects used as dictionaries: keys with values, in the order of Object.entries. */
module Records {
  import opened Sorting

  type Record<V> = seq<(string, V)>

  ghost predicate DistinctKeys<V>(r: Record<V>) {
    forall i, j :: 0 <= i < j < |r| ==> r[i].0 != r[j].0
  }

  predicate HasKey<V>(r: Record<V>, key: string) {
    exists i | 0 <= i < |r| :: r[i].0 == key
  }

  /** r[key] = value: in place, or at the end. */
  function Put<V>(r: Record<V>, key: string, value: V): Record<V> {
    if r == [] then [(key, value)]
    else if r[0].0 == key then [(key, value)] + r[1..]
    else [r[0]] + Put(r[1..], key, value)
  }

  lemma {:induction false} PutFresh<V>(r: Record<V>, key: string, value: V)
    requires forall i :: 0 <= i < |r| ==> r[i].0 != key
    ensures Put(r, key, value) == r + [(key, value)]
  {
    if r == [] {
    } else {
      PutFresh(r[1..], key, value);
      assert r == [r[0]] + r[1..];
    }
  }

  /** `delete` of every key that `drop` holds of. */
  function Without<V>(r: Record<V>, drop: string -> bool): Record<V> {
    if r == [] then []
    else (if drop(r[0].0) then [] else [r[0]]) + Without(r[1..], drop)
  }

  // ------------------------------------------------------------------ Object.keys(r).sort()

  /** Comparison by UTF-16 code units, as Array.prototype.sort does it. */
  predicate AtMost(a: string, b: string) {
    if a == "" then true
    else if b == "" then false
    else if a[0] != b[0] then a[0] < b[0]
    else AtMost(a[1..], b[1..])
  }

  predicate ByKeyAtMost<V>(a: (string, V), b: (string, V)) {
    AtMost(a.0, b.0)
  }

  function SortByKey<V>(r: Record<V>): Record<V> {
    Sort(r, ByKeyAtMost<V>)
  }
}
