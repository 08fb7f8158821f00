/**
 * A PHP array used as a dictionary: an insertion-ordered list of (key, value)
 * entries. Writing an existing key replaces its value where it stands; writing a
 * new key appends it at the end. Iteration (foreach) visits entries in list order.
 */
module OrderedMap {
  import opened Wrappers

  /** The keys present in the list. */
  function Keys<V>(s: seq<(string, V)>): set<string> {
    if s == [] then {} else {s[0].0} + Keys(s[1..])
  }

  /** No key occurs twice (every PHP array has this property). */
  ghost predicate DistinctKeys<V>(s: seq<(string, V)>) {
    forall i, j :: 0 <= i < j < |s| ==> s[i].0 != s[j].0
  }

  /** $array[$key] ?? null */
  function Lookup<V>(s: seq<(string, V)>, k: string): (r: Option<V>)
    ensures r.Some? <==> k in Keys(s)
  {
    if s == [] then None
    else if s[0].0 == k then Some(s[0].1)
    else Lookup(s[1..], k)
  }

  /** $array[$key] = $value */
  function Assign<V(==)>(s: seq<(string, V)>, k: string, v: V): (r: seq<(string, V)>)
    ensures Keys(r) == Keys(s) + {k}
    ensures k in Keys(s) ==> |r| == |s| && forall i :: 0 <= i < |s| ==> r[i].0 == s[i].0
    ensures k !in Keys(s) ==> r == s + [(k, v)]
    ensures forall e :: e in r ==> e in s || e == (k, v)
    ensures DistinctKeys(s) ==> DistinctKeys(r)
  {
    if s == [] then [(k, v)]
    else if s[0].0 == k then
      assert ([(k, v)] + s[1..])[1..] == s[1..];
      [(k, v)] + s[1..]
    else
      var r := [s[0]] + Assign(s[1..], k, v);
      assert r[1..] == Assign(s[1..], k, v);
      r
  }

  /** Reading back: the written key yields the new value, every other key what it held before. */
  lemma {:induction false} LookupAssign<V>(s: seq<(string, V)>, k: string, v: V, q: string)
    ensures Lookup(Assign(s, k, v), q) == if q == k then Some(v) else Lookup(s, q)
  {
    if s != [] && s[0].0 != k {
      LookupAssign(s[1..], k, v, q);
    }
  }

  /** The last write wins: writing a key twice is the same as writing it once with the later value. */
  lemma {:induction false} AssignTwice<V>(s: seq<(string, V)>, k: string, v: V, w: V)
    ensures Assign(Assign(s, k, v), k, w) == Assign(s, k, w)
  {
    if s != [] && s[0].0 != k {
      AssignTwice(s[1..], k, v, w);
    }
  }

  /** With distinct keys, a lookup finds exactly the entries of the list. */
  lemma {:induction false} LookupIsEntry<V>(s: seq<(string, V)>, k: string, v: V)
    requires DistinctKeys(s)
    ensures Lookup(s, k) == Some(v) <==> (k, v) in s
  {
    if s != [] {
      assert DistinctKeys(s[1..]) by {
        forall i, j | 0 <= i < j < |s[1..]| ensures s[1..][i].0 != s[1..][j].0 {
          assert s[1..][i] == s[i + 1] && s[1..][j] == s[j + 1];
        }
      }
      LookupIsEntry(s[1..], k, v);
      assert s == [s[0]] + s[1..];
    }
  }
}
