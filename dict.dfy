/**
 * A JavaScript plain object used as a dictionary (`{ [key: string]: V }`):
 * its own properties, in the order in which they were first added. For keys
 * that are not array indices this is the order `Object.keys`,
 * `Object.values` and `Object.entries` report them; JavaScript lists
 * integer-like keys such as "1" and "2" first, in ascending numeric order,
 * which this model does not follow.
 */
module Dict {
  import opened Wrappers

  /** One own property of the object. */
  datatype Entry<V> = Entry(key: string, value: V)

  type Dict<V> = seq<Entry<V>>

  predicate HasKey<V>(d: Dict<V>, k: string) {
    exists i :: 0 <= i < |d| && d[i].key == k
  }

  /** No key occurs twice, as in every object the source builds. */
  predicate UniqueKeys<V>(d: Dict<V>) {
    forall i, j :: 0 <= i < j < |d| ==> d[i].key != d[j].key
  }

  /** The position of key `k`: the first entry that carries it. */
  function Position<V>(d: Dict<V>, k: string): (r: Option<nat>)
    ensures r.None? <==> !HasKey(d, k)
    ensures r.Some? ==> r.value < |d| && d[r.value].key == k
    ensures r.Some? ==> forall j :: 0 <= j < r.value ==> d[j].key != k
  {
    if d == [] then None
    else if d[0].key == k then Some(0)
    else
      var p := Position(d[1..], k);
      assert HasKey(d, k) ==> HasKey(d[1..], k) by {
        if HasKey(d, k) {
          var i :| 0 <= i < |d| && d[i].key == k;
          assert d[1..][i - 1].key == k;
        }
      }
      if p.None? then None else Some(p.value + 1)
  }

  /** `d[k]`: the value stored under `k`, if any. */
  function Get<V>(d: Dict<V>, k: string): (r: Option<V>)
    ensures r.Some? <==> HasKey(d, k)
  {
    match Position(d, k)
    case None => None
    case Some(i) => Some(d[i].value)
  }

  /** `d[k] || default`. */
  function GetOr<V>(d: Dict<V>, k: string, default: V): V {
    Get(d, k).GetOr(default)
  }

  /**
   * `{ ...d, [k]: v }`: an existing key keeps its place and takes the new
   * value; a new key is appended at the end.
   */
  function Set<V>(d: Dict<V>, k: string, v: V): Dict<V> {
    match Position(d, k)
    case None => d + [Entry(k, v)]
    case Some(i) => d[i := Entry(k, v)]
  }

  /** `Set` on a present key keeps every key in its place; on a new key it appends. */
  lemma SetKeys<V>(d: Dict<V>, k: string, v: V)
    ensures HasKey(d, k) ==> |Set(d, k, v)| == |d| && forall i :: 0 <= i < |d| ==> Set(d, k, v)[i].key == d[i].key
    ensures !HasKey(d, k) ==> Set(d, k, v) == d + [Entry(k, v)]
  {
  }

  /** Reading back what `Set` stored, and nothing else disturbed. */
  lemma GetSet<V>(d: Dict<V>, k: string, v: V, k': string)
    ensures Get(Set(d, k, v), k') == if k' == k then Some(v) else Get(d, k')
  {
    var r := Set(d, k, v);
    SetKeys(d, k, v);
    if k' == k {
      assert HasKey(r, k) by {
        if HasKey(d, k) { assert r[Position(d, k).value].key == k; } else { assert r[|d|].key == k; }
      }
      assert Position(r, k) == Position(d, k) || (!HasKey(d, k) && Position(r, k) == Some(|d|));
    } else if HasKey(d, k') {
      var i := Position(d, k').value;
      assert r[i].key == k';
      assert Position(r, k') == Some(i);
      assert r[i] == d[i];
    }
  }

  /** `Set` keeps the keys distinct. */
  lemma SetUniqueKeys<V>(d: Dict<V>, k: string, v: V)
    requires UniqueKeys(d)
    ensures UniqueKeys(Set(d, k, v))
  {
    SetKeys(d, k, v);
  }

  /** `Object.values(d)`. */
  function Values<V>(d: Dict<V>): (vs: seq<V>)
    ensures |vs| == |d| && forall i :: 0 <= i < |d| ==> vs[i] == d[i].value
  {
    if d == [] then [] else [d[0].value] + Values(d[1..])
  }
}
