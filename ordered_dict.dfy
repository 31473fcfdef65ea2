/** Python's insertion-ordered `dict` with string keys, as a sequence of (key, value) entries.
    Assigning to a present key replaces its value in place; assigning to a new
    key appends an entry. */
module OrderedDict {
  import opened Common

  type Dict<V> = seq<(string, V)>

  /** The keys in iteration order: `list(d.keys())`. */
  function Keys<V>(d: Dict<V>): (ks: seq<string>)
    ensures |ks| == |d|
    ensures forall i :: 0 <= i < |d| ==> ks[i] == d[i].0
  {
    seq(|d|, i requires 0 <= i < |d| => d[i].0)
  }

  predicate Distinct(ks: seq<string>) {
    forall i, j :: 0 <= i < j < |ks| ==> ks[i] != ks[j]
  }

  /** A dictionary never holds the same key twice. */
  predicate Valid<V>(d: Dict<V>) {
    Distinct(Keys(d))
  }

  /** Position of the entry for `k`, if any. */
  function IndexOf<V>(d: Dict<V>, k: string): (r: Option<nat>)
    ensures r.Some? ==> r.value < |d| && d[r.value].0 == k
    ensures r.None? <==> k !in Keys(d)
  {
    if |d| == 0 then None
    else if d[|d| - 1].0 == k then Some(|d| - 1)
    else
      var r := IndexOf(d[..|d| - 1], k);
      assert Keys(d) == Keys(d[..|d| - 1]) + [d[|d| - 1].0];
      r
  }

  /** `d.get(k)`. */
  function Get<V>(d: Dict<V>, k: string): (r: Option<V>)
    ensures r.Some? <==> k in Keys(d)
  {
    match IndexOf(d, k)
    case Some(i) => Some(d[i].1)
    case None => None
  }

  /** `d[k] = v`. */
  function Put<V>(d: Dict<V>, k: string, v: V): (r: Dict<V>)
    requires Valid(d)
    ensures Valid(r)
    ensures Get(r, k) == Some(v)
    ensures forall k' :: k' != k ==> Get(r, k') == Get(d, k')
    ensures Keys(r) == if k in Keys(d) then Keys(d) else Keys(d) + [k]
  {
    match IndexOf(d, k)
    case Some(i) =>
      var r := d[i := (k, v)];
      assert Keys(r) == Keys(d);
      forall k' ensures Get(r, k') == if k' == k then Some(v) else Get(d, k') {
        GetAt(r, i);
        if k' != k && k' in Keys(d) {
          var j := IndexOf(d, k').value;
          GetAt(d, j);
          GetAt(r, j);
        }
      }
      r
    case None =>
      var r := d + [(k, v)];
      assert Keys(r) == Keys(d) + [k];
      forall k' ensures Get(r, k') == if k' == k then Some(v) else Get(d, k') {
        GetAt(r, |d|);
        if k' != k && k' in Keys(d) {
          var j := IndexOf(d, k').value;
          GetAt(d, j);
          GetAt(r, j);
        }
      }
      r
  }

  /** In a valid dictionary, the value stored for the key at position `i` is the
      one `Get` returns. */
  lemma GetAt<V>(d: Dict<V>, i: nat)
    requires Valid(d) && i < |d|
    ensures Get(d, d[i].0) == Some(d[i].1)
  {
    var j := IndexOf(d, d[i].0).value;
    assert Keys(d)[i] == Keys(d)[j];
  }

  /** The dictionary built by assigning the pairs in order, as the loop
      `for k, v in pairs: d[k] = v` does starting from `{}`. */
  function FromPairs<V>(pairs: seq<(string, V)>): (d: Dict<V>)
    ensures Valid(d)
  {
    if |pairs| == 0 then []
    else
      var last := pairs[|pairs| - 1];
      Put(FromPairs(pairs[..|pairs| - 1]), last.0, last.1)
  }

  /** The keys of `ks` in order of first appearance, each once. */
  function Dedup(ks: seq<string>): (r: seq<string>)
  {
    if |ks| == 0 then []
    else
      var d := Dedup(ks[..|ks| - 1]);
      if ks[|ks| - 1] in d then d else d + [ks[|ks| - 1]]
  }

  /** `Dedup` keeps every key exactly once. */
  lemma {:induction false} DedupProperties(ks: seq<string>)
    ensures Distinct(Dedup(ks))
    ensures forall k :: k in Dedup(ks) <==> k in ks
  {
    if |ks| > 0 {
      var init := ks[..|ks| - 1];
      DedupProperties(init);
      assert ks == init + [ks[|ks| - 1]];
    }
  }

  /** The value of the last pair whose key is `k`. */
  function LastValue<V>(pairs: seq<(string, V)>, k: string): Option<V>
  {
    if |pairs| == 0 then None
    else if pairs[|pairs| - 1].0 == k then Some(pairs[|pairs| - 1].1)
    else LastValue(pairs[..|pairs| - 1], k)
  }

  /** Building a dictionary from pairs keeps the keys in order of first
      appearance, each once, and each key holds the value of its last pair. */
  lemma {:induction false} FromPairsContents<V>(pairs: seq<(string, V)>)
    ensures Keys(FromPairs(pairs)) == Dedup(Keys(pairs))
    ensures forall k :: Get(FromPairs(pairs), k) == LastValue(pairs, k)
  {
    if |pairs| > 0 {
      var init := pairs[..|pairs| - 1];
      FromPairsContents(init);
      assert Keys(pairs)[..|pairs| - 1] == Keys(init);
    }
  }

  /** Folding pairs with distinct keys into a dictionary yields the pairs. */
  lemma {:induction false} FromPairsOfDistinct<V>(pairs: seq<(string, V)>)
    requires Distinct(Keys(pairs))
    ensures FromPairs(pairs) == pairs
  {
    if pairs != [] {
      var init := pairs[..|pairs| - 1];
      var last := pairs[|pairs| - 1];
      assert Keys(init) == Keys(pairs)[..|pairs| - 1];
      FromPairsOfDistinct(init);
      assert last.0 !in Keys(init) by {
        assert Keys(pairs)[|pairs| - 1] == last.0;
      }
      assert init + [last] == pairs;
    }
  }

  /** `i` is the position of the last pair whose key is `pairs[i].0`. */
  ghost predicate IsLastOf<V>(pairs: seq<(string, V)>, i: int) {
    0 <= i < |pairs| && forall j :: i < j < |pairs| ==> pairs[j].0 != pairs[i].0
  }

  /** `LastValue` is `None` exactly when no pair has the key. */
  lemma {:induction false} LastValueAbsent<V>(pairs: seq<(string, V)>, k: string)
    ensures LastValue(pairs, k).None? <==> k !in Keys(pairs)
  {
    if |pairs| > 0 {
      var n := |pairs| - 1;
      KeysSnoc(pairs);
      if pairs[n].0 != k {
        LastValueAbsent(pairs[..n], k);
      }
    }
  }

  /** `LastValue` is the value of the last pair with the key. */
  lemma {:induction false} LastValueOfLast<V>(pairs: seq<(string, V)>, i: int)
    requires IsLastOf(pairs, i)
    ensures LastValue(pairs, pairs[i].0) == Some(pairs[i].1)
  {
    var n := |pairs| - 1;
    if i < n {
      assert pairs[n].0 != pairs[i].0;
      var init := pairs[..n];
      assert init[i] == pairs[i];
      assert IsLastOf(init, i);
      LastValueOfLast(init, i);
    }
  }

  /** The keys of a non-empty dictionary: those of all but its last entry,
      then the last entry's key. */
  lemma KeysSnoc<V>(d: Dict<V>)
    requires |d| > 0
    ensures Keys(d) == Keys(d[..|d| - 1]) + [d[|d| - 1].0]
  {
  }
}
