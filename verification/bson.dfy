/** The part of the BSON value model the query compiler produces: scalars,
    arrays and documents. A document is an ordered list of key/value pairs;
    `Insert` and `Extend` follow `bson::Document`, which keeps insertion
    order and overwrites the value of an existing key in place. */
module Bson {
  import opened Wrappers

  datatype Bson =
    | Null
    | Int(i: int)
    | Str(s: string)
    | Arr(items: seq<Bson>)
    | Doc(fields: seq<(string, Bson)>)

  type Document = seq<(string, Bson)>

  /** A document with a single key, as written by `doc! { key: value }`. */
  function Single(key: string, value: Bson): Document {
    [(key, value)]
  }

  /** `format!("${}", name)`: a reference to a field of the current document. */
  function FieldRef(name: string): Bson {
    Str("$" + name)
  }

  function Keys(d: Document): (ks: seq<string>)
    ensures |ks| == |d|
    ensures forall i :: 0 <= i < |d| ==> ks[i] == d[i].0
  {
    if d == [] then [] else [d[0].0] + Keys(d[1..])
  }

  predicate DistinctKeys(d: Document) {
    forall i, j :: 0 <= i < j < |d| ==> d[i].0 != d[j].0
  }

  /** `Document::get`: the value stored under `key`. */
  function Get(d: Document, key: string): Option<Bson> {
    if d == [] then None
    else if d[0].0 == key then Some(d[0].1)
    else Get(d[1..], key)
  }

  lemma {:induction false} GetPresent(d: Document, key: string)
    ensures Get(d, key).Some? <==> key in Keys(d)
  {
    if d != [] {
      GetPresent(d[1..], key);
      assert Keys(d) == [d[0].0] + Keys(d[1..]);
    }
  }

  lemma {:induction false} GetDistinct(d: Document, i: nat)
    requires DistinctKeys(d) && i < |d|
    ensures Get(d, d[i].0) == Some(d[i].1)
  {
    if i > 0 {
      GetDistinct(d[1..], i - 1);
    }
  }

  /** The value of the last pair with key `key` in a list of pairs. */
  function GetLast(pairs: Document, key: string): Option<Bson> {
    if pairs == [] then None
    else
      var later := GetLast(pairs[1..], key);
      if later.Some? then later
      else if pairs[0].0 == key then Some(pairs[0].1)
      else None
  }

  lemma {:induction false} GetLastPresent(pairs: Document, key: string)
    ensures GetLast(pairs, key).Some? <==> key in Keys(pairs)
  {
    if pairs != [] {
      GetLastPresent(pairs[1..], key);
      assert Keys(pairs) == [pairs[0].0] + Keys(pairs[1..]);
    }
  }

  lemma {:induction false} GetLastDistinct(pairs: Document, i: nat)
    requires DistinctKeys(pairs) && i < |pairs|
    ensures GetLast(pairs, pairs[i].0) == Some(pairs[i].1)
  {
    GetLastPresent(pairs[1..], pairs[i].0);
    if i > 0 {
      GetLastDistinct(pairs[1..], i - 1);
    } else {
      assert pairs[0].0 !in Keys(pairs[1..]);
    }
  }

  /** `Document::insert`: overwrite in place when the key is present, append otherwise. */
  function Insert(d: Document, key: string, value: Bson): (r: Document)
    ensures Get(r, key) == Some(value)
    ensures forall k :: k != key ==> Get(r, k) == Get(d, k)
    ensures key in Keys(d) ==> Keys(r) == Keys(d)
    ensures key !in Keys(d) ==> r == d + [(key, value)]
    ensures DistinctKeys(d) ==> DistinctKeys(r)
    ensures |d| > 0 && d[0].0 != key ==> |r| > 0 && r[0] == d[0]
  {
    if d == [] then [(key, value)]
    else if d[0].0 == key then [(key, value)] + d[1..]
    else
      assert Keys(d) == [d[0].0] + Keys(d[1..]);
      var rest := Insert(d[1..], key, value);
      assert Keys([d[0]] + rest) == [d[0].0] + Keys(rest);
      DistinctFront(d, rest, key);
      [d[0]] + rest
  }

  /** Putting a document's first entry back in front of a rewrite of its
      tail that adds at most `key` keeps the keys distinct. */
  lemma DistinctFront(d: Document, rest: Document, key: string)
    requires |d| > 0 && d[0].0 != key
    requires Keys(rest) == Keys(d[1..]) || Keys(rest) == Keys(d[1..]) + [key]
    requires DistinctKeys(d[1..]) ==> DistinctKeys(rest)
    ensures DistinctKeys(d) ==> DistinctKeys([d[0]] + rest)
  {
    if DistinctKeys(d) {
      assert DistinctKeys(d[1..]) by {
        forall i, j | 0 <= i < j < |d[1..]| ensures d[1..][i].0 != d[1..][j].0 {
          assert d[1..][i] == d[i + 1] && d[1..][j] == d[j + 1];
        }
      }
      assert d[0].0 !in Keys(d[1..]) by {
        forall m | 0 <= m < |d[1..]| ensures Keys(d[1..])[m] != d[0].0 {
          assert Keys(d[1..])[m] == d[m + 1].0;
        }
      }
      assert d[0].0 !in Keys(rest);
      DistinctCons(d[0].0, d[0].1, rest);
    }
  }

  /** `Document::extend`: insert every pair, left to right. */
  function Extend(d: Document, pairs: Document): (r: Document)
    ensures forall k :: Get(r, k) == (if GetLast(pairs, k).Some? then GetLast(pairs, k) else Get(d, k))
    decreases |pairs|
  {
    if pairs == [] then d
    else Extend(Insert(d, pairs[0].0, pairs[0].1), pairs[1..])
  }

  /** Extending keeps the keys of a document distinct. */
  lemma {:induction false} ExtendDistinct(d: Document, pairs: Document)
    requires DistinctKeys(d)
    ensures DistinctKeys(Extend(d, pairs))
    decreases |pairs|
  {
    if pairs != [] {
      ExtendDistinct(Insert(d, pairs[0].0, pairs[0].1), pairs[1..]);
    }
  }

  /** Extending the empty document adds no key the pairs do not carry. */
  lemma ExtendKeyFromPairs(pairs: Document, k: string)
    requires k in Keys(Extend([], pairs))
    ensures k in Keys(pairs)
  {
    GetPresent(Extend([], pairs), k);
    GetLastPresent(pairs, k);
  }

  /** Past its one entry, a single-entry document extended by pairs reads as the pairs. */
  lemma ExtendSingleGet(key: string, value: Bson, pairs: Document)
    ensures forall k :: k != key ==> Get(Extend(Single(key, value), pairs), k) == GetLast(pairs, k)
  {
    forall k | k != key
      ensures Get(Extend(Single(key, value), pairs), k) == GetLast(pairs, k)
    {
      assert Get(Single(key, value), k) == None;
    }
  }

  /** A leading entry whose key no pair repeats stays in front. */
  lemma {:induction false} ExtendKeepsFirst(d: Document, pairs: Document)
    requires |d| > 0 && d[0].0 !in Keys(pairs)
    ensures |Extend(d, pairs)| > 0 && Extend(d, pairs)[0] == d[0]
    decreases |pairs|
  {
    if pairs != [] {
      assert Keys(pairs) == [pairs[0].0] + Keys(pairs[1..]);
      ExtendKeepsFirst(Insert(d, pairs[0].0, pairs[0].1), pairs[1..]);
    }
  }

  /** Extending by two lists in turn is extending by their concatenation. */
  lemma {:induction false} ExtendConcat(d: Document, p: Document, q: Document)
    ensures Extend(Extend(d, p), q) == Extend(d, p + q)
    decreases |p|
  {
    if p == [] {
      assert p + q == q;
    } else {
      assert (p + q)[0] == p[0];
      assert (p + q)[1..] == p[1..] + q;
      ExtendConcat(Insert(d, p[0].0, p[0].1), p[1..], q);
    }
  }

  /** With no key repeated, extending is appending. */
  lemma {:induction false} ExtendAppends(d: Document, pairs: Document)
    requires DistinctKeys(d + pairs)
    ensures Extend(d, pairs) == d + pairs
    decreases |pairs|
  {
    if pairs != [] {
      forall i | 0 <= i < |d|
        ensures d[i].0 != pairs[0].0
      {
        assert (d + pairs)[i] == d[i] && (d + pairs)[|d|] == pairs[0];
      }
      assert d + [pairs[0]] + pairs[1..] == d + pairs;
      ExtendAppends(d + [pairs[0]], pairs[1..]);
    }
  }

  /** A key absent from a list of distinct keys may go in front of it. */
  lemma DistinctCons(key: string, value: Bson, pairs: Document)
    requires DistinctKeys(pairs) && key !in Keys(pairs)
    ensures DistinctKeys([(key, value)] + pairs)
  {
    var d := [(key, value)] + pairs;
    var ks := Keys(pairs);
    forall i, j | 0 <= i < j < |d|
      ensures d[i].0 != d[j].0
    {
      if i == 0 {
        assert d[j].0 == ks[j - 1];
      } else {
        assert d[i] == pairs[i - 1] && d[j] == pairs[j - 1];
      }
    }
  }

  /** When every pair binds its key to `value(key)`, so does the last one. */
  lemma {:induction false} GetLastUniform(pairs: Document, key: string, value: string -> Bson)
    requires forall i :: 0 <= i < |pairs| ==> pairs[i].1 == value(pairs[i].0)
    requires key in Keys(pairs)
    ensures GetLast(pairs, key) == Some(value(key))
  {
    GetLastPresent(pairs[1..], key);
    assert Keys(pairs) == [pairs[0].0] + Keys(pairs[1..]);
    if key in Keys(pairs[1..]) {
      GetLastUniform(pairs[1..], key, value);
    }
  }
}
