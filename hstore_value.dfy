/** The data an hstore literal carries: an ordered mapping from string keys to
    values that are either a string or the null marker, and the outcome of a
    decode, which is either such a mapping or one of three errors.

    The mapping is a sequence of entries so that its order is observable, as
    it is for the associative arrays the codec produces and consumes. */
module HstoreValue {

  /** A decoded value: a string (possibly empty) or the null marker. */
  datatype Value = Str(s: string) | Null

  /** One key/value pair of the mapping. */
  type Entry = (string, Value)

  datatype Option<T> = None | Some(value: T)

  /** The ways a decode can fail. */
  datatype DecodeError =
    | UnterminatedQuote   // a quoted field is not closed before the input ends
    | MissingSeparator    // a key is not followed by `=>`
    | MalformedEntry      // a value is missing, or a field is cut short

  datatype Result<T> = Ok(value: T) | Err(error: DecodeError)

  /** The keys that occur in `m`. */
  function Keys(m: seq<Entry>): set<string>
  {
    if m == [] then {} else {m[0].0} + Keys(m[1..])
  }

  lemma {:induction false} KeysIndex(m: seq<Entry>, k: string)
    ensures k in Keys(m) <==> exists i :: 0 <= i < |m| && m[i].0 == k
  {
    if m != [] {
      KeysIndex(m[1..], k);
      if k in Keys(m[1..]) {
        var i :| 0 <= i < |m[1..]| && m[1..][i].0 == k;
        assert m[i + 1].0 == k;
      }
      if exists i :: 0 <= i < |m| && m[i].0 == k {
        var i :| 0 <= i < |m| && m[i].0 == k;
        if i > 0 { assert m[1..][i - 1].0 == k; }
      }
    }
  }

  lemma {:induction false} KeysSnoc(m: seq<Entry>, e: Entry)
    ensures Keys(m + [e]) == Keys(m) + {e.0}
  {
    if m != [] {
      assert (m + [e])[1..] == m[1..] + [e];
      KeysSnoc(m[1..], e);
    } else {
      assert Keys([e]) == {e.0} + Keys([]);
    }
  }

  /** No key occurs twice: what an associative array guarantees. */
  predicate DistinctKeys(m: seq<Entry>)
  {
    forall i, j :: 0 <= i < j < |m| ==> m[i].0 != m[j].0
  }

  /** The value stored under `k`, looked up from the front. */
  function Lookup(m: seq<Entry>, k: string): Option<Value>
  {
    if m == [] then None
    else if m[0].0 == k then Some(m[0].1)
    else Lookup(m[1..], k)
  }

  /** The value of the LAST pair with key `k` in a list of pairs: an
      independent reference for last-write-wins. */
  function LastValue(ps: seq<Entry>, k: string): Option<Value>
  {
    if ps == [] then None
    else if ps[|ps| - 1].0 == k then Some(ps[|ps| - 1].1)
    else LastValue(ps[..|ps| - 1], k)
  }

  lemma {:induction false} LookupKeys(m: seq<Entry>, k: string)
    ensures Lookup(m, k).Some? <==> k in Keys(m)
  {
    if m != [] {
      LookupKeys(m[1..], k);
    }
  }

  /** Stores `v` under `k` the way an associative-array assignment does: an
      existing key keeps its position and takes the new value, a new key is
      appended at the end. */
  function Put(m: seq<Entry>, k: string, v: Value): (r: seq<Entry>)
    ensures Keys(r) == Keys(m) + {k}
    ensures k !in Keys(m) ==> r == m + [(k, v)]
  {
    if m == [] then [(k, v)]
    else if m[0].0 == k then [(k, v)] + m[1..]
    else
      assert ([m[0]] + Put(m[1..], k, v))[1..] == Put(m[1..], k, v);
      [m[0]] + Put(m[1..], k, v)
  }

  /** After `Put`, `k` finds `v` and every other key finds what it found. */
  lemma {:induction false} PutLookup(m: seq<Entry>, k: string, v: Value, k': string)
    ensures Lookup(Put(m, k, v), k') == if k' == k then Some(v) else Lookup(m, k')
  {
    if m != [] && m[0].0 != k {
      PutLookup(m[1..], k, v, k');
      assert ([m[0]] + Put(m[1..], k, v))[1..] == Put(m[1..], k, v);
    }
  }

  /** Overwriting an existing key keeps every key in its place. */
  lemma {:induction false} PutInPlace(m: seq<Entry>, k: string, v: Value)
    requires k in Keys(m)
    ensures |Put(m, k, v)| == |m|
    ensures forall i :: 0 <= i < |m| ==> Put(m, k, v)[i].0 == m[i].0
  {
    if m[0].0 != k {
      PutInPlace(m[1..], k, v);
    }
  }

  /** `Put` keeps the keys of an associative array distinct. */
  lemma {:induction false} PutDistinct(m: seq<Entry>, k: string, v: Value)
    requires DistinctKeys(m)
    ensures DistinctKeys(Put(m, k, v))
  {
    if k in Keys(m) {
      PutInPlace(m, k, v);
    } else {
      var r := m + [(k, v)];
      forall i, j | 0 <= i < j < |r| ensures r[i].0 != r[j].0 {
        if j == |m| {
          KeysIndex(m, k);
        }
      }
    }
  }

  /** The mapping a list of decoded pairs builds, inserting them in order
      with `Put`. */
  function Build(ps: seq<Entry>): (r: seq<Entry>)
    ensures Keys(r) == Keys(ps)
  {
    if ps == [] then []
    else
      KeysSnoc(ps[..|ps| - 1], ps[|ps| - 1]);
      assert ps == ps[..|ps| - 1] + [ps[|ps| - 1]];
      Put(Build(ps[..|ps| - 1]), ps[|ps| - 1].0, ps[|ps| - 1].1)
  }

  /** Whatever the pairs, the built mapping has distinct keys and each key
      holds the value of its last pair: last write wins. */
  lemma {:induction false} BuildLastWins(ps: seq<Entry>, k: string)
    ensures DistinctKeys(Build(ps))
    ensures Lookup(Build(ps), k) == LastValue(ps, k)
  {
    if ps != [] {
      var init, last := ps[..|ps| - 1], ps[|ps| - 1];
      BuildLastWins(init, k);
      PutDistinct(Build(init), last.0, last.1);
      PutLookup(Build(init), last.0, last.1, k);
    }
  }

  /** Pairs whose keys are already distinct build exactly themselves: decoding
      does not reorder or drop anything unless a key repeats. */
  lemma {:induction false} BuildDistinct(ps: seq<Entry>)
    requires DistinctKeys(ps)
    ensures Build(ps) == ps
  {
    if ps != [] {
      var init, last := ps[..|ps| - 1], ps[|ps| - 1];
      assert DistinctKeys(init);
      BuildDistinct(init);
      KeysIndex(init, last.0);
      assert ps == init + [last];
    }
  }

  /** The keys of `m`, in order. */
  function KeyList(m: seq<Entry>): seq<string>
  {
    seq(|m|, i requires 0 <= i < |m| => m[i].0)
  }

  /** The keys of a list of pairs, each once, in the order of their first
      occurrence: an independent reference for the order of a built mapping. */
  function FirstKeys(ps: seq<Entry>): seq<string>
  {
    if ps == [] then []
    else
      var seen := FirstKeys(ps[..|ps| - 1]);
      var k := ps[|ps| - 1].0;
      if k in seen then seen else seen + [k]
  }

  /** Storing a key already present leaves the key order alone; a new key
      goes last. */
  lemma PutKeyList(m: seq<Entry>, k: string, v: Value)
    ensures KeyList(Put(m, k, v)) == if k in Keys(m) then KeyList(m) else KeyList(m) + [k]
  {
    if k in Keys(m) {
      PutInPlace(m, k, v);
    }
  }

  /** A built mapping lists its keys in the order they first occur among the
      pairs: a repeated key keeps the position of its first occurrence. */
  lemma {:induction false} BuildKeyOrder(ps: seq<Entry>)
    ensures KeyList(Build(ps)) == FirstKeys(ps)
  {
    if ps != [] {
      var init, last := ps[..|ps| - 1], ps[|ps| - 1];
      BuildKeyOrder(init);
      PutKeyList(Build(init), last.0, last.1);
      KeysIndex(Build(init), last.0);
      if last.0 in FirstKeys(init) {
        var i :| 0 <= i < |FirstKeys(init)| && FirstKeys(init)[i] == last.0;
        assert Build(init)[i].0 == last.0;
      }
    }
  }
}
