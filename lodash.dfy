/**
 * The three lodash helpers the builder relies on, defined for the values of
 * module Values: `_.uniq` (order-preserving de-duplication), `_.merge`
 * (recursive merge of one object into another) and `_.has` called without a
 * path, as `from` calls it.
 */
module Lodash {
  import opened Values

  /** No element occurs twice. */
  predicate NoDuplicates<T(==)>(s: seq<T>) {
    forall i, j :: 0 <= i < j < |s| ==> s[i] != s[j]
  }

  /** The set of elements of `s`. */
  function Elems<T(==)>(s: seq<T>): set<T> {
    set x | x in s
  }

  // ---------------------------------------------------------------------------
  // _.uniq
  // ---------------------------------------------------------------------------

  /**
   * `_.uniq(s)`: the elements of `s` without repetitions, each at the place of
   * its first occurrence. Written from the back: the last element is kept only
   * if no earlier element equals it.
   */
  function Uniq<T(==)>(s: seq<T>): (r: seq<T>)
    ensures NoDuplicates(r)
    ensures forall i :: 0 <= i < |r| ==> r[i] in s
    ensures forall i :: 0 <= i < |s| ==> s[i] in r
    ensures |r| <= |s|
  {
    if s == [] then []
    else
      var u := Uniq(s[..|s| - 1]);
      if s[|s| - 1] in u then u else u + [s[|s| - 1]]
  }

  /**
   * Reference reading of "keep first occurrences": walk `s` from the front and
   * keep an element exactly when it is not in `seen` yet.
   */
  function FirstOccurrences<T(==)>(s: seq<T>, seen: set<T>): seq<T>
    decreases |s|
  {
    if s == [] then []
    else if s[0] in seen then FirstOccurrences(s[1..], seen)
    else [s[0]] + FirstOccurrences(s[1..], seen + {s[0]})
  }

  /** The index of the first occurrence of `x` in `s`. */
  function FirstIndex<T(==)>(s: seq<T>, x: T): (i: nat)
    requires x in s
    ensures i < |s| && s[i] == x && x !in s[..i]
  {
    if s[0] == x then 0
    else
      var j := FirstIndex(s[1..], x);
      assert s[..j + 1] == [s[0]] + s[1..][..j];
      1 + j
  }

  lemma FirstIndexUnique<T>(s: seq<T>, x: T, k: nat)
    requires k < |s| && s[k] == x && x !in s[..k]
    ensures FirstIndex(s, x) == k
  {
  }

  /** Appending elements does not move the first occurrence of an element already there. */
  lemma FirstIndexOfPrefix<T>(p: seq<T>, q: seq<T>, x: T)
    requires x in p
    ensures FirstIndex(p + q, x) == FirstIndex(p, x)
  {
    var i := FirstIndex(p, x);
    assert (p + q)[..i] == p[..i];
    FirstIndexUnique(p + q, x, i);
  }

  /** Appending one element to the input of `_.uniq` appends it to the output unless it was seen. */
  lemma UniqSnoc<T>(p: seq<T>, x: T)
    ensures Uniq(p + [x]) == if x in p then Uniq(p) else Uniq(p) + [x]
  {
    assert (p + [x])[..|p + [x]| - 1] == p;
  }

  lemma ElemsSnoc<T>(p: seq<T>, x: T)
    ensures Elems(p + [x]) == Elems(p) + {x}
  {
  }

  /**
   * `_.uniq` splits over concatenation: de-duplicating `p + q` de-duplicates
   * `p` and then keeps those elements of `q` that `p` has not shown yet.
   */
  lemma {:induction false} UniqSplit<T>(p: seq<T>, q: seq<T>)
    ensures Uniq(p + q) == Uniq(p) + FirstOccurrences(q, Elems(p))
    decreases |q|
  {
    if q == [] {
      assert p + q == p;
    } else {
      var x, rest := q[0], q[1..];
      calc {
        Uniq(p + q);
        { assert p + q == (p + [x]) + rest; }
        Uniq((p + [x]) + rest);
        { UniqSplit(p + [x], rest); }
        Uniq(p + [x]) + FirstOccurrences(rest, Elems(p + [x]));
        { UniqSnoc(p, x); ElemsSnoc(p, x); }
        (if x in p then Uniq(p) else Uniq(p) + [x]) + FirstOccurrences(rest, Elems(p) + {x});
        { if x in p { assert Elems(p) + {x} == Elems(p); } }
        Uniq(p) + FirstOccurrences(q, Elems(p));
      }
    }
  }

  /** `_.uniq` keeps exactly the first occurrences, read from the front. */
  lemma UniqIsFirstOccurrences<T>(s: seq<T>)
    ensures Uniq(s) == FirstOccurrences(s, {})
  {
    UniqSplit([], s);
    assert [] + s == s;
    assert Elems<T>([]) == {};
  }

  /** The result of `_.uniq` lists its elements in the order of their first occurrence in the input. */
  lemma {:induction false} UniqKeepsFirstOccurrenceOrder<T>(s: seq<T>, i: nat, j: nat)
    requires i < j < |Uniq(s)|
    ensures FirstIndex(s, Uniq(s)[i]) < FirstIndex(s, Uniq(s)[j])
    decreases |s|
  {
    var p, last := s[..|s| - 1], s[|s| - 1];
    assert s == p + [last];
    var u := Uniq(p);
    var x, y := Uniq(s)[i], Uniq(s)[j];
    if j < |u| {
      assert x == u[i] && y == u[j];
      UniqKeepsFirstOccurrenceOrder(p, i, j);
      FirstIndexOfPrefix(p, [last], x);
      FirstIndexOfPrefix(p, [last], y);
    } else {
      assert last !in u && y == last && x == u[i];
      assert last !in p;
      assert s[..|p|] == p;
      FirstIndexUnique(s, last, |p|);
      FirstIndexOfPrefix(p, [last], x);
    }
  }

  /** On input without repetitions `_.uniq` changes nothing. */
  lemma {:induction false} UniqOfDistinct<T>(s: seq<T>)
    requires NoDuplicates(s)
    ensures Uniq(s) == s
    decreases |s|
  {
    if s != [] {
      var p := s[..|s| - 1];
      assert NoDuplicates(p) by {
        forall i, j | 0 <= i < j < |p| ensures p[i] != p[j] {
          assert p[i] == s[i] && p[j] == s[j];
        }
      }
      UniqOfDistinct(p);
      assert s[|s| - 1] !in p by {
        forall i | 0 <= i < |p| ensures p[i] != s[|s| - 1] {
          assert p[i] == s[i];
        }
      }
      assert p + [s[|s| - 1]] == s;
    }
  }

  /** De-duplicating twice is de-duplicating once. */
  lemma {:induction false} UniqIdempotent<T>(s: seq<T>)
    ensures Uniq(Uniq(s)) == Uniq(s)
  {
    UniqOfDistinct(Uniq(s));
  }

  // ---------------------------------------------------------------------------
  // _.merge
  // ---------------------------------------------------------------------------

  /**
   * `_.merge(dst, src)`: every key of `src` is merged into `dst`. Where both
   * sides hold an object at a key the two objects are merged recursively;
   * otherwise `src`'s value replaces `dst`'s. Keys only in `dst` survive.
   */
  function Merge(dst: map<string, Value>, src: map<string, Value>): (r: map<string, Value>)
    ensures r.Keys == dst.Keys + src.Keys
    ensures forall k :: k in dst && k !in src ==> r[k] == dst[k]
    ensures forall k :: k in src && !src[k].Obj? ==> r[k] == src[k]
    ensures forall k :: k in src && src[k].Obj? ==> r[k].Obj?
    decreases Obj(src)
  {
    map k | k in dst.Keys + src.Keys ::
      if k !in src then dst[k]
      else if src[k].Obj? && k in dst && dst[k].Obj? then Obj(Merge(dst[k].fields, src[k].fields))
      else src[k]
  }

  /**
   * `r` carries everything `s` says: every key of `s` is in `r`; a non-object
   * value of `s` is `r`'s value there, and an object value of `s` is covered,
   * recursively, by an object of `r`.
   */
  predicate Covers(r: map<string, Value>, s: map<string, Value>)
    decreases Obj(s)
  {
    forall k :: k in s ==>
      k in r &&
      if s[k].Obj? then r[k].Obj? && Covers(r[k].fields, s[k].fields) else r[k] == s[k]
  }

  /**
   * `r` keeps what `d` had and `s` did not overwrite: a key of `d` that `s`
   * lacks keeps its value, and where both hold objects the same holds one
   * level down.
   */
  predicate Retains(r: map<string, Value>, d: map<string, Value>, s: map<string, Value>)
    decreases Obj(s)
  {
    forall k :: k in d ==>
      k in r &&
      (k !in s ==> r[k] == d[k]) &&
      (k in s && s[k].Obj? && d[k].Obj? ==> r[k].Obj? && Retains(r[k].fields, d[k].fields, s[k].fields))
  }

  lemma {:induction false} CoversItself(m: map<string, Value>)
    ensures Covers(m, m)
    decreases Obj(m)
  {
    forall k | k in m && m[k].Obj? ensures Covers(m[k].fields, m[k].fields) {
      CoversItself(m[k].fields);
    }
  }

  /** After a merge every key of the source is present, with the source's value at leaf level. */
  lemma {:induction false} MergeCoversSource(dst: map<string, Value>, src: map<string, Value>)
    ensures Covers(Merge(dst, src), src)
    decreases Obj(src)
  {
    var r := Merge(dst, src);
    forall k | k in src && src[k].Obj? ensures r[k].Obj? && Covers(r[k].fields, src[k].fields) {
      if k in dst && dst[k].Obj? {
        MergeCoversSource(dst[k].fields, src[k].fields);
      } else {
        CoversItself(src[k].fields);
      }
    }
  }

  /** After a merge everything of the destination the source did not overwrite is still there, at every depth. */
  lemma {:induction false} MergeRetainsDestination(dst: map<string, Value>, src: map<string, Value>)
    ensures Retains(Merge(dst, src), dst, src)
    decreases Obj(src)
  {
    var r := Merge(dst, src);
    forall k | k in dst && k in src && src[k].Obj? && dst[k].Obj?
      ensures r[k].Obj? && Retains(r[k].fields, dst[k].fields, src[k].fields)
    {
      MergeRetainsDestination(dst[k].fields, src[k].fields);
    }
  }

  /**
   * `r` holds nothing `d` and `s` do not account for: each key of `r` comes
   * from `d` or `s`; where both hold objects the same holds one level down,
   * and where only `s` holds an object `r` holds that very object.
   */
  predicate Within(r: map<string, Value>, d: map<string, Value>, s: map<string, Value>)
    decreases Obj(s)
  {
    forall k :: k in r ==>
      (k in d || k in s) &&
      (k in s && s[k].Obj? && k in d && d[k].Obj? ==> r[k].Obj? && Within(r[k].fields, d[k].fields, s[k].fields)) &&
      (k in s && s[k].Obj? && !(k in d && d[k].Obj?) ==> r[k] == s[k])
  }

  /** A merge adds nothing beyond its two sides, at any depth. */
  lemma {:induction false} MergeWithin(dst: map<string, Value>, src: map<string, Value>)
    ensures Within(Merge(dst, src), dst, src)
    decreases Obj(src)
  {
    var r := Merge(dst, src);
    forall k | k in r && k in src && src[k].Obj? && k in dst && dst[k].Obj?
      ensures r[k].Obj? && Within(r[k].fields, dst[k].fields, src[k].fields)
    {
      MergeWithin(dst[k].fields, src[k].fields);
    }
  }

  /**
   * `Covers`, `Retains` and `Within` together define `Merge`: any object that
   * meets all three is the merge.
   */
  lemma {:induction false} MergeIsDeterminedByItsProperties(r: map<string, Value>, d: map<string, Value>, s: map<string, Value>)
    requires Covers(r, s) && Retains(r, d, s) && Within(r, d, s)
    ensures r == Merge(d, s)
    decreases Obj(s)
  {
    var m := Merge(d, s);
    assert r.Keys == m.Keys;
    forall k | k in r ensures r[k] == m[k] {
      if k in s && s[k].Obj? && k in d && d[k].Obj? {
        MergeIsDeterminedByItsProperties(r[k].fields, d[k].fields, s[k].fields);
      }
    }
  }

  /** Merging an object into itself changes nothing. */
  lemma {:induction false} MergeItself(m: map<string, Value>)
    ensures Merge(m, m) == m
    decreases Obj(m)
  {
    var r := Merge(m, m);
    forall k | k in m ensures r[k] == m[k] {
      if m[k].Obj? {
        MergeItself(m[k].fields);
      }
    }
  }

  /** Merging the same source a second time changes nothing. */
  lemma {:induction false} MergeIdempotent(dst: map<string, Value>, src: map<string, Value>)
    ensures Merge(Merge(dst, src), src) == Merge(dst, src)
    decreases Obj(src)
  {
    var r := Merge(dst, src);
    var rr := Merge(r, src);
    forall k | k in src && src[k].Obj? ensures rr[k] == r[k] {
      if k in dst && dst[k].Obj? {
        MergeIdempotent(dst[k].fields, src[k].fields);
      } else {
        MergeItself(src[k].fields);
      }
    }
  }

  /** Merging into an empty object yields the source. */
  lemma MergeIntoEmpty(src: map<string, Value>)
    ensures Merge(map[], src) == src
  {
  }

  /** Merging an empty source changes nothing. */
  lemma MergeEmpty(dst: map<string, Value>)
    ensures Merge(dst, map[]) == dst
  {
  }

  /** Two merges of a leaf value under the same key keep the later one; under different keys both. */
  lemma MergeExamples()
    ensures Merge(map["a" := Int(1)], map["b" := Int(2)]) == map["a" := Int(1), "b" := Int(2)]
    ensures Merge(map["a" := Int(1)], map["a" := Int(2)]) == map["a" := Int(2)]
    ensures Merge(map["a" := Obj(map["x" := Int(1)])], map["a" := Obj(map["y" := Int(2)])])
         == map["a" := Obj(map["x" := Int(1), "y" := Int(2)])]
  {
    var inner := Merge(map["x" := Int(1)], map["y" := Int(2)]);
    assert inner == map["x" := Int(1), "y" := Int(2)];
  }

  // ---------------------------------------------------------------------------
  // _.has without a path
  // ---------------------------------------------------------------------------

  /**
   * `_.has(v)` with the path argument missing. Lodash 4 turns the missing path
   * into the one-key path `[undefined]` and converts that key to the string
   * "undefined", so the call asks whether `v` is an object with an own
   * property named "undefined". Strings, arrays, numbers, booleans, `null` and
   * a missing value never have one.
   */
  predicate HasWithoutPath(v: Option<Value>)
    ensures HasWithoutPath(v) ==> v.Some? && v.value.Obj?
    ensures v.None? || !v.value.Obj? ==> !HasWithoutPath(v)
    ensures v.Some? && v.value.Obj? ==> (HasWithoutPath(v) <==> "undefined" in v.value.fields.Keys)
  {
    v.Some? && v.value.Obj? && "undefined" in v.value.fields
  }
}
