/**
 * What the builder's methods promise, alone and in chains: the rule each one
 * applies to its field, that it leaves every other field alone, and what a
 * chain of calls leaves behind.
 */
module BuilderProperties {
  import opened Values
  import opened Lodash
  import opened Builder

  // ---------------------------------------------------------------------------
  // select
  // ---------------------------------------------------------------------------

  /** The first `select` stores its argument verbatim: no wrapping, no de-duplication. */
  lemma FirstSelectIsVerbatim(q: Query, values: Value)
    requires q.select.None?
    ensures SelectStep(q, values).select == Some(values)
  {
  }

  /** Once a selection exists, `select('*')` sets it to `'*'`, whatever it held. */
  lemma WildcardOverrides(q: Query)
    requires q.select.Some?
    ensures SelectStep(q, Str("*")).select == Some(Str("*"))
  {
  }

  /**
   * A later non-`'*'` `select` leaves an array holding the argument's columns
   * (a scalar wrapped), each once, in the order of their first occurrence in
   * the argument. Nothing of the earlier selection is kept.
   */
  lemma {:induction false} LaterSelectDeduplicates(q: Query, values: Value)
    requires q.select.Some? && values != Str("*")
    ensures SelectStep(q, values).select.Some?
    ensures var s := SelectStep(q, values).select.value;
      && s.Arr?
      && NoDuplicates(s.items)
      && (forall i :: 0 <= i < |s.items| ==> s.items[i] in Columns(values))
      && (forall i :: 0 <= i < |Columns(values)| ==> Columns(values)[i] in s.items)
      && s.items == FirstOccurrences(Columns(values), {})
  {
    UniqIsFirstOccurrences(Columns(values));
  }

  /**
   * In a chain of non-`'*'` selects, once a selection exists, only the last
   * call's columns remain: the earlier columns are dropped.
   */
  lemma {:induction false} SelectChainKeepsOnlyLast(q: Query, calls: seq<Call>)
    requires |calls| >= 2 || (|calls| == 1 && q.select.Some?)
    requires forall i :: 0 <= i < |calls| ==> calls[i].CallSelect? && calls[i].values != Str("*")
    ensures Run(q, calls).select == Some(Arr(Uniq(Columns(calls[|calls| - 1].values))))
    decreases |calls|
  {
    var next := Step(q, calls[0]);
    assert next.select.Some?;
    if |calls| > 1 {
      SelectChainKeepsOnlyLast(next, calls[1..]);
    }
  }

  // ---------------------------------------------------------------------------
  // from and schema
  // ---------------------------------------------------------------------------

  /** `from(v)` leaves `from == v` unless the old `from` is an object with an own key "undefined". */
  lemma FromOverwrites(q: Query, values: Value)
    requires !HasWithoutPath(q.from)
    ensures FromStep(q, values).from == Some(values)
  {
  }

  /** When the old `from` is an object with an own key "undefined", `from(v)` sets its "table" to `v`. */
  lemma FromSetsTableOnGuardedObject(q: Query, values: Value)
    requires HasWithoutPath(q.from)
    ensures FromStep(q, values).from.Some? && FromStep(q, values).from.value.Obj?
    ensures FromStep(q, values).from.value.fields == q.from.value.fields["table" := values]
  {
  }

  /** A `from` argument the guard of a later `from` would find a key "undefined" in. */
  predicate TripsFromGuard(c: Call) {
    c.CallFrom? && HasWithoutPath(Some(c.values))
  }

  /** No call other than such a `from` can make the guard of `from` hold. */
  lemma StepKeepsFromGuardOff(q: Query, c: Call)
    requires !HasWithoutPath(q.from) && !TripsFromGuard(c)
    ensures !HasWithoutPath(Step(q, c).from)
  {
  }

  /**
   * Starting from any descriptor whose `from` the guard rejects (the empty one
   * included), a chain none of whose `from` arguments is an object with key
   * "undefined" leaves a `from` the guard rejects too.
   */
  lemma {:induction false} ChainKeepsFromGuardOff(q: Query, calls: seq<Call>)
    requires !HasWithoutPath(q.from)
    requires forall i :: 0 <= i < |calls| ==> !TripsFromGuard(calls[i])
    ensures !HasWithoutPath(Run(q, calls).from)
    decreases |calls|
  {
    if calls != [] {
      StepKeepsFromGuardOff(q, calls[0]);
      ChainKeepsFromGuardOff(Step(q, calls[0]), calls[1..]);
    }
  }

  /**
   * On every builder such chains produce, `from(v)` overwrites: the
   * sub-field branch of `from` is unreachable for them.
   */
  lemma FromAlwaysOverwritesAfterChain(calls: seq<Call>, values: Value)
    requires forall i :: 0 <= i < |calls| ==> !TripsFromGuard(calls[i])
    ensures FromStep(Run(EMPTY_QUERY, calls), values).from == Some(values)
  {
    ChainKeepsFromGuardOff(EMPTY_QUERY, calls);
  }

  /** `schema(s)` on a string `from` t gives `{table: t, schema: s}`. */
  lemma SchemaOfTable(q: Query, table: string, schema: Value)
    requires q.from == Some(Str(table))
    ensures SchemaStep(q, schema).from == Some(Obj(map["table" := Str(table), "schema" := schema]))
  {
  }

  /** `schema(s)` on an object `from` gives `{schema: s}`: the old table is dropped. */
  lemma SchemaOfObjectDropsTable(q: Query, schema: Value)
    requires q.from.Some? && q.from.value.Obj?
    ensures SchemaStep(q, schema).from == Some(Obj(map["schema" := schema]))
  {
  }

  /** `schema(s)` without a string or object `from` (none at all included) gives `{}`. */
  lemma SchemaOfNothing(q: Query, schema: Value)
    requires q.from.None? || !(q.from.value.Str? || q.from.value.Obj?)
    ensures SchemaStep(q, schema).from == Some(Obj(map[]))
  {
  }

  /** A chain of two calls applies the first, then the second. */
  lemma RunTwo(q: Query, c1: Call, c2: Call)
    ensures Run(q, [c1, c2]) == Step(Step(q, c1), c2)
  {
    var q1 := Step(q, c1);
    assert [c1, c2][1..] == [c2];
    assert Run(q, [c1, c2]) == Run(q1, [c2]);
    assert Run(q1, [c2]) == Run(Step(q1, c2), []);
  }

  /** A second `schema` drops the table the first one recorded. */
  lemma SchemaTwiceDropsTable(q: Query, table: string, s1: Value, s2: Value)
    requires q.from == Some(Str(table))
    ensures Run(q, [CallSchema(s1), CallSchema(s2)]).from == Some(Obj(map["schema" := s2]))
  {
    RunTwo(q, CallSchema(s1), CallSchema(s2));
  }

  /**
   * `from` after `schema` replaces the record schema built, schema included:
   * the record has no key "undefined", so the guard of `from` does not hold.
   */
  lemma FromAfterSchemaLosesSchema(q: Query, schema: Value, table: Value)
    ensures Run(q, [CallSchema(schema), CallFrom(table)]).from == Some(table)
  {
    RunTwo(q, CallSchema(schema), CallFrom(table));
  }

  // ---------------------------------------------------------------------------
  // where and insert
  // ---------------------------------------------------------------------------

  /**
   * `where(v)` deep-merges `v` into the criteria (`{}` when there are none):
   * every key of `v` is present with `v`'s leaf values, and what the old
   * criteria held and `v` did not overwrite survives at every depth.
   */
  lemma WhereMerges(q: Query, values: map<string, Value>)
    ensures WhereStep(q, values).where.Some?
    ensures Covers(WhereStep(q, values).where.value, values)
    ensures q.where.Some? ==> Retains(WhereStep(q, values).where.value, q.where.value, values)
    ensures q.where.None? ==> WhereStep(q, values).where == Some(values)
  {
    MergeCoversSource(q.where.GetOr(map[]), values);
    MergeRetainsDestination(q.where.GetOr(map[]), values);
    MergeIntoEmpty(values);
  }

  /** `insert(v)` deep-merges exactly as `where(v)` does. */
  lemma InsertMergesLikeWhere(q: Query, values: map<string, Value>)
    ensures InsertStep(q, values).insert == WhereStep(q.(where := q.insert), values).where
  {
  }

  /** Repeating a `where` changes nothing. */
  lemma WhereIdempotent(q: Query, values: map<string, Value>)
    ensures WhereStep(WhereStep(q, values), values) == WhereStep(q, values)
  {
    MergeIdempotent(q.where.GetOr(map[]), values);
  }

  /** Repeating an `insert` changes nothing. */
  lemma InsertIdempotent(q: Query, values: map<string, Value>)
    ensures InsertStep(InsertStep(q, values), values) == InsertStep(q, values)
  {
    MergeIdempotent(q.insert.GetOr(map[]), values);
  }

  // ---------------------------------------------------------------------------
  // Chains
  // ---------------------------------------------------------------------------

  /** A call changes the one field it is about and no other. */
  lemma StepKeepsOtherFields(q: Query, c: Call, f: Field)
    requires f != FieldOf(c)
    ensures Get(Step(q, c), f) == Get(q, f)
  {
  }

  /** Calls about different fields commute. */
  lemma StepsOnDifferentFieldsCommute(q: Query, c1: Call, c2: Call)
    requires FieldOf(c1) != FieldOf(c2)
    ensures Step(Step(q, c1), c2) == Step(Step(q, c2), c1)
  {
  }

  /** A chain leaves alone every field none of its calls is about. */
  lemma {:induction false} RunKeepsUntouchedFields(q: Query, calls: seq<Call>, f: Field)
    requires forall i :: 0 <= i < |calls| ==> FieldOf(calls[i]) != f
    ensures Get(Run(q, calls), f) == Get(q, f)
    decreases |calls|
  {
    if calls != [] {
      StepKeepsOtherFields(q, calls[0], f);
      RunKeepsUntouchedFields(Step(q, calls[0]), calls[1..], f);
    }
  }

  /** Running two chains one after the other is running their concatenation. */
  lemma {:induction false} RunAppend(q: Query, first: seq<Call>, second: seq<Call>)
    ensures Run(q, first + second) == Run(Run(q, first), second)
    decreases |first|
  {
    if first == [] {
      assert first + second == second;
    } else {
      var all := first + second;
      assert all[0] == first[0] && all[1..] == first[1..] + second;
      assert Run(q, all) == Run(Step(q, first[0]), all[1..]);
      RunAppend(Step(q, first[0]), first[1..], second);
    }
  }

  /** `into` and `limit` are last-write-wins: after the last such call its value stands. */
  lemma LastWriteWins(q: Query, before: seq<Call>, c: Call, after: seq<Call>)
    requires c.CallInto? || c.CallLimit?
    requires forall i :: 0 <= i < |after| ==> FieldOf(after[i]) != FieldOf(c)
    ensures Get(Run(q, before + [c] + after), FieldOf(c)) == Some(c.values)
  {
    RunAppend(q, before + [c], after);
    RunAppend(q, before, [c]);
    RunKeepsUntouchedFields(Run(q, before + [c]), after, FieldOf(c));
  }
}
