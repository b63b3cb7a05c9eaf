/**
 * The Radar query builder: an object that owns a query descriptor and whose
 * chainable methods (select, from, where, schema, insert, into, limit) each
 * update one field of that descriptor in place, plus the options object that
 * `exec` hands to the driver and the synchronous checks `Radar.txn` performs
 * before it talks to the driver.
 */
module Builder {
  import opened Values
  import opened Lodash

  /** The errors the builder raises before any driver call. */
  datatype Error =
    | MissingDriver               // "Missing a driver for Radar to use."
    | MissingTxnOptions           // "Missing Options for Radar Transaction."
    | MissingTxnConnectionString  // "Missing Connection String for Radar Transaction."
    | MissingTxnDriver            // "Missing Driver for Radar Transaction."

  /** The options object given to the constructor and to `Radar.txn`. */
  datatype Options = Options(driver: Option<Value>, connectionString: Option<Value>, connection: Option<Value>)

  /** The query descriptor; a missing field is one no builder method has set yet. */
  datatype Query = Query(
    select: Option<Value>,
    from: Option<Value>,
    where: Option<map<string, Value>>,
    insert: Option<map<string, Value>>,
    into: Option<Value>,
    limit: Option<Value>)

  /** The descriptor a new builder starts with: `{}`. */
  const EMPTY_QUERY := Query(None, None, None, None, None, None)

  /** The options object `exec` passes to the driver's `executeQuery`. */
  datatype DriverRequest = DriverRequest(query: Query, connectionString: Option<Value>, connection: Option<Value>)

  /** The column list a later `select` works on: an array as it is, any other value wrapped in a one-element array. */
  function Columns(values: Value): (cols: seq<Value>)
    ensures values.Arr? ==> cols == values.items
    ensures !values.Arr? ==> cols == [values]
  {
    if values.Arr? then values.items else [values]
  }

  /**
   * The three synchronous checks `Radar.txn` makes, in the order it makes
   * them; on `Success` the driver is asked for a connection.
   */
  function CheckTxnOptions(options: Option<Options>): (r: Result<(), Error>)
    ensures r.Success? <==> options.Some? && Present(options.value.connectionString) && Present(options.value.driver)
    ensures options.None? ==> r == Failure(MissingTxnOptions)
    ensures options.Some? && !Present(options.value.connectionString) ==> r == Failure(MissingTxnConnectionString)
    ensures options.Some? && Present(options.value.connectionString) && !Present(options.value.driver) ==>
      r == Failure(MissingTxnDriver)
  {
    if options.None? then Failure(MissingTxnOptions)
    else if !Present(options.value.connectionString) then Failure(MissingTxnConnectionString)
    else if !Present(options.value.driver) then Failure(MissingTxnDriver)
    else Success(())
  }

  // ---------------------------------------------------------------------------
  // What each builder method does to the descriptor
  // ---------------------------------------------------------------------------

  function SelectStep(q: Query, values: Value): Query {
    if q.select.None? then q.(select := Some(values))
    else if values == Str("*") then q.(select := Some(Str("*")))
    else q.(select := Some(Arr(Uniq(Columns(values)))))
  }

  function FromStep(q: Query, values: Value): Query {
    if !HasWithoutPath(q.from) then q.(from := Some(values))
    else q.(from := Some(Obj(q.from.value.fields["table" := values])))
  }

  function WhereStep(q: Query, values: map<string, Value>): Query {
    q.(where := Some(Merge(q.where.GetOr(map[]), values)))
  }

  function SchemaStep(q: Query, schema: Value): Query {
    q.(from := Some(Obj(
      if q.from.Some? && q.from.value.Str? then map["table" := q.from.value, "schema" := schema]
      else if q.from.Some? && q.from.value.Obj? then map["schema" := schema]
      else map[])))
  }

  function InsertStep(q: Query, values: map<string, Value>): Query {
    q.(insert := Some(Merge(q.insert.GetOr(map[]), values)))
  }

  function IntoStep(q: Query, value: Value): Query {
    q.(into := Some(value))
  }

  function LimitStep(q: Query, value: Value): Query {
    q.(limit := Some(value))
  }

  /** One call of a builder method, with its argument. */
  datatype Call =
    | CallSelect(values: Value)
    | CallFrom(values: Value)
    | CallWhere(criteria: map<string, Value>)
    | CallSchema(values: Value)
    | CallInsert(criteria: map<string, Value>)
    | CallInto(values: Value)
    | CallLimit(values: Value)

  /** The fields of the descriptor. */
  datatype Field = SelectField | FromField | WhereField | InsertField | IntoField | LimitField

  /** The one field a call may change; `schema` rewrites `from`. */
  function FieldOf(c: Call): Field {
    match c
    case CallSelect(_) => SelectField
    case CallFrom(_) => FromField
    case CallWhere(_) => WhereField
    case CallSchema(_) => FromField
    case CallInsert(_) => InsertField
    case CallInto(_) => IntoField
    case CallLimit(_) => LimitField
  }

  /** The value of a field, with the two mappings seen as objects. */
  function Get(q: Query, f: Field): Option<Value> {
    match f
    case SelectField => q.select
    case FromField => q.from
    case WhereField => if q.where.Some? then Some(Obj(q.where.value)) else None
    case InsertField => if q.insert.Some? then Some(Obj(q.insert.value)) else None
    case IntoField => q.into
    case LimitField => q.limit
  }

  function Step(q: Query, c: Call): Query {
    match c
    case CallSelect(v) => SelectStep(q, v)
    case CallFrom(v) => FromStep(q, v)
    case CallWhere(m) => WhereStep(q, m)
    case CallSchema(v) => SchemaStep(q, v)
    case CallInsert(m) => InsertStep(q, m)
    case CallInto(v) => IntoStep(q, v)
    case CallLimit(v) => LimitStep(q, v)
  }

  /** A chain of builder calls, applied left to right. */
  function Run(q: Query, calls: seq<Call>): Query
    decreases |calls|
  {
    if calls == [] then q else Run(Step(q, calls[0]), calls[1..])
  }

  class Radar {
    var driver: Value
    var connectionString: Option<Value>
    var connection: Option<Value>
    var query: Query

    /** A builder over an already validated driver; `New` is the source's constructor. */
    constructor (driver: Value, connectionString: Option<Value>, connection: Option<Value>)
      requires Truthy(driver)
      requires connectionString.None? || Truthy(connectionString.value)
      requires connection.None? || Truthy(connection.value)
      ensures this.driver == driver && this.connectionString == connectionString
      ensures this.connection == connection && query == EMPTY_QUERY
    {
      this.driver := driver;
      this.connectionString := connectionString;
      this.connection := connection;
      query := EMPTY_QUERY;
    }

    /**
     * `new Radar(options)`: fails without a (truthy) driver; otherwise the
     * query starts empty and the connection string and the connection are
     * kept only when they are truthy.
     */
    static method New(options: Options) returns (r: Result<Radar, Error>)
      ensures r.Failure? <==> !Present(options.driver)
      ensures r.Failure? ==> r.error == MissingDriver
      ensures r.Success? ==>
        && fresh(r.value)
        && r.value.driver == options.driver.value
        && r.value.connectionString == (if Present(options.connectionString) then options.connectionString else None)
        && r.value.connection == (if Present(options.connection) then options.connection else None)
        && r.value.query == EMPTY_QUERY
    {
      if !Present(options.driver) {
        return Failure(MissingDriver);
      }
      var connectionString: Option<Value> := None;
      if Present(options.connectionString) {
        connectionString := options.connectionString;
      }
      var connection: Option<Value> := None;
      if Present(options.connection) {
        connection := options.connection;
      }
      var radar := new Radar(options.driver.value, connectionString, connection);
      return Success(radar);
    }

    /**
     * `select(values)`. The first call stores `values` as it is. Once a
     * selection exists, `'*'` replaces it; any other argument is wrapped into
     * an array and de-duplicated. The earlier selection is not kept: the
     * source concatenates with `this.values`, a property that is never set.
     */
    method Select(values: Value) returns (self: Radar)
      modifies this`query
      ensures self == this
      ensures query == SelectStep(old(query), values)
      ensures old(query.select).None? ==> query == old(query).(select := Some(values))
      ensures old(query.select).Some? && values == Str("*") ==> query == old(query).(select := Some(Str("*")))
      ensures old(query.select).Some? && values != Str("*") ==>
        query == old(query).(select := Some(Arr(Uniq(Columns(values)))))
    {
      if query.select.None? {
        query := query.(select := Some(values));
        return this;
      }
      if values == Str("*") {
        query := query.(select := Some(Str("*")));
        return this;
      }
      var cols := Columns(values);
      var previous: seq<Value> := [];  // `this.values || []`: `this.values` is always missing
      query := query.(select := Some(Arr(Uniq(previous + cols))));
      assert previous + cols == cols;
      return this;
    }

    /**
     * `from(values)`. The guard `_.has(this.query.from)` lacks its path and
     * only holds for an object with an own key "undefined"; in every other
     * case `from` is overwritten with `values`. When the guard does hold,
     * the `from` object's "table" is set to `values`.
     */
    method From(values: Value) returns (self: Radar)
      modifies this`query
      ensures self == this
      ensures query == FromStep(old(query), values)
      ensures !HasWithoutPath(old(query.from)) ==> query == old(query).(from := Some(values))
      ensures HasWithoutPath(old(query.from)) ==>
        query == old(query).(from := Some(Obj(old(query.from).value.fields["table" := values])))
    {
      if !HasWithoutPath(query.from) {
        query := query.(from := Some(values));
        return this;
      }
      // The guard only holds for objects, so the string case of the source
      // (replace `from` by `values`) cannot apply here.
      var current := query.from.value;
      query := query.(from := Some(Obj(current.fields["table" := values])));
      return this;
    }

    /** `where(values)`: deep-merges `values` into the current criteria, or into `{}` when there are none. */
    method Where(values: map<string, Value>) returns (self: Radar)
      modifies this`query
      ensures self == this
      ensures query == WhereStep(old(query), values)
      ensures query == old(query).(where := Some(Merge(old(query).where.GetOr(map[]), values)))
    {
      var criteria := query.where.GetOr(map[]);
      var data := Merge(criteria, values);
      query := query.(where := Some(data));
      return this;
    }

    /**
     * `schema(schema)`: a string `from` becomes `{table, schema}`; an object
     * `from` becomes `{schema}` (its table is dropped); anything else,
     * a missing `from` included, becomes `{}`.
     */
    method Schema(schema: Value) returns (self: Radar)
      modifies this`query
      ensures self == this
      ensures query == SchemaStep(old(query), schema)
      ensures query == old(query).(from := query.from)
      ensures old(query.from).Some? && old(query.from).value.Str? ==>
        query.from == Some(Obj(map["table" := old(query.from).value, "schema" := schema]))
      ensures old(query.from).Some? && old(query.from).value.Obj? ==>
        query.from == Some(Obj(map["schema" := schema]))
      ensures old(query.from).None? || !(old(query.from).value.Str? || old(query.from).value.Obj?) ==>
        query.from == Some(Obj(map[]))
    {
      var from: map<string, Value> := map[];
      if query.from.Some? && query.from.value.Str? {
        from := map["table" := query.from.value, "schema" := schema];
      } else if query.from.Some? && query.from.value.Obj? {
        from := from["schema" := schema];
      }
      query := query.(from := Some(Obj(from)));
      return this;
    }

    /** `insert(values)`: deep-merges `values` into the current insert data, or into `{}` when there is none. */
    method Insert(values: map<string, Value>) returns (self: Radar)
      modifies this`query
      ensures self == this
      ensures query == InsertStep(old(query), values)
      ensures query == old(query).(insert := Some(Merge(old(query).insert.GetOr(map[]), values)))
    {
      var inserted := query.insert.GetOr(map[]);
      var data := Merge(inserted, values);
      query := query.(insert := Some(data));
      return this;
    }

    /** `into(value)`: the last call wins. */
    method Into(value: Value) returns (self: Radar)
      modifies this`query
      ensures self == this
      ensures query == IntoStep(old(query), value)
      ensures query == old(query).(into := Some(value))
    {
      query := query.(into := Some(value));
      return this;
    }

    /** `limit(value)`: the last call wins. */
    method Limit(value: Value) returns (self: Radar)
      modifies this`query
      ensures self == this
      ensures query == LimitStep(old(query), value)
      ensures query == old(query).(limit := Some(value))
    {
      query := query.(limit := Some(value));
      return this;
    }

    /**
     * The options `exec` passes to the driver: the query, and the connection
     * string when one is set, otherwise the connection when one is set;
     * never both.
     */
    method Exec() returns (request: DriverRequest)
      ensures request.query == query
      ensures Present(connectionString) ==> request.connectionString == connectionString && request.connection.None?
      ensures !Present(connectionString) && Present(connection) ==>
        request.connection == connection && request.connectionString.None?
      ensures !Present(connectionString) && !Present(connection) ==>
        request.connectionString.None? && request.connection.None?
    {
      request := DriverRequest(query, None, None);
      if Present(connectionString) {
        request := request.(connectionString := connectionString);
      } else if Present(connection) {
        request := request.(connection := connection);
      }
    }
  }
}
