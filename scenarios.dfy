/**
 * Whole chains on a `Radar` object, from construction to the request `exec`
 * hands to the driver, written as callers would write them.
 */
module Scenarios {
  import opened Values
  import opened Lodash
  import opened Builder

  const DRIVER := Obj(map["name" := Str("stub")])

  /**
   * `select(['id', 'name']).from('users').where({active: true}).limit(10).exec()`
   * on a builder with a connection string: the driver receives exactly that
   * descriptor and the connection string, and no connection.
   */
  method SelectFromWhereLimit() returns (request: DriverRequest)
    ensures request == DriverRequest(
      Query(
        Some(Arr([Str("id"), Str("name")])),
        Some(Str("users")),
        Some(map["active" := Bool(true)]),
        None,
        None,
        Some(Int(10))),
      Some(Str("postgres://localhost/app")),
      None)
  {
    var created := Radar.New(Options(Some(DRIVER), Some(Str("postgres://localhost/app")), Some(Obj(map[]))));
    var radar := created.value;
    var chain := radar.Select(Arr([Str("id"), Str("name")]));
    chain := chain.From(Str("users"));
    chain := chain.Where(map["active" := Bool(true)]);
    MergeIntoEmpty(map["active" := Bool(true)]);
    chain := chain.Limit(Int(10));
    request := chain.Exec();
  }

  /**
   * A second `select` de-duplicates its own columns but does not keep those of
   * the first: `select(['id']).select(['name', 'name'])` selects `['name']`.
   */
  method SecondSelectReplacesColumns() returns (selected: Option<Value>)
    ensures selected == Some(Arr([Str("name")]))
  {
    var created := Radar.New(Options(Some(DRIVER), None, None));
    var radar := created.value;
    var chain := radar.Select(Arr([Str("id")]));
    chain := chain.Select(Arr([Str("name"), Str("name")]));
    UniqSnoc([], Str("name"));
    UniqSnoc([Str("name")], Str("name"));
    assert [] + [Str("name")] == [Str("name")];
    assert [Str("name")] + [Str("name")] == [Str("name"), Str("name")];
    selected := chain.query.select;
  }

  /**
   * `from('users').schema('public').from('orders')`: the second `from`
   * replaces the `{table, schema}` record with the plain table name.
   */
  method FromSchemaFrom() returns (from: Option<Value>)
    ensures from == Some(Str("orders"))
  {
    var created := Radar.New(Options(Some(DRIVER), None, Some(Obj(map["id" := Int(1)]))));
    var radar := created.value;
    var chain := radar.From(Str("users"));
    chain := chain.Schema(Str("public"));
    assert chain.query.from == Some(Obj(map["table" := Str("users"), "schema" := Str("public")]));
    chain := chain.From(Str("orders"));
    from := chain.query.from;
  }

  /** A builder constructed with only a connection sends that connection to the driver. */
  method ExecWithConnection() returns (request: DriverRequest)
    ensures request.connection == Some(Obj(map["id" := Int(1)])) && request.connectionString.None?
    ensures request.query == Query(None, None, None, None, Some(Str("logs")), None)
  {
    var created := Radar.New(Options(Some(DRIVER), Some(Str("")), Some(Obj(map["id" := Int(1)]))));
    var radar := created.value;
    var chain := radar.Into(Str("logs"));
    request := chain.Exec();
  }
}
