/**
  Client-side uses of the two fakes, following the repository's tests, and the
  contrast between their view keys.
 */
module Scenarios {
  import opened Wrappers
  import opened CouchValues
  import FakeCouch
  import MockCouch

  /**
    `reduce=flag, group=flag, startkey=[], endkey=[{}]` in registration order
    (the tests pass `True` for both flags).
   */
  function RegisteredParams(flag: bool): Params {
    [("reduce", Bool(flag)), ("group", Bool(flag)), ("startkey", List([])), ("endkey", List([Object(map[])]))]
  }

  /** The same parameters in the order the query passes them. */
  function QueriedParams(flag: bool): Params {
    [("startkey", List([])), ("endkey", List([Object(map[])])), ("group", Bool(flag)), ("reduce", Bool(flag))]
  }

  function TwoRows(): Rows {
    [Object(map["r" := Str("result1")]), Object(map["r" := Str("result2")])]
  }

  /** The queried parameters reorder the registered ones. */
  lemma SameParamsInQueryOrder(flag: bool)
    ensures multiset(RegisteredParams(flag)) == multiset(QueriedParams(flag))
  {
    var p, q := RegisteredParams(flag), QueriedParams(flag);
    assert p == [p[0]] + [p[1]] + [p[2]] + [p[3]];
    assert q == [p[2]] + [p[3]] + [p[1]] + [p[0]];
  }

  /**
    The sorted key of `FakeCouchDb` is the same for both orders; the ordered key
    of `MockCouchDb` is not.
   */
  lemma ReorderingSeparatesTheVariants(flag: bool)
    ensures FakeCouch.ParamKey(RegisteredParams(flag)) == FakeCouch.ParamKey(QueriedParams(flag))
    ensures MockCouch.InsertionOrderKey(RegisteredParams(flag)) != MockCouch.InsertionOrderKey(QueriedParams(flag))
  {
    var p, q := RegisteredParams(flag), QueriedParams(flag);
    SameParamsInQueryOrder(flag);
    FakeCouch.ParamKeyMatchesReorderings(p, q);
    assert MockCouch.InsertionOrderKey(p).pairs[0] != MockCouch.InsertionOrderKey(q).pairs[0];
  }

  function MyViewEntries(flag: bool): seq<Entry> {
    [(RegisteredParams(flag), TwoRows())]
  }

  /**
    A view registered in one parameter order answers a query in another order
    with its two rows; an unknown view answers with none.
   */
  method FakeViewScenario(flag: bool) returns (matched: MockResult, unknown: MockResult)
    ensures matched.TotalRows() == 2 && matched.Iterate() == TwoRows()
    ensures unknown.TotalRows() == 0
  {
    var db := new FakeCouch.FakeCouchDb(Some(map["my/view" := MyViewEntries(flag)]), None);
    var q := QueriedParams(flag);
    SameParamsInQueryOrder(flag);
    FakeCouch.ViewReturnsRegisteredRows(db, "my/view", MyViewEntries(flag), q, 0);
    matched := db.View("my/view", q);
    unknown := db.View("other/view", q);
  }

  /**
    `get` of a stored document returns it, and with a wrapper returns the
    wrapper's value; a missing id raises `ResourceNotFound`.
   */
  method FakeDocGetScenario() returns (plain: Result<Value, Error>, wrapped: Result<Value, Error>, missing: Result<Value, Error>)
    ensures plain == Success(Object(map["d" := Int(1)]))
    ensures wrapped == Success(Int(2))
    ensures missing == Failure(ResourceNotFound)
  {
    var docs := map[Str("123") := map["d" := Int(1)], Str("124") := map["d" := Int(2)]];
    var db := new FakeCouch.FakeCouchDb(None, Some(docs));
    assert db.mockDocs[Str("123")] == map["d" := Int(1)];
    assert "d" in db.mockDocs[Str("123")];
    plain := db.Get(Str("123"), None);
    wrapped := db.Get(Str("124"), Some((d: Doc) => if "d" in d then d["d"] else Null));
    missing := db.Get(Str("125"), None);
  }

  /** A document saved under an id is what `get` then returns; an empty one is not found. */
  method FakeSaveScenario() returns (saved: Result<Value, Error>, empty: Result<Value, Error>, reopened: Option<Doc>)
    ensures saved == Success(Object(map["_id" := Str("1"), "doc_type" := Str("MockDoc")]))
    ensures empty == Failure(ResourceNotFound)
    ensures reopened == Some(map[])
  {
    var db := new FakeCouch.FakeCouchDb(None, Some(map[Str("2") := map[]]));
    var doc := map["_id" := Str("1"), "doc_type" := Str("MockDoc")];
    var raised := db.SaveDoc(doc);
    saved := db.Get(Str("1"), None);
    empty := db.Get(Str("2"), None);
    reopened := db.OpenDoc(Str("2"));
  }

  /**
    `MockCouchDb` answers only the registration order; the reordered query
    raises `KeyError`, and a fake built without docs cannot save.
   */
  method MockScenario(flag: bool) returns (exact: Result<MockResult, Error>, reordered: Result<MockResult, Error>, raised: Option<Error>)
    ensures exact == Success(MockResult(TwoRows()))
    ensures reordered == Failure(KeyError)
    ensures raised == Some(AttributeError)
  {
    var entries := [(RegisteredParams(flag), TwoRows())];
    var db := new MockCouch.MockCouchDb(MockCouch.MockData(Some(map["my/view" := entries]), None));
    var p, q := RegisteredParams(flag), QueriedParams(flag);
    MockCouch.ViewReturnsExactRegistration(db, "my/view", entries, p, 0);
    assert p[0] != q[0];
    MockCouch.ViewRaisesWithoutExactMatch(db, "my/view", entries, q);
    exact := db.View("my/view", p);
    reordered := db.View("my/view", q);
    raised := db.SaveDoc(map["_id" := Str("1")]);
  }
}
