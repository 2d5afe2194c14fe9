/**
  `MockCouchDb`: the older variant of the fake. Its view key is the
  form-encoding of the parameters in the order given, a miss raises
  `KeyError`, and each table exists only when the constructor's data has it.
 */
module MockCouch {
  import opened Wrappers
  import opened CouchValues

  /**
    The constructor's `mock_data` dictionary: `None` stands for a missing
    `'views'` or `'docs'` key.
   */
  datatype MockData = MockData(views: Option<map<string, seq<Entry>>>, docs: Option<map<Value, Doc>>)

  /** `urlencode(params)`: the parameters form-encoded in the order given, unsorted. */
  function InsertionOrderKey(params: Params): (k: QueryKey)
    ensures k.pairs == params
  {
    UrlEncode(params)
  }

  /** Two parameter lists share a key only when they list the same pairs in the same order. */
  lemma InsertionOrderKeyMatchesOnlySameOrder(p: Params, q: Params)
    ensures InsertionOrderKey(p) == InsertionOrderKey(q) <==> p == q
  {
  }

  /** The entry dictionary the constructor files under a view name. */
  function Registered(viewResults: seq<Entry>): map<QueryKey, Rows> {
    EntryMap(viewResults, InsertionOrderKey)
  }

  class MockCouchDb {
    /** View name to (parameter key to rows); `None` when the attribute was never set. */
    var viewMock: Option<map<string, map<QueryKey, Rows>>>
    /** Document id to document; `None` when the attribute was never set. */
    var mockDocs: Option<map<Value, Doc>>

    /** `MockCouchDb(mock_data)`: a table is created only if its key is present. */
    constructor (mockData: MockData)
      ensures viewMock.Some? <==> mockData.views.Some?
      ensures viewMock.Some? ==> viewMock.value.Keys == mockData.views.value.Keys
      ensures viewMock.Some? ==> forall name :: name in viewMock.value ==>
                viewMock.value[name] == Registered(mockData.views.value[name])
      ensures mockDocs == mockData.docs
    {
      if mockData.views.Some? {
        var vs := mockData.views.value;
        viewMock := Some(map name | name in vs :: Registered(vs[name]));
      } else {
        viewMock := None;
      }
      mockDocs := mockData.docs;
    }

    /**
      `view`: `view_mock[view_name][urlencode(params)]`, which raises
      `AttributeError` without a view table and `KeyError` for an unknown name
      or key.
     */
    function View(viewName: string, params: Params): (r: Result<MockResult, Error>)
      reads this
      ensures viewMock.None? ==> r == Failure(AttributeError)
      ensures r.Success? <==>
                viewMock.Some? && viewName in viewMock.value && InsertionOrderKey(params) in viewMock.value[viewName]
      ensures r.Success? ==> r.value.rows == viewMock.value[viewName][InsertionOrderKey(params)]
      ensures r.Failure? && viewMock.Some? ==> r.error == KeyError
    {
      if viewMock.None? then Failure(AttributeError)
      else if viewName !in viewMock.value then Failure(KeyError)
      else
        var view := viewMock.value[viewName];
        var key := InsertionOrderKey(params);
        if key !in view then Failure(KeyError) else Success(MockResult(view[key]))
    }

    /**
      `save_doc`: files the document under its `_id`, overwriting whatever was
      there. Without a document table it raises `AttributeError`; a document
      without `_id` raises `KeyError`. Either error changes nothing.
     */
    method SaveDoc(doc: Doc) returns (raised: Option<Error>)
      modifies this
      ensures mockDocs.None? ==> raised == Some(AttributeError) && mockDocs == old(mockDocs)
      ensures mockDocs.Some? <==> old(mockDocs).Some?
      ensures old(mockDocs).Some? && "_id" !in doc ==> raised == Some(KeyError) && mockDocs == old(mockDocs)
      ensures old(mockDocs).Some? && "_id" in doc ==>
                raised == None && mockDocs == Some(old(mockDocs).value[doc["_id"] := doc])
      ensures viewMock == old(viewMock)
      ensures raised == None ==> Get(doc["_id"], None) == Success(Object(doc))
    {
      if mockDocs.None? {
        raised := Some(AttributeError);
        return;
      }
      if "_id" !in doc {
        raised := Some(KeyError);
        return;
      }
      mockDocs := Some(mockDocs.value[doc["_id"] := doc]);
      raised := None;
    }

    /**
      `get`: the stored document, passed through the wrapper when one is given;
      `ResourceNotFound` when the id is absent or its document empty, and
      `AttributeError` without a document table.
     */
    function Get(docId: Value, wrapper: Option<Doc -> Value>): (r: Result<Value, Error>)
      reads this
      ensures mockDocs.None? ==> r == Failure(AttributeError)
      ensures mockDocs.Some? ==>
                (r.Failure? <==> docId !in mockDocs.value || !Truthy(mockDocs.value[docId]))
      ensures mockDocs.Some? && r.Failure? ==> r.error == ResourceNotFound
      ensures r.Success? && wrapper.None? ==> r.value == Object(mockDocs.value[docId])
      ensures r.Success? && wrapper.Some? ==> r.value == wrapper.value(mockDocs.value[docId])
    {
      if mockDocs.None? then Failure(AttributeError)
      else
        var doc := if docId in mockDocs.value then Some(mockDocs.value[docId]) else None;
        if doc.None? || !Truthy(doc.value) then Failure(ResourceNotFound)
        else if wrapper.Some? then Success(wrapper.value(doc.value))
        else Success(Object(doc.value))
    }

    /**
      `open_doc`: the stored document, or `None` when the id is absent;
      `AttributeError` without a document table.
     */
    function OpenDoc(docId: Value): (r: Result<Option<Doc>, Error>)
      reads this
      ensures r.Failure? <==> mockDocs.None?
      ensures r.Failure? ==> r.error == AttributeError
      ensures r.Success? ==> (r.value.Some? <==> docId in mockDocs.value)
      ensures r.Success? && r.value.Some? ==> r.value.value == mockDocs.value[docId]
    {
      if mockDocs.None? then Failure(AttributeError)
      else Success(if docId in mockDocs.value then Some(mockDocs.value[docId]) else None)
    }
  }

  /**
    A query answers with entry `i`'s rows when its parameters are entry `i`'s
    in the same order, and no later entry has exactly those.
   */
  lemma ViewReturnsExactRegistration(db: MockCouchDb, viewName: string, entries: seq<Entry>, q: Params, i: int)
    requires db.viewMock.Some? && viewName in db.viewMock.value
    requires db.viewMock.value[viewName] == Registered(entries)
    requires 0 <= i < |entries| && entries[i].0 == q
    requires forall j :: i < j < |entries| ==> entries[j].0 != q
    ensures db.View(viewName, q) == Success(MockResult(entries[i].1))
  {
    EntryMapLastWins(entries, InsertionOrderKey, i);
  }

  /**
    A query whose ordered parameters equal no registered entry's raises
    `KeyError`, even when it reorders one of them.
   */
  lemma ViewRaisesWithoutExactMatch(db: MockCouchDb, viewName: string, entries: seq<Entry>, q: Params)
    requires db.viewMock.Some? && viewName in db.viewMock.value
    requires db.viewMock.value[viewName] == Registered(entries)
    requires forall j :: 0 <= j < |entries| ==> entries[j].0 != q
    ensures db.View(viewName, q) == Failure(KeyError)
  {
  }
}
