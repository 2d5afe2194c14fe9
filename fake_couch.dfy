/**
  `FakeCouchDb`: an in-memory stand-in for a CouchDB database handle. It
  replays view results registered in advance, filed under a canonical key of
  the query parameters, and keeps documents in a dictionary keyed by `_id`.
 */
module FakeCouch {
  import opened Wrappers
  import opened CouchValues
  import opened ParamOrder

  /**
    `_param_key`: the parameters sorted by name, then form-encoded. The key
    holds exactly the given pairs, in increasing order of name.
   */
  function ParamKey(params: Params): (k: QueryKey)
    ensures SortedByName(k.pairs)
    ensures multiset(k.pairs) == multiset(params)
  {
    SortByNameSorted(params);
    UrlEncode(SortByName(params))
  }

  /** Reordering the parameters does not change their key. */
  lemma ParamKeyIgnoresOrder(p: Params, q: Params)
    requires multiset(p) == multiset(q)
    ensures ParamKey(p) == ParamKey(q)
  {
    SortedUnique(ParamKey(p).pairs, ParamKey(q).pairs);
  }

  /**
    Two parameter lists get the same key exactly when one is a reordering of
    the other, that is, when they are equal as dictionaries.
   */
  lemma ParamKeyMatchesReorderings(p: Params, q: Params)
    ensures ParamKey(p) == ParamKey(q) <==> multiset(p) == multiset(q)
    ensures ParamKey(p) == ParamKey(q) <==> AsDict(p) == AsDict(q)
  {
    if multiset(p) == multiset(q) {
      ParamKeyIgnoresOrder(p, q);
    }
    ReorderingIffSameDict(p, q);
  }

  /** The entry dictionary that `add_view` and the constructor file under a view name. */
  function Registered(viewResults: seq<Entry>): map<QueryKey, Rows> {
    EntryMap(viewResults, ParamKey)
  }

  class FakeCouchDb {
    /** View name to (canonical parameter key to rows). */
    var viewMock: map<string, map<QueryKey, Rows>>
    /** Document id to document. */
    var mockDocs: map<Value, Doc>

    /**
      `FakeCouchDb(views=None, docs=None)`: absent or empty arguments give
      empty tables.
     */
    constructor (views: Option<map<string, seq<Entry>>>, docs: Option<map<Value, Doc>>)
      ensures viewMock.Keys == views.GetOr(map[]).Keys
      ensures forall name :: name in viewMock ==> viewMock[name] == Registered(views.value[name])
      ensures mockDocs == docs.GetOr(map[])
    {
      var vs := views.GetOr(map[]);
      if vs != map[] {
        viewMock := map name | name in vs :: Registered(vs[name]);
      } else {
        viewMock := map[];
      }
      mockDocs := docs.GetOr(map[]);  // `docs or {}`
    }

    /** `add_view`: replaces the whole entry dictionary of one view and nothing else. */
    method AddView(name: string, viewResults: seq<Entry>)
      modifies this
      ensures viewMock == old(viewMock)[name := Registered(viewResults)]
      ensures mockDocs == old(mockDocs)
    {
      viewMock := viewMock[name := Registered(viewResults)];
    }

    /**
      `view`: the rows filed under the canonical key of the parameters, or no
      rows when the view or the key is unknown; it never raises.
     */
    function View(viewName: string, params: Params): (r: MockResult)
      reads this
      ensures viewName in viewMock && ParamKey(params) in viewMock[viewName] ==>
                r.rows == viewMock[viewName][ParamKey(params)]
      ensures viewName !in viewMock || ParamKey(params) !in viewMock[viewName] ==>
                r.TotalRows() == 0
    {
      var view := if viewName in viewMock then viewMock[viewName] else map[];
      var key := ParamKey(params);
      MockResult(if key in view then view[key] else [])
    }

    /**
      `save_doc`: files the document under its `_id`, overwriting whatever was
      there; a document without `_id` raises `KeyError` and changes nothing.
     */
    method SaveDoc(doc: Doc) returns (raised: Option<Error>)
      modifies this
      ensures "_id" !in doc ==> raised == Some(KeyError) && mockDocs == old(mockDocs)
      ensures "_id" in doc ==> raised == None && mockDocs == old(mockDocs)[doc["_id"] := doc]
      ensures viewMock == old(viewMock)
      ensures "_id" in doc ==> Get(doc["_id"], None) == Success(Object(doc))
      ensures "_id" in doc ==> forall id :: id != doc["_id"] ==> OpenDoc(id) == old(OpenDoc(id))
    {
      if "_id" !in doc {
        raised := Some(KeyError);
        return;
      }
      mockDocs := mockDocs[doc["_id"] := doc];
      raised := None;
    }

    /**
      `get`: the stored document, passed through the wrapper when one is
      given; `ResourceNotFound` when the id is absent or its document empty.
     */
    function Get(docId: Value, wrapper: Option<Doc -> Value>): (r: Result<Value, Error>)
      reads this
      ensures r.Failure? <==> docId !in mockDocs || !Truthy(mockDocs[docId])
      ensures r.Failure? ==> r.error == ResourceNotFound
      ensures r.Success? && wrapper.None? ==> r.value == Object(mockDocs[docId])
      ensures r.Success? && wrapper.Some? ==> r.value == wrapper.value(mockDocs[docId])
    {
      var doc := if docId in mockDocs then Some(mockDocs[docId]) else None;
      if doc.None? || !Truthy(doc.value) then Failure(ResourceNotFound)
      else if wrapper.Some? then Success(wrapper.value(doc.value))
      else Success(Object(doc.value))
    }

    /** `open_doc`: the stored document, or `None` when the id is absent. */
    function OpenDoc(docId: Value): (r: Option<Doc>)
      reads this
      ensures r.Some? <==> docId in mockDocs
      ensures r.Some? ==> r.value == mockDocs[docId]
    {
      if docId in mockDocs then Some(mockDocs[docId]) else None
    }
  }

  /** A query matches the same registration whatever order its parameters are given in. */
  lemma ViewIgnoresParamOrder(db: FakeCouchDb, viewName: string, p: Params, q: Params)
    requires multiset(p) == multiset(q)
    ensures db.View(viewName, p) == db.View(viewName, q)
  {
    ParamKeyMatchesReorderings(p, q);
  }

  /**
    After a view is registered with `entries`, a query whose parameters reorder
    those of entry `i`, and of no later entry, returns entry `i`'s rows.
   */
  lemma ViewReturnsRegisteredRows(db: FakeCouchDb, viewName: string, entries: seq<Entry>, q: Params, i: int)
    requires viewName in db.viewMock && db.viewMock[viewName] == Registered(entries)
    requires 0 <= i < |entries| && multiset(entries[i].0) == multiset(q)
    requires forall j :: i < j < |entries| ==> multiset(entries[j].0) != multiset(q)
    ensures db.View(viewName, q).rows == entries[i].1
    ensures db.View(viewName, q).TotalRows() == |entries[i].1|
  {
    ParamKeyMatchesReorderings(entries[i].0, q);
    forall j | i < j < |entries| ensures ParamKey(entries[j].0) != ParamKey(entries[i].0) {
      ParamKeyMatchesReorderings(entries[j].0, q);
    }
    EntryMapLastWins(entries, ParamKey, i);
  }

  /** A query that reorders no registered entry gets an empty result. */
  lemma ViewEmptyWithoutMatch(db: FakeCouchDb, viewName: string, entries: seq<Entry>, q: Params)
    requires viewName in db.viewMock && db.viewMock[viewName] == Registered(entries)
    requires forall j :: 0 <= j < |entries| ==> multiset(entries[j].0) != multiset(q)
    ensures db.View(viewName, q).TotalRows() == 0
  {
    forall j | 0 <= j < |entries| ensures ParamKey(entries[j].0) != ParamKey(q) {
      ParamKeyMatchesReorderings(entries[j].0, q);
    }
  }

  /** `get` without a wrapper succeeds exactly when `open_doc` finds a non-empty document. */
  lemma GetAgreesWithOpenDoc(db: FakeCouchDb, docId: Value)
    ensures db.Get(docId, None) ==
      match db.OpenDoc(docId)
      case Some(doc) => if Truthy(doc) then Success(Object(doc)) else Failure(ResourceNotFound)
      case None => Failure(ResourceNotFound)
  {
  }
}
