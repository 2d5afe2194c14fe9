/**
  The values both fakes store and return: documents, view rows, query
  parameters and the keys that view registrations are filed under.
 */
module CouchValues {
  import opened Wrappers

  /** A JSON-like Python value, as stored in documents and view rows. */
  datatype Value =
    | Null
    | Bool(b: bool)
    | Int(i: int)
    | Str(s: string)
    | List(items: seq<Value>)
    | Object(fields: map<string, Value>)

  /** A document is a dictionary from field name to value. */
  type Doc = map<string, Value>

  /** The rows a view returns. */
  type Rows = seq<Value>

  /** One keyword argument of a view query: its name and its value. */
  type Param = (string, Value)

  /** No name occurs twice (the parameters come from a Python dictionary). */
  predicate DistinctNames(ps: seq<Param>) {
    forall i, j :: 0 <= i < j < |ps| ==> ps[i].0 != ps[j].0
  }

  /**
    The keyword arguments of a query, or the parameter dictionary of a view
    registration, in their insertion order.
   */
  type Params = ps: seq<Param> | DistinctNames(ps)

  /** The dictionary the parameters stand for: `dict(pairs)`, a later pair overwriting. */
  function AsDict(ps: seq<Param>): map<string, Value> {
    if ps == [] then map[]
    else
      var n := |ps|;
      AsDict(ps[..n - 1])[ps[n - 1].0 := ps[n - 1].1]
  }

  /** With distinct names, a pair is among the parameters exactly when the dictionary maps its name to its value. */
  lemma {:induction false} AsDictHasPair(ps: seq<Param>, x: Param)
    requires DistinctNames(ps)
    ensures x in ps <==> x.0 in AsDict(ps) && AsDict(ps)[x.0] == x.1
  {
    if ps != [] {
      var n := |ps|;
      var prefix := ps[..n - 1];
      assert ps == prefix + [ps[n - 1]];
      assert DistinctNames(prefix);
      AsDictHasPair(prefix, x);
      if x in prefix {
        var k :| 0 <= k < n - 1 && prefix[k] == x;
        assert ps[k] == x;
      }
    }
  }

  /** With distinct names, no pair occurs twice. */
  lemma {:induction false} DistinctNamesMultiplicity(ps: seq<Param>, x: Param)
    requires DistinctNames(ps)
    ensures multiset(ps)[x] == if x in ps then 1 else 0
  {
    if ps != [] {
      assert ps == [ps[0]] + ps[1..];
      assert DistinctNames(ps[1..]);
      DistinctNamesMultiplicity(ps[1..], x);
    }
  }

  /**
    Two parameter lists are reorderings of each other exactly when they stand
    for equal dictionaries, which is how Python compares keyword arguments.
   */
  lemma ReorderingIffSameDict(p: Params, q: Params)
    ensures multiset(p) == multiset(q) <==> AsDict(p) == AsDict(q)
  {
    if multiset(p) == multiset(q) {
      forall name | name in AsDict(p) ensures name in AsDict(q) && AsDict(q)[name] == AsDict(p)[name] {
        var x := (name, AsDict(p)[name]);
        AsDictHasPair(p, x);
        assert x in multiset(q);
        AsDictHasPair(q, x);
      }
      forall name | name in AsDict(q) ensures name in AsDict(p) {
        var x := (name, AsDict(q)[name]);
        AsDictHasPair(q, x);
        assert x in multiset(p);
        AsDictHasPair(p, x);
      }
    }
    if AsDict(p) == AsDict(q) {
      forall x ensures multiset(p)[x] == multiset(q)[x] {
        AsDictHasPair(p, x);
        AsDictHasPair(q, x);
        DistinctNamesMultiplicity(p, x);
        DistinctNamesMultiplicity(q, x);
      }
    }
  }

  /** A view registration: the parameters it answers and the rows it returns. */
  type Entry = (Params, Rows)

  /**
    The form-encoded query string a registration is filed under. Percent
    escaping is not modelled: the encoding is represented by the sequence of
    pairs it encodes, which makes it injective.
   */
  datatype QueryKey = UrlEncoded(pairs: seq<Param>)

  /** `urlencode` of the pairs, in the order given. */
  function UrlEncode(ps: seq<Param>): QueryKey {
    UrlEncoded(ps)
  }

  /** The exceptions the fakes raise. */
  datatype Error =
    | ResourceNotFound  // couchdbkit's exception for a missing document
    | KeyError          // a missing dictionary key
    | AttributeError    // a table that was never created

  /** The result object of a view query. */
  datatype MockResult = MockResult(rows: Rows) {
    /** The `total_rows` property: as many as iteration yields. */
    function TotalRows(): (n: nat)
      ensures n == |Iterate()|
    {
      |rows|
    }

    /** The rows in the order iteration yields them: exactly the registered rows. */
    function Iterate(): (r: Rows)
      ensures |r| == |rows| && forall i :: 0 <= i < |r| ==> r[i] == rows[i]
    {
      rows
    }
  }

  /** No later entry than the i-th is filed under the same key. */
  predicate LastWithKey(entries: seq<Entry>, keyOf: Params -> QueryKey, i: int)
    requires 0 <= i < |entries|
  {
    forall j :: i < j < |entries| ==> keyOf(entries[j].0) != keyOf(entries[i].0)
  }

  /**
    The dictionary `dict([(keyOf(params), rows) for params, rows in entries])`,
    built from left to right so that a later entry overwrites an earlier one
    filed under the same key.
   */
  function EntryMap(entries: seq<Entry>, keyOf: Params -> QueryKey): (m: map<QueryKey, Rows>)
    ensures m.Keys == set i | 0 <= i < |entries| :: keyOf(entries[i].0)
  {
    if entries == [] then map[]
    else
      var n := |entries|;
      var prefix := entries[..n - 1];
      assert forall i :: 0 <= i < n - 1 ==> prefix[i] == entries[i];
      assert (set i | 0 <= i < n :: keyOf(entries[i].0))
        == (set i | 0 <= i < n - 1 :: keyOf(prefix[i].0)) + {keyOf(entries[n - 1].0)};
      EntryMap(prefix, keyOf)[keyOf(entries[n - 1].0) := entries[n - 1].1]
  }

  /** Among entries filed under the same key, the last one wins. */
  lemma {:induction false} EntryMapLastWins(entries: seq<Entry>, keyOf: Params -> QueryKey, i: int)
    requires 0 <= i < |entries| && LastWithKey(entries, keyOf, i)
    ensures keyOf(entries[i].0) in EntryMap(entries, keyOf)
    ensures EntryMap(entries, keyOf)[keyOf(entries[i].0)] == entries[i].1
  {
    var n := |entries|;
    if i < n - 1 {
      var prefix := entries[..n - 1];
      assert forall j :: 0 <= j < n - 1 ==> prefix[j] == entries[j];
      assert LastWithKey(prefix, keyOf, i);
      assert keyOf(entries[n - 1].0) != keyOf(entries[i].0);
      EntryMapLastWins(prefix, keyOf, i);
    }
  }

  /** Python truthiness of a stored document: a dictionary is true when its length is not zero. */
  predicate Truthy(doc: Doc)
    ensures Truthy(doc) <==> |doc| != 0
  {
    doc != map[]
  }
}
