# fakecouch, modelled in Dafny

`fakecouch` is an in-memory stand-in for a couchdbkit database handle, used to
test code that queries CouchDB views and reads and writes documents without a
server. It has two variants:

- `FakeCouchDb` (`fakecouch.py`) keeps a table of pre-registered view results
  and a table of documents. A view result is filed under a canonical key of its
  query parameters: the parameters sorted by name, then form-encoded. A query
  therefore finds its registration whatever order its keyword arguments are
  given in, and a query that matches nothing returns an empty result.
- `MockCouchDb` (`dimagitest/mock_couch.py`) is the older variant. Its key is
  the form-encoding of the parameters in the order given, a miss raises
  `KeyError`, and each table exists only when the constructor's `mock_data`
  supplies it.

Both return a `MockResult` whose `total_rows` is the number of rows and whose
iteration yields the rows.

Modules:

- `Wrappers` (`wrappers.dfy`): `Option` and `Result`.
- `CouchValues` (`couch_values.dfy`): values, documents, query parameters
  (`Params`, a list of name/value pairs with distinct names, as a Python
  keyword-argument dictionary is), the form-encoded key `QueryKey`, the
  exceptions, `MockResult`, and `EntryMap`, the `dict([...])` that both
  variants build per view name, with its key-set contract and its "last entry
  wins" lemma.
- `ParamOrder` (`param_order.dfy`): Python's ordering of strings, sorting the
  pairs by name, and uniqueness of a sorted arrangement.
- `FakeCouch` (`fake_couch.dfy`): `_param_key` and the class `FakeCouchDb`.
- `MockCouch` (`mock_couch.dfy`): the class `MockCouchDb`.
- `Scenarios` (`scenarios.dfy`): clients of both classes that follow the
  repository's tests, and the contrast between the two keys.

The two classes keep their tables as fields (`viewMock`, `mockDocs`).
Constructors, `AddView` and `SaveDoc` are methods that update those fields.
`View`, `Get` and `OpenDoc` are functions that read them. The lemmas connect a
registration to what a later query returns.

## Model

| member | source | states |
|---|---|---|
| `CouchValues.MockResult.TotalRows` | fakecouch.py:79-81 | `total_rows` is the number of rows that iteration yields (also dimagitest/mock_couch.py:70-72) |
| `CouchValues.MockResult.Iterate` | fakecouch.py:83-84 | iteration yields exactly the registered rows, in order (also dimagitest/mock_couch.py:74-75) |
| `CouchValues.Truthy` | fakecouch.py:63 | the `if not doc` test: a document is true exactly when its length is not zero |
| `CouchValues.EntryMap` | fakecouch.py:49 | the `dict([...])` of a view's registrations has as keys exactly the keys of its entries (also fakecouch.py:41 and dimagitest/mock_couch.py:40) |
| `CouchValues.EntryMapLastWins` | fakecouch.py:41 | among entries filed under the same key, the rows of the last one are kept |
| `CouchValues.AsDictHasPair` | fakecouch.py:54 | with distinct names, a pair is among the keyword arguments exactly when their dictionary maps its name to its value |
| `CouchValues.ReorderingIffSameDict` | fakecouch.py:52 | two parameter lists are reorderings of each other exactly when they are equal as dictionaries |
| `ParamOrder.StrLessTotal` | fakecouch.py:52 | Python's string order, used by `sorted`, relates any two distinct names |
| `ParamOrder.StrLessTransitive` | fakecouch.py:52 | the string order used by `sorted` is transitive |
| `ParamOrder.SortByName` | fakecouch.py:52 | sorting keeps exactly the given pairs (same multiset) |
| `ParamOrder.SortByNameSorted` | fakecouch.py:52 | sorting pairs with distinct names makes the names strictly increase |
| `ParamOrder.SortedUnique` | fakecouch.py:52 | two name-sorted arrangements of the same pairs are identical, so the sort result does not depend on the input order |
| `FakeCouch.ParamKey` | fakecouch.py:51-52 | the key encodes exactly the given pairs, in strictly increasing order of name |
| `FakeCouch.ParamKeyIgnoresOrder` | fakecouch.py:51-52 | parameters given in any order get the same key, because they are sorted by name before encoding |
| `FakeCouch.ParamKeyMatchesReorderings` | fakecouch.py:51-52 | two parameter lists get the same key if and only if one reorders the other, i.e. if and only if they are equal as dictionaries |
| `FakeCouch.FakeCouchDb.constructor` | fakecouch.py:38-46 | absent or empty `views`/`docs` give empty tables; otherwise each view name gets the entry dictionary of its registrations and the documents are kept as given |
| `FakeCouch.FakeCouchDb.AddView` | fakecouch.py:48-49 | the entry dictionary of `name` is replaced wholesale; the other views and the documents are unchanged |
| `FakeCouch.FakeCouchDb.View` | fakecouch.py:54-56 | returns the rows filed under the canonical key; an unknown view name or key gives an empty result with `total_rows == 0`, and no error |
| `FakeCouch.FakeCouchDb.SaveDoc` | fakecouch.py:58-59 | stores the document under its `_id`, overwriting with no revision check, leaving other ids unchanged, after which `get` of that id returns it; without `_id` raises `KeyError` and changes nothing |
| `FakeCouch.FakeCouchDb.Get` | fakecouch.py:61-68 | raises `ResourceNotFound` exactly when the id is absent or its document empty; otherwise returns the document, or the wrapper applied to it when a wrapper is given |
| `FakeCouch.FakeCouchDb.OpenDoc` | fakecouch.py:70-72 | returns the stored document (even an empty one) or `None`, never an error |
| `FakeCouch.ViewIgnoresParamOrder` | fakecouch.py:54-56 | two queries whose parameters reorder each other get the same result |
| `FakeCouch.ViewReturnsRegisteredRows` | fakecouch.py:48-56 | after registration, a query reordering the parameters of entry `i` and of no later entry returns exactly entry `i`'s rows, and `total_rows` is their count |
| `FakeCouch.ViewEmptyWithoutMatch` | fakecouch.py:55-56 | after registration, a query reordering no entry's parameters returns an empty result |
| `FakeCouch.GetAgreesWithOpenDoc` | fakecouch.py:61-72 | `get` without wrapper succeeds exactly when `open_doc` finds a non-empty document, and then returns that document |
| `MockCouch.InsertionOrderKey` | dimagitest/mock_couch.py:40 | `urlencode(params)` encodes the parameters in the order given, unsorted |
| `MockCouch.InsertionOrderKeyMatchesOnlySameOrder` | dimagitest/mock_couch.py:40 | two parameter lists share a key only when they list the same pairs in the same order |
| `MockCouch.MockCouchDb.constructor` | dimagitest/mock_couch.py:38-44 | the view table exists exactly when `'views'` is supplied and then holds each view's entry dictionary; the document table exists exactly when `'docs'` is supplied |
| `MockCouch.MockCouchDb.View` | dimagitest/mock_couch.py:46-47 | returns the rows under the ordered key; `AttributeError` without a view table, `KeyError` for an unknown view name or key, with no empty fallback |
| `MockCouch.MockCouchDb.SaveDoc` | dimagitest/mock_couch.py:49-50 | stores the document under its `_id`, overwriting unconditionally, after which `get` returns it; `AttributeError` without a document table, `KeyError` without `_id`, each changing nothing |
| `MockCouch.MockCouchDb.Get` | dimagitest/mock_couch.py:52-59 | `AttributeError` without a document table; `ResourceNotFound` exactly when the id is absent or its document empty; otherwise the document or the wrapper applied to it |
| `MockCouch.MockCouchDb.OpenDoc` | dimagitest/mock_couch.py:61-63 | `AttributeError` without a document table; otherwise the stored document or `None` |
| `MockCouch.ViewReturnsExactRegistration` | dimagitest/mock_couch.py:40-47 | a query whose parameters equal entry `i`'s in the same order, and no later entry's, returns entry `i`'s rows |
| `MockCouch.ViewRaisesWithoutExactMatch` | dimagitest/mock_couch.py:47 | a query whose ordered parameters equal no entry's raises `KeyError`, even if it reorders one |
| `Scenarios.ReorderingSeparatesTheVariants` | fakecouch.py:51-52 | for the parameters of the view test, given in two orders, the sorted key agrees and the ordered key of `MockCouchDb` does not |
| `Scenarios.FakeViewScenario` | tests.py:10-24 | a view registered with `reduce, group, startkey, endkey` answers a query passing them as `startkey, endkey, group, reduce` with its 2 rows; an unknown view gives 0 rows |
| `Scenarios.FakeDocGetScenario` | tests.py:31-41 | `get("123")` returns `{'d': 1}`, `get("124", wrapper=lambda x: x['d'])` returns 2, and a missing id raises `ResourceNotFound` |
| `Scenarios.FakeSaveScenario` | fakecouch.py:58-72 | a saved document is what `get` returns; a stored empty document makes `get` raise while `open_doc` returns it |
| `Scenarios.MockScenario` | dimagitest/mock_couch.py:38-50 | `MockCouchDb` answers the registration order, raises `KeyError` for the reordered query, and raises `AttributeError` on `save_doc` when built without docs |

## Left out

- Form-encoding internals: `urlencode` percent-escaping and Python's `str()` of non-string values are library calls. The key is modelled as the injective encoding of the pair sequence. This differs from Python in both directions. Values with the same `str()` (such as `1` and `"1"`) share a key in Python but not in the model. A dictionary-valued parameter is written by `str()` in its insertion order, so `endkey={'a': 1, 'b': 2}` and `endkey={'b': 2, 'a': 1}` get different keys in Python, while the model's `Object` is an unordered map and gives them the same key. So for parameters whose values contain dictionaries, the "equal as dictionaries implies the same key" half of `FakeCouch.ParamKeyMatchesReorderings` holds in the model only; in Python, `view` then returns no rows (`FakeCouchDb`) or raises `KeyError` (`MockCouchDb`).
- Dictionary order: both variants are modelled with insertion-ordered dictionaries (Python 3.7 and later). Under Python 2, `MockCouchDb`'s `urlencode(params)` would follow hash order instead.
- A document id is any `Value`. Python's hashing rules (`1 == True`, a `TypeError` for unhashable ids such as lists) are not modelled.
- Aliasing: both variants store the caller's `docs` dictionary by reference, and callers can mutate the documents they get back. The model copies values.
- Ignored arguments: `schema` and `wrapper` on `view`, `rev` on `get`, and `**params` on `save_doc` are accepted but unused, and are not modelled. A query's `Params` may use the names `view_name`, `schema` and `wrapper`. Python binds those to `view`'s own arguments instead, so they never reach `**params`. The model files them in the key like any other parameter, so it can answer such a query from a registration Python could never match.
- A wrapper is a total function from document to value. An exception raised inside the wrapper is not modelled.
- A registered view result is modelled as a list of rows. `tests.py` registers a dictionary `{'rows': [...]}` and calls `result.all()`. Neither fits `MockResult` (fakecouch.py:75-84), where `total_rows` would be `len` of that dictionary, 1. `Scenarios.FakeViewScenario` therefore registers the rows list directly, as `dimagitest/tests.py` does.
- `MockCouchDb` with a `'views'` or `'docs'` key whose value is not a dictionary is not modelled: a present key always carries a dictionary. For `'views': None` the constructor itself fails (`None.items()`). For `'docs': None` the constructor succeeds and stores `None` (dimagitest/mock_couch.py:43-44). Later `get` and `open_doc` raise `AttributeError` (`None.get`), and `save_doc` raises `TypeError` (`KeyError` first when the document has no `_id`, since `doc["_id"]` is evaluated before the assignment, dimagitest/mock_couch.py:50).
- Behaviour asserted only in `tests.py` does not exist in `fakecouch.py`, so it is not modelled. This covers `bulk_save`, `all_or_nothing` and `new_edits`, `update_view`, `reset`, `ResourceConflict`, `_rev` generation, document delete, `result.all()`, and the `TypeError` for date parameters. Revision tokens, conflict checks, JSON canonicalisation of parameter values and the `wrap_doc` retry belong to a later version of the library and are also left out.
- `dimagitest/tests.py` builds `MockCouchDb(views=...)` and `MockCouchDb()`, which do not match the `mock_data` constructor. They would fail against this constructor, so they are not followed.
- `setup.py` holds packaging metadata only. `ResourceNotFound` is couchdbkit's exception; it is modelled as an error value.
