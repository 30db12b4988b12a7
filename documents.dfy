/**
 * MongoDB documents and the few collection operations the back end uses:
 * equality filters (`find`, `find_one`, `update_one` with `$set`), sorting on
 * `created_date`, `to_list(n)`, the PATCH dictionaries with their `None`
 * values dropped, and `serialize_doc`.
 *
 * A collection is a sequence of documents in natural (insertion) order, which
 * is the order `find_one` and `update_one` scan.
 */
module Documents {
  import opened Wrappers
  import Text
  import Sorting

  /** The field values the back end stores: scalars, and the lists and
      sub-documents of an order's items. */
  datatype Value =
    | Null | Bool(b: bool) | Int(n: int) | Str(s: string)
    | Arr(elems: seq<Value>) | Obj(fields: map<string, Value>)

  /** A document: field name to value. */
  type Doc = map<string, Value>

  /** An equality filter `{field: value, ...}`; `{}` matches every document. */
  type Query = map<string, Value>

  predicate Matches(d: Doc, q: Query) {
    forall k :: k in q ==> k in d && d[k] == q[k]
  }

  // ---------------------------------------------------------------------
  // find_one, update_one, find
  // ---------------------------------------------------------------------

  /** Index of the first document matching `q`, or `|docs|` when none does. */
  function FirstMatch(docs: seq<Doc>, q: Query): (k: nat)
    ensures k <= |docs|
    ensures forall j :: 0 <= j < k ==> !Matches(docs[j], q)
    ensures k < |docs| ==> Matches(docs[k], q)
  {
    if docs == [] then 0
    else if Matches(docs[0], q) then 0
    else 1 + FirstMatch(docs[1..], q)
  }

  /** `find_one(q)`: the first matching document, if any. */
  function FindOne(docs: seq<Doc>, q: Query): Option<Doc> {
    var k := FirstMatch(docs, q);
    if k < |docs| then Some(docs[k]) else None
  }

  /** `find_one` finds nothing exactly when no document matches, and otherwise
      returns a matching document of the collection. */
  lemma FindOneSpec(docs: seq<Doc>, q: Query)
    ensures FindOne(docs, q).None? <==> forall j :: 0 <= j < |docs| ==> !Matches(docs[j], q)
    ensures FindOne(docs, q).Some? ==> FindOne(docs, q).value in docs && Matches(FindOne(docs, q).value, q)
  {
  }

  /** `$set`: the fields of `data` overwrite or extend `doc`. */
  function SetFields(doc: Doc, data: Doc): (r: Doc)
    ensures r.Keys == doc.Keys + data.Keys
    ensures forall k :: k in data ==> r[k] == data[k]
    ensures forall k :: k in doc && k !in data ==> r[k] == doc[k]
  {
    doc + data
  }

  /** `update_one(q, {"$set": data})`: only the first matching document changes. */
  function UpdateOne(docs: seq<Doc>, q: Query, data: Doc): (r: seq<Doc>)
    ensures |r| == |docs|
  {
    var k := FirstMatch(docs, q);
    if k < |docs| then docs[k := SetFields(docs[k], data)] else docs
  }

  /** `update_one` sets exactly the supplied fields of the first matching
      document; every other field of it and every other document stay as they
      were, and with no match nothing changes. */
  lemma UpdateOneFrame(docs: seq<Doc>, q: Query, data: Doc)
    ensures var r, k := UpdateOne(docs, q, data), FirstMatch(docs, q);
      && (forall j :: 0 <= j < |docs| && j != k ==> r[j] == docs[j])
      && (k < |docs| ==> r[k] == SetFields(docs[k], data))
      && (k == |docs| ==> r == docs)
  {
  }

  /** `find(q)`: the matching documents, in collection order. */
  function Find(docs: seq<Doc>, q: Query): (r: seq<Doc>)
    ensures |r| <= |docs|
    ensures forall i :: 0 <= i < |r| ==> Matches(r[i], q)
    ensures forall d :: multiset(r)[d] == if Matches(d, q) then multiset(docs)[d] else 0
  {
    if docs == [] then []
    else
      assert docs == [docs[0]] + docs[1..];
      (if Matches(docs[0], q) then [docs[0]] else []) + Find(docs[1..], q)
  }

  // ---------------------------------------------------------------------
  // sort("created_date", ±1) and to_list(n)
  // ---------------------------------------------------------------------

  /** `a` is lexicographically at most `b`, comparing code points (the order
      of MongoDB's binary string comparison on UTF-8). */
  predicate LexLe(a: string, b: string) {
    if a == [] then true
    else if b == [] then false
    else if a[0] != b[0] then a[0] < b[0]
    else LexLe(a[1..], b[1..])
  }

  lemma {:induction false} LexLeTotal(a: string, b: string)
    ensures LexLe(a, b) || LexLe(b, a)
  {
    if a != [] && b != [] && a[0] == b[0] { LexLeTotal(a[1..], b[1..]); }
  }

  lemma {:induction false} LexLeTransitive(a: string, b: string, c: string)
    requires LexLe(a, b) && LexLe(b, c)
    ensures LexLe(a, c)
  {
    if a != [] && b != [] && c != [] && a[0] == b[0] == c[0] {
      LexLeTransitive(a[1..], b[1..], c[1..]);
    }
  }

  /** The sort key: `created_date` when it is a string; a document without one
      sorts as null, before every string. */
  function CreatedKey(d: Doc): Option<string> {
    if "created_date" in d && d["created_date"].Str? then Some(d["created_date"].s) else None
  }

  predicate KeyLe(x: Option<string>, y: Option<string>) {
    x.None? || (y.Some? && LexLe(x.value, y.value))
  }

  /** `a` may come before `b` in the direction of the sort. */
  predicate InOrder(a: Doc, b: Doc, ascending: bool) {
    if ascending then KeyLe(CreatedKey(a), CreatedKey(b)) else KeyLe(CreatedKey(b), CreatedKey(a))
  }

  lemma InOrderTotal(a: Doc, b: Doc, ascending: bool)
    ensures InOrder(a, b, ascending) || InOrder(b, a, ascending)
  {
    if CreatedKey(a).Some? && CreatedKey(b).Some? {
      LexLeTotal(CreatedKey(a).value, CreatedKey(b).value);
    }
  }

  lemma InOrderTransitive(a: Doc, b: Doc, c: Doc, ascending: bool)
    requires InOrder(a, b, ascending) && InOrder(b, c, ascending)
    ensures InOrder(a, c, ascending)
  {
    var ka, kb, kc := CreatedKey(a), CreatedKey(b), CreatedKey(c);
    if ka.Some? && kb.Some? && kc.Some? {
      if ascending { LexLeTransitive(ka.value, kb.value, kc.value); }
      else { LexLeTransitive(kc.value, kb.value, ka.value); }
    }
  }

  /** The order of `sort("created_date", 1)` (ascending) or
      `sort("created_date", -1)` (descending). */
  function Order(ascending: bool): (Doc, Doc) -> bool {
    (a: Doc, b: Doc) => InOrder(a, b, ascending)
  }

  lemma OrderIsTotalPreorder(ascending: bool)
    ensures Sorting.TotalPreorder(Order(ascending))
  {
    forall a, b ensures Order(ascending)(a, b) || Order(ascending)(b, a) {
      InOrderTotal(a, b, ascending);
    }
    forall a, b, c | Order(ascending)(a, b) && Order(ascending)(b, c)
      ensures Order(ascending)(a, c)
    {
      InOrderTransitive(a, b, c, ascending);
    }
  }

  lemma SortedByCreated(f: seq<Doc>, ascending: bool)
    ensures Sorting.Sorted(Sorting.SortBy(f, Order(ascending)), Order(ascending))
  {
    OrderIsTotalPreorder(ascending);
    Sorting.SortBySorted(f, Order(ascending));
  }

  /** `to_list(n)`: at most the first `n` documents of the cursor. */
  function Take(s: seq<Doc>, n: nat): (r: seq<Doc>)
    ensures |r| == if |s| < n then |s| else n
    ensures r == s[..|r|]
  {
    if |s| < n then s else s[..n]
  }

  /** `find(q).sort("created_date", ±1).to_list(limit)`. */
  function Select(docs: seq<Doc>, q: Query, ascending: bool, limit: nat): seq<Doc> {
    Take(Sorting.SortBy(Find(docs, q), Order(ascending)), limit)
  }

  /** The selected documents come from the matching ones, and there are
      `min(limit, number of matches)` of them. */
  lemma SelectFromMatches(docs: seq<Doc>, q: Query, ascending: bool, limit: nat)
    ensures multiset(Select(docs, q, ascending, limit)) <= multiset(Find(docs, q))
    ensures |Select(docs, q, ascending, limit)| == if |Find(docs, q)| < limit then |Find(docs, q)| else limit
    ensures forall d :: d in Select(docs, q, ascending, limit) ==> d in docs && Matches(d, q)
  {
    var f := Find(docs, q);
    var s := Sorting.SortBy(f, Order(ascending));
    var r := Take(s, limit);
    assert Select(docs, q, ascending, limit) == r;
    PrefixMultiset(s, |r|);
    forall d | d in r ensures d in docs && Matches(d, q) {
      assert multiset(f)[d] > 0;
      assert d in multiset(docs);
    }
  }

  lemma PrefixMultiset<T>(s: seq<T>, n: nat)
    requires n <= |s|
    ensures multiset(s[..n]) <= multiset(s)
  {
    assert s == s[..n] + s[n..];
  }

  /** The selected documents are in sort order, and every matching document
      left out comes after every selected one in that order: for a descending
      list, no document left out is newer than one returned. */
  lemma SelectOrdered(docs: seq<Doc>, q: Query, ascending: bool, limit: nat)
    ensures Sorting.Sorted(Select(docs, q, ascending, limit), Order(ascending))
    ensures forall d, e ::
      e in Select(docs, q, ascending, limit) && multiset(Select(docs, q, ascending, limit))[d] < multiset(Find(docs, q))[d]
      ==> InOrder(e, d, ascending)
  {
    var f := Find(docs, q);
    var s := Sorting.SortBy(f, Order(ascending));
    var r := Take(s, limit);
    assert Select(docs, q, ascending, limit) == r == s[..|r|];
    SortedByCreated(f, ascending);
    Sorting.PrefixOfSorted(s, |r|, Order(ascending));
    assert multiset(s) == multiset(f);
    forall d, e | e in r && multiset(r)[d] < multiset(f)[d] ensures InOrder(e, d, ascending) {
      assert multiset(r)[d] < multiset(s)[d];
      assert Order(ascending)(e, d);
    }
  }

  // ---------------------------------------------------------------------
  // PATCH bodies and serialize_doc
  // ---------------------------------------------------------------------

  /** `{k: v for k, v in update.dict().items() if v is not None}`. */
  function DropNone(update: Doc): (r: Doc)
    ensures forall k :: k in r <==> k in update && update[k] != Null
    ensures forall k :: k in r ==> r[k] == update[k]
  {
    map k | k in update && update[k] != Null :: update[k]
  }

  /** Python `str(v)` of a scalar value; a list or a sub-document, which no
      `_id` holds, is rendered as "". */
  function PyStr(v: Value): string {
    match v
    case Null => "None"
    case Bool(b) => if b then "True" else "False"
    case Int(n) => Text.IntToDecimal(n)
    case Str(s) => s
    case Arr(_) => ""
    case Obj(_) => ""
  }

  /** `serialize_doc`: `_id` is renamed to `id`, holding `str(_id)`; a document
      without `_id` (the empty one included) is returned as it is. */
  function Serialize(doc: Doc): (r: Doc)
    ensures "_id" in doc ==> "_id" !in r && "id" in r && r["id"] == Str(PyStr(doc["_id"]))
    ensures "_id" in doc ==> r.Keys == doc.Keys - {"_id"} + {"id"}
    ensures forall k :: k in doc && k != "_id" && k != "id" ==> k in r && r[k] == doc[k]
    ensures "_id" !in doc ==> r == doc
  {
    if "_id" in doc then (doc - {"_id"})["id" := Str(PyStr(doc["_id"]))] else doc
  }

  /** `serialize_doc` of a `find_one` result: `None` stays `None`. */
  function SerializeFound(found: Option<Doc>): (r: Option<Doc>)
    ensures r.Some? <==> found.Some?
    ensures r.Some? ==> r.value == Serialize(found.value)
  {
    match found
    case None => None
    case Some(d) => Some(Serialize(d))
  }

  /** Serializing twice is serializing once. */
  lemma SerializeIdempotent(doc: Doc)
    ensures Serialize(Serialize(doc)) == Serialize(doc)
  {
  }

  /** Renaming `id` back to `_id` undoes `serialize_doc` on a stored document
      whose `_id` is a string and which has no `id` field of its own. */
  lemma SerializeInvertible(doc: Doc)
    requires "_id" in doc && doc["_id"].Str? && "id" !in doc
    ensures var r := Serialize(doc); (r - {"id"})["_id" := r["id"]] == doc
  {
    var r := Serialize(doc);
    var back := (r - {"id"})["_id" := r["id"]];
    assert back.Keys == doc.Keys;
  }
}
