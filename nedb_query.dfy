/** How the embedded document store answers the queries the adapter sends
    it. The store itself is a library outside this model; what is written
    here is the behaviour the adapter relies on: a query is either empty
    (every document matches) or one field, named by a dotted path, compared
    with a value; `undefined` never matches; `findOne` answers with some
    matching document, or null when there is none. */
module NeDbQuery {
  import opened Js

  /** `key.split('.')`: the parts of a dotted field path. */
  function SplitDots(key: string): (parts: seq<string>)
    ensures |parts| >= 1
    decreases |key|
  {
    if key == [] then [""]
    else if key[0] == '.' then [""] + SplitDots(key[1..])
    else
      var rest := SplitDots(key[1..]);
      [[key[0]] + rest[0]] + rest[1..]
  }

  /** A key without a dot is a path of one part. */
  lemma {:induction false} SplitDotsNoDot(key: string)
    requires '.' !in key
    ensures SplitDots(key) == [key]
    decreases |key|
  {
    if key != [] {
      assert '.' !in key[1..];
      SplitDotsNoDot(key[1..]);
      assert [key[0]] + key[1..] == key;
    }
  }

  /** A key that starts with a dot starts with an empty part. */
  lemma SplitDotsAfterDot(rest: string)
    ensures SplitDots(['.'] + rest) == [""] + SplitDots(rest)
  {
  }

  /** Any other first character joins the first part. */
  lemma SplitDotsAfterChar(c: char, rest: string)
    requires c != '.'
    ensures SplitDots([c] + rest) == [[c] + SplitDots(rest)[0]] + SplitDots(rest)[1..]
  {
  }

  /** The key `${name}.id`, for a name without a dot, is the path of two
      parts: the name, then `id`. */
  lemma {:induction false} SplitDotsLinkedKey(name: string)
    requires '.' !in name
    ensures SplitDots(name + ".id") == [name, "id"]
    decreases |name|
  {
    if name == [] {
      assert name + ".id" == ['.'] + "id";
      SplitDotsAfterDot("id");
      SplitDotsNoDot("id");
    } else {
      var c, tail := name[0], name[1..];
      assert name + ".id" == [c] + (tail + ".id");
      assert '.' !in tail;
      SplitDotsLinkedKey(tail);
      SplitDotsAfterChar(c, tail + ".id");
      assert [c] + tail == name;
    }
  }

  /** The value a dotted path reaches inside a value, as the store reads it:
      nothing is reached through a falsy value, and a path through anything
      but an object reaches `undefined`. */
  function GetPath(v: Value, path: seq<string>): Value
    decreases |path|
  {
    if !Truthy(v) then Undefined
    else if |path| == 0 then v
    else
      var next := match v case Obj(m) => Get(m, path[0]) case _ => Undefined;
      if |path| == 1 then next else GetPath(next, path[1..])
  }

  /** The store's equality on a queried field: `undefined` equals nothing. */
  predicate Equal(stored: Value, wanted: Value) {
    stored != Undefined && stored == wanted
  }

  /** `{}` or `{ [key]: value }`. */
  datatype Query = MatchAll | FieldEquals(key: string, value: Value)

  predicate Matches(q: Query, doc: Doc) {
    match q
    case MatchAll => true
    case FieldEquals(key, value) => Equal(GetPath(Obj(doc), SplitDots(key)), value)
  }

  /** The answers `findOne(q)` may give on a collection: some matching
      document, and null exactly when no document matches. */
  ghost predicate Selects(docs: map<Value, Doc>, q: Query, r: Option<Doc>) {
    && (r.None? <==> forall k :: k in docs ==> !Matches(q, docs[k]))
    && (r.Some? ==> r.value in docs.Values && Matches(q, r.value))
  }

  /** The collection is indexed by `_id`: every document's `_id` is its key,
      and no document has an undefined `_id`. */
  ghost predicate WellKeyed(docs: map<Value, Doc>) {
    forall k :: k in docs ==> k != Undefined && Get(docs[k], "_id") == k
  }

  /** The account a user document links for a provider: `doc[name].id`. */
  function LinkedId(doc: Doc, name: string): Value {
    match Get(doc, name)
    case Obj(m) => Get(m, "id")
    case _ => Undefined
  }

  /** A query on a key without a dot compares that field of the document. */
  lemma FieldQueryMatches(doc: Doc, key: string, v: Value)
    requires '.' !in key
    ensures Matches(FieldEquals(key, v), doc) <==> v != Undefined && Get(doc, key) == v
  {
    SplitDotsNoDot(key);
  }

  /** `{_id: id}` matches exactly the document stored under `id`. */
  lemma IdQueryMatchesKey(docs: map<Value, Doc>, id: Value, k: Value)
    requires WellKeyed(docs) && k in docs
    ensures Matches(FieldEquals("_id", id), docs[k]) <==> k == id
  {
    FieldQueryMatches(docs[k], "_id", id);
  }

  /** `{[`${name}.id`]: id}`, for a provider name without a dot, matches the
      documents whose `name` field is an object holding `id`. */
  lemma ProviderQueryMatchesLinkedId(doc: Doc, name: string, id: Value)
    requires '.' !in name
    ensures Matches(FieldEquals(name + ".id", id), doc) <==> (LinkedId(doc, name) != Undefined && LinkedId(doc, name) == id)
  {
    SplitDotsLinkedKey(name);
    assert [name, "id"][1..] == ["id"];
    var next := Get(doc, name);
    assert GetPath(Obj(doc), [name, "id"]) == GetPath(next, ["id"]);
  }
}
