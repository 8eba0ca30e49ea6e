/** The user-store adapter: the object of six operations that the
    authentication library calls to look up, add, change and delete users
    and to turn a user into a session reference and back. The users live in
    an embedded document store (`UserStore`), indexed by `_id`; ids are
    compared as they are, since the adapter's `objectId` is the identity. */
module UserAdapter {
  import opened Js
  import opened NeDbQuery

  /** `{name, id}`: a provider account, as the library passes it to `find`. */
  datatype ProviderAccount = ProviderAccount(name: string, id: Value)

  /** The argument of `find`: the criteria its documentation lists. An
      absent criterion is `undefined`. */
  datatype Criteria = Criteria(id: Value, email: Value, emailToken: Value, provider: Option<ProviderAccount>)

  /** The query `find` sends, as written: only the provider criterion is
      read; without it the query is empty. */
  function FindQuery(c: Criteria): Query {
    if c.provider.Some? then FieldEquals(c.provider.value.name + ".id", c.provider.value.id)
    else MatchAll
  }

  /** The query the documented criteria call for: the first truthy one of
      id, email, email token and provider decides it. */
  function IntendedFindQuery(c: Criteria): Query {
    if Truthy(c.id) then FieldEquals("_id", c.id)
    else if Truthy(c.email) then FieldEquals("email", c.email)
    else if Truthy(c.emailToken) then FieldEquals("emailToken", c.emailToken)
    else FindQuery(c)
  }

  /** The `_id` a new document is stored under: the user's own, or the fresh
      one the store generates when the user has none. */
  function AssignedId(fields: Doc, freshId: string): Value {
    if Get(fields, "_id") == Undefined then Str(freshId) else Get(fields, "_id")
  }

  /** A user object handed to the adapter by the library; `insert` writes
      into it. */
  class UserObject {
    var fields: Doc

    constructor (fields: Doc)
      ensures this.fields == fields
    {
      this.fields := fields;
    }
  }

  const SerialiseFailure := "Unable to serialise user"

  /** `serialize(user)`: the session reference of a user, its `id` when that
      is truthy (a value that came from `deserialize`), else its `_id` (a
      record from the store); a user with neither cannot be serialised. */
  function Serialize(user: Doc): (r: Outcome<Value>)
    ensures r.Resolved? <==> Truthy(Get(user, "id")) || Truthy(Get(user, "_id"))
    ensures r.Resolved? ==> Truthy(r.value) && (r.value == Get(user, "id") || r.value == Get(user, "_id"))
    ensures r.Rejected? ==> r.error == Error(SerialiseFailure)
  {
    if Truthy(Get(user, "id")) then Resolved(Get(user, "id"))
    else if Truthy(Get(user, "_id")) then Resolved(Get(user, "_id"))
    else Rejected(Error(SerialiseFailure))
  }

  /** A truthy `id` takes precedence: whatever `_id` holds does not change
      the reference. */
  lemma SerializePrefersId(user: Doc, otherId: Value)
    requires Truthy(Get(user, "id"))
    ensures Serialize(user["_id" := otherId]) == Serialize(user) == Resolved(Get(user, "id"))
  {
  }

  /** The fields of the projection `deserialize` exports to clients. */
  const ProjectionKeys: set<string> := {"id", "name", "email", "emailVerified", "admin"}

  /** The stored fields the projection is computed from. */
  const ProjectedFields: set<string> := {"_id", "name", "email", "emailVerified", "admin"}

  /** The normalised, privacy-filtered view of a stored user. */
  function Project(doc: Doc): (r: Doc)
    ensures r.Keys == ProjectionKeys
    ensures r["id"] == Get(doc, "_id")
    ensures r["name"] == Get(doc, "name") && r["email"] == Get(doc, "email")
    ensures r["emailVerified"] == Get(doc, "emailVerified")
    ensures Truthy(r["admin"]) <==> Truthy(Get(doc, "admin"))
    ensures !Truthy(Get(doc, "admin")) ==> r["admin"] == Bool(false)
    ensures Truthy(Get(doc, "admin")) ==> r["admin"] == Get(doc, "admin")
  {
    map[
      "id" := Get(doc, "_id"),
      "name" := Get(doc, "name"),
      "email" := Get(doc, "email"),
      "emailVerified" := Get(doc, "emailVerified"),
      "admin" := Or(Get(doc, "admin"), Bool(false))
    ]
  }

  /** Nothing but the five projected fields reaches the projection: two
      records that agree on them (and differ anywhere else, provider tokens
      included) project alike. */
  lemma ProjectionHidesOtherFields(a: Doc, b: Doc)
    requires forall k :: k in ProjectedFields ==> Get(a, k) == Get(b, k)
    ensures Project(a) == Project(b)
  {
  }

  /** Serialising a deserialised user gives back the stored `_id` exactly
      when that `_id` is truthy; otherwise serialisation fails. */
  lemma SerializeProjectRoundTrip(doc: Doc)
    ensures Truthy(Get(doc, "_id")) ==> Serialize(Project(doc)) == Resolved(Get(doc, "_id"))
    ensures !Truthy(Get(doc, "_id")) ==> Serialize(Project(doc)) == Rejected(Error(SerialiseFailure))
  {
  }

  /** The embedded collection of user documents, keyed by `_id`, with the
      adapter's operations on it. */
  class UserStore {
    var docs: map<Value, Doc>

    ghost predicate Valid()
      reads this
    {
      WellKeyed(docs)
    }

    constructor ()
      ensures Valid() && docs == map[]
    {
      docs := map[];
    }

    /** `find(criteria)`: some document matching the query built from the
        criteria, or null when none matches. Only the provider criterion is
        honoured; without it any document may be returned. */
    method Find(c: Criteria) returns (r: Option<Doc>)
      ensures Selects(docs, FindQuery(c), r)
      ensures c.provider.None? ==> (r.None? <==> docs == map[])
      ensures c.provider.Some? && '.' !in c.provider.value.name && r.Some? ==>
                c.provider.value.id != Undefined && LinkedId(r.value, c.provider.value.name) == c.provider.value.id
      ensures c.provider.Some? && '.' !in c.provider.value.name ==>
                (r.None? <==> forall k :: k in docs ==>
                   !(c.provider.value.id != Undefined && LinkedId(docs[k], c.provider.value.name) == c.provider.value.id))
    {
      var q := FindQuery(c);
      if k: Value :| k in docs && Matches(q, docs[k]) {
        r := Some(docs[k]);
        if c.provider.Some? && '.' !in c.provider.value.name {
          ProviderQueryMatchesLinkedId(docs[k], c.provider.value.name, c.provider.value.id);
        }
      } else {
        r := None;
        if c.provider.Some? && '.' !in c.provider.value.name {
          forall k | k in docs
            ensures !(c.provider.value.id != Undefined && LinkedId(docs[k], c.provider.value.name) == c.provider.value.id)
          {
            ProviderQueryMatchesLinkedId(docs[k], c.provider.value.name, c.provider.value.id);
          }
        }
      }
    }

    /** `find(criteria)` as its documentation describes it: the first truthy
        one of id, email, email token and provider decides the query. */
    method FindIntended(c: Criteria) returns (r: Option<Doc>)
      ensures Selects(docs, IntendedFindQuery(c), r)
      ensures Valid() && Truthy(c.id) ==>
                && (r.None? <==> c.id !in docs)
                && (r.Some? ==> c.id in docs && r.value == docs[c.id])
      ensures !Truthy(c.id) && Truthy(c.email) ==>
                && (r.Some? ==> Get(r.value, "email") == c.email)
                && (r.None? <==> forall k :: k in docs ==> Get(docs[k], "email") != c.email)
    {
      var q := IntendedFindQuery(c);
      if k: Value :| k in docs && Matches(q, docs[k]) {
        r := Some(docs[k]);
        if !Truthy(c.id) && Truthy(c.email) {
          FieldQueryMatches(docs[k], "email", c.email);
        } else if Valid() && Truthy(c.id) {
          IdQueryMatchesKey(docs, c.id, k);
        }
      } else {
        r := None;
        if Valid() && Truthy(c.id) && c.id in docs {
          IdQueryMatchesKey(docs, c.id, c.id);
        }
        if !Truthy(c.id) && Truthy(c.email) {
          forall k | k in docs
            ensures Get(docs[k], "email") != c.email
          {
            FieldQueryMatches(docs[k], "email", c.email);
          }
        }
      }
    }

    /** `insert(user)`: the store saves a copy of the user under its `_id`,
        generating a fresh one (`freshId`) when the user has none, and
        refuses an `_id` already in use; the OAuth profile is not used. The
        adapter then copies a truthy
        generated `_id` into the user it was given, only when that user's
        own `_id` is falsy, and resolves with that same user object. */
    method Insert(user: UserObject, oAuthProfile: Value, freshId: string) returns (r: Outcome<UserObject>)
      requires Valid()
      requires |freshId| == 16 && Str(freshId) !in docs
      modifies this, user
      ensures Valid()
      ensures var id := AssignedId(old(user.fields), freshId);
        && (r.Rejected? <==> id in old(docs))
        && (r.Rejected? ==> r.error == UniqueViolated(id) && docs == old(docs) && user.fields == old(user.fields))
        && (r.Resolved? ==> r.value == user && docs == old(docs)[id := user.fields])
        && (r.Resolved? ==> user.fields == old(user.fields)["_id" := id])
      ensures Get(old(user.fields), "_id") != Undefined ==> user.fields == old(user.fields)
    {
      var given := Get(user.fields, "_id");
      var id := AssignedId(user.fields, freshId);
      if id in docs {
        r := Rejected(UniqueViolated(id));
      } else {
        var stored := user.fields["_id" := id];
        docs := docs[id := stored];
        if !Truthy(given) && Truthy(id) {
          user.fields := user.fields["_id" := id];
        }
        assert given != Undefined ==> user.fields == user.fields["_id" := id];
        r := Resolved(user);
      }
    }

    /** `update(user, profile)`: the document whose `_id` is the user's is
        replaced by the user; no document changes when there is none; the
        profile is ignored and the promise resolves with the user itself. */
    method Update(user: UserObject, profile: Value) returns (r: Outcome<UserObject>)
      requires Valid()
      modifies this
      ensures Valid()
      ensures r == Resolved(user)
      ensures var id := Get(user.fields, "_id");
        docs == if id in old(docs) then old(docs)[id := user.fields] else old(docs)
    {
      var id := Get(user.fields, "_id");
      if k: Value :| k in docs && Matches(FieldEquals("_id", id), docs[k]) {
        IdQueryMatchesKey(docs, id, k);
        assert user.fields["_id" := k] == user.fields;
        docs := docs[k := user.fields["_id" := k]];
      } else if id in docs {
        IdQueryMatchesKey(docs, id, id);
      }
      r := Resolved(user);
    }

    /** `remove(id)`: the document stored under `id` is deleted, if there
        is one, and the promise always resolves with true. */
    method Remove(id: Value) returns (r: Outcome<bool>)
      requires Valid()
      modifies this
      ensures Valid()
      ensures r == Resolved(true)
      ensures docs == old(docs) - {id}
    {
      if k: Value :| k in docs && Matches(FieldEquals("_id", id), docs[k]) {
        IdQueryMatchesKey(docs, id, k);
        docs := docs - {k};
      } else if id in docs {
        IdQueryMatchesKey(docs, id, id);
      }
      r := Resolved(true);
    }

    /** `deserialize(id)`: the projection of the user stored under `id`, or
        null when there is none (an account deleted since the session
        began), never a failure. */
    method Deserialize(id: Value) returns (r: Option<Doc>)
      requires Valid()
      ensures r.None? <==> id !in docs
      ensures r.Some? ==> r.value == Project(docs[id])
    {
      if k: Value :| k in docs && Matches(FieldEquals("_id", id), docs[k]) {
        IdQueryMatchesKey(docs, id, k);
        r := Some(Project(docs[k]));
      } else {
        if id in docs {
          IdQueryMatchesKey(docs, id, id);
        }
        r := None;
      }
    }
  }

  /** A sign-in as the library performs it on this adapter: a new user is
      inserted, serialised into the session, and the session resolved later
      with deserialize, which yields the projection of the stored record. */
  method SignInThenResolve(store: UserStore, user: UserObject, freshId: string) returns (session: Outcome<Option<Doc>>)
    requires store.Valid()
    requires |freshId| == 16 && Str(freshId) !in store.docs
    requires !Truthy(Get(user.fields, "id"))
    modifies store, user
    ensures store.Valid()
    ensures var id := AssignedId(old(user.fields), freshId);
      session.Resolved? <==> id !in old(store.docs) && Truthy(id)
    ensures session.Resolved? ==> session.value == Some(Project(user.fields))
    ensures session.Resolved? ==> Get(user.fields, "_id") in store.docs && store.docs[Get(user.fields, "_id")] == user.fields
  {
    var inserted := store.Insert(user, Undefined, freshId);
    if inserted.Rejected? {
      return Rejected(inserted.error);
    }
    assert Get(user.fields, "id") == Get(old(user.fields), "id");
    var reference := Serialize(user.fields);
    if reference.Rejected? {
      return Rejected(reference.error);
    }
    assert Get(user.fields, "_id") == AssignedId(old(user.fields), freshId);
    var found := store.Deserialize(reference.value);
    session := Resolved(found);
  }

  /** A session whose user was removed resolves to null, and the other users
      are untouched. */
  method RemoveThenResolve(store: UserStore, id: Value) returns (session: Option<Doc>)
    requires store.Valid()
    modifies store
    ensures store.Valid()
    ensures session == None
    ensures forall k :: k in old(store.docs) && k != id ==> k in store.docs && store.docs[k] == old(store.docs)[k]
  {
    var _ := store.Remove(id);
    session := store.Deserialize(id);
  }

  /** The store used to exhibit what `find` does with an email criterion:
      one user, Alice. */
  function AliceStore(): map<Value, Doc> {
    map[Str("alice-id") := map["_id" := Str("alice-id"), "email" := Str("alice@example.com")]]
  }

  /** A look-up by an email address that belongs to nobody. */
  function MalloryLookup(): Criteria {
    Criteria(Undefined, Str("mallory@example.com"), Undefined, None)
  }

  /** As written, `find({email})` answers a look-up of an unknown address
      with another user's record: every answer the store may give is Alice. */
  lemma FindByEmailReturnsAnotherUser(r: Option<Doc>)
    requires Selects(AliceStore(), FindQuery(MalloryLookup()), r)
    ensures r.Some? && Get(r.value, "email") == Str("alice@example.com")
    ensures Get(r.value, "email") != MalloryLookup().email
  {
    var docs := AliceStore();
    assert Str("alice-id") in docs;
    assert Matches(MatchAll, docs[Str("alice-id")]);
    assert docs.Values == {docs[Str("alice-id")]};
  }

  /** With the documented criteria, the same look-up finds nobody. */
  lemma IntendedFindByEmailFindsNobody(r: Option<Doc>)
    requires Selects(AliceStore(), IntendedFindQuery(MalloryLookup()), r)
    ensures r == None
  {
  }
}
