# next-passport-oauth-google-email-nedb: the user adapter and the provider list

This project models, in Dafny, the two pieces of logic of a configuration
example for the `next-auth` authentication library:

- the **user-store adapter** (`next-auth.functions.js`), the object of six
  operations that the library calls: `find`, `insert`, `update` and `remove`
  over an embedded NeDB collection of user documents, `serialize`, which
  reduces a user to a session reference, and `deserialize`, which turns a
  reference back into a privacy-filtered projection of the stored user;
- the **provider list builder** (`next-auth.providers.js`), which returns a
  Google OAuth descriptor only when both Google credentials are set, and
  Google's profile normaliser `getProfile`.

JavaScript values are modelled by `Js.Value` (undefined, null, booleans,
integers, strings, plain objects, arrays) with JavaScript's truthiness and
property access, so that `if (user.id)`, `user.admin || false` and
`profile.emails[0].value` behave as they do in the source, including the
TypeError thrown on `undefined.value`. A settled promise is an
`Outcome` (`Resolved` or `Rejected`).

The collection is the class `UserAdapter.UserStore`, whose `docs` map each
`_id` to its document; its invariant `Valid()` says every document is stored
under its own `_id` and no `_id` is undefined. The adapter's operations are
its methods; `insert` writes the generated `_id` into the user object it
was given, so that object is the class `UserAdapter.UserObject`. The NeDB
library is not part of this model; module `NeDbQuery` states what the
adapter relies on from it:

- a query is `{}` or one field named by a dotted path (split at every `.`)
  compared with a value, and `undefined` matches nothing;
- `findOne` returns some matching document, or null when none matches;
- `insert` keeps a given `_id`, generates a fresh unused one (the parameter
  `freshId`, 16 characters) when the document has none, and refuses an
  `_id` already in use;
- `update` without options replaces only an existing match;
- `remove` deletes the match, if any.

The environment variables `GOOGLE_ID` and `GOOGLE_SECRET` are parameters of
`Providers.BuildProviders` (`None` for an unset variable).

The model follows the code where it departs from what an adapter of this
kind is usually expected to do:

- `find` honours only the provider criterion, although the comment at the
  head of the file lists id, email and email token as well (see Findings);
- `insert` refuses only a duplicate `_id` (nothing enforces unique emails);
- `update` of an `_id` that is not stored changes nothing and resolves with
  the user.

## Model

| member | source | states |
|---|---|---|
| `UserAdapter.UserStore.Find` | next-auth.functions.js:51-65 | the result is a stored document matching the query, and null exactly when none matches; with a provider (name without a dot), a document is found exactly when some stored document's `[provider.name].id` equals a defined `provider.id`, and the result is such a document; without a provider, null only when the collection is empty |
| `UserAdapter.FindByEmailReturnsAnotherUser` | next-auth.functions.js:51-58 | on a store holding only Alice, every answer `find` may give to a look-up of an unknown email is Alice's record |
| `UserAdapter.UserStore.FindIntended` | next-auth.functions.js:9-15 | find by the documented criteria: with an id, the record stored under it or null when there is none; with an email, a record with that email, and null exactly when no record has it |
| `UserAdapter.IntendedFindByEmailFindsNobody` | next-auth.functions.js:9-15 | with the documented criteria, the same look-up of an unknown email finds nobody |
| `NeDbQuery.ProviderQueryMatchesLinkedId` | next-auth.functions.js:55-57 | the query `{[name + '.id']: id}` matches a document exactly when its `name` field is an object whose `id` equals `id` |
| `NeDbQuery.IdQueryMatchesKey` | next-auth.functions.js:34 | the query `{_id: objectId(id)}` matches exactly the document stored under `id`, ids being compared as they are |
| `UserAdapter.UserStore.Insert` | next-auth.functions.js:74-87 | the user is stored under its own `_id` or a fresh one, and other documents are unchanged; a duplicate `_id` is refused with nothing changed; an existing `_id` of the user is kept; after success the user object equals the stored record, and the same object is returned |
| `UserAdapter.UserStore.Update` | next-auth.functions.js:96-104 | the document whose `_id` is the user's becomes the user; other documents are untouched; nothing changes when no such document exists; the profile is ignored and the user itself is returned |
| `UserAdapter.UserStore.Remove` | next-auth.functions.js:110-118 | the document stored under `id` is removed, the others are kept, and the result is always true |
| `UserAdapter.Serialize` | next-auth.functions.js:121-133 | the reference is a truthy `id` or `_id` of the user; it fails with "Unable to serialise user" exactly when neither is truthy |
| `UserAdapter.SerializePrefersId` | next-auth.functions.js:124-129 | a truthy `id` wins: whatever `_id` holds, the reference is `id` |
| `UserAdapter.Project` | next-auth.functions.js:147-153 | the projection has exactly the keys id, name, email, emailVerified and admin; id is the stored `_id`; name, email and emailVerified are copied; admin is the stored admin when truthy and false otherwise |
| `UserAdapter.ProjectionHidesOtherFields` | next-auth.functions.js:135-153 | no stored field other than `_id`, name, email, emailVerified and admin influences the projection |
| `UserAdapter.SerializeProjectRoundTrip` | next-auth.functions.js:121-153 | serialising a deserialised record gives back its `_id` exactly when that `_id` is truthy, and fails otherwise |
| `UserAdapter.UserStore.Deserialize` | next-auth.functions.js:138-156 | null exactly when no document is stored under the id; otherwise the projection of that document |
| `UserAdapter.SignInThenResolve` | next-auth.functions.js:74-156 | for a user without a truthy `id` field (one with a truthy `id` would serialise to that `id`, not to its `_id`): a user inserted, serialised and deserialised yields the projection of the stored record, exactly when the insert succeeds with a truthy `_id` |
| `UserAdapter.RemoveThenResolve` | next-auth.functions.js:110-156 | after `remove(id)`, `deserialize(id)` yields null and every other user is unchanged |
| `Providers.BuildProviders` | next-auth.providers.js:20-47 | the list is empty unless both credentials are set and non-empty; it then holds exactly one descriptor, named Google, with scope `['profile', 'email']` and the two credentials as client id and secret |
| `Providers.GetProfile` | next-auth.providers.js:35-42 | the result has exactly the keys id, name and email; id and name are the profile's `id` and `displayName`, and email is `emails[0].value` when `emails` is an array whose first entry is an object; a TypeError is thrown exactly when the profile is not an object or `emails` or `emails[0]` is undefined or null |
| `Providers.GetProfileOfGoogleProfile` | next-auth.providers.js:35-42 | on a Google profile the result is `{id, name: displayName, email: emails[0]}`, and a TypeError exactly when it has no email address |
| `Providers.GetProfileReadsOnlyItsFields` | next-auth.providers.js:37-41 | only `id`, `displayName` and the first entry of `emails` influence the normalised profile |

## Findings

| source | as written | input that shows it | evidently intended | confidence | as-written member | corrected member |
|---|---|---|---|---|---|---|
| next-auth.functions.js:51-62 | `find` reads only `provider`; a look-up by `id`, `email` or `emailToken` sends the empty query, which matches every user | a store holding only `{_id: 'alice-id', email: 'alice@example.com'}` and `find({email: 'mallory@example.com'})`: the answer is Alice's record | the criteria the comment at lines 9-15 lists are honoured: the first truthy one of id, email, email token and provider chooses the query | medium (the sign-in page offers email sign-in, which looks users up by email); not executed | `UserAdapter.FindByEmailReturnsAnotherUser` | `UserAdapter.UserStore.FindIntended` |

## Left out

- `UserAdapter.UserStore.FindIntended`: states the result only for the id and email criteria; the email-token and provider branches are stated through `Selects` alone.
- Store failures other than a duplicate `_id` (NeDB's field-name checks, I/O errors): the library decides them and they are not in the code; every other operation is modelled as resolving.
- Arrays met inside a document by a dotted path (NeDB matches such fields element by element), query values that are operator objects, and NeDB's deep comparison of nested objects holding undefined members: `NeDbQuery.GetPath` treats an array as having no fields and compares values structurally.
- A provider name containing `.`: `UserAdapter.UserStore.Find` states the linked-account reading only for names without a dot; with a dot the query addresses a deeper path, which `NeDbQuery.SplitDots` models but no contract spells out.
- The provider criterion of `find` is taken to be an object with a string `name`, as the library passes it; calling `find(null)` (a TypeError while destructuring) is not modelled.
- JavaScript numbers: only integers; NaN and fractions are not modelled.
- The random generation of a fresh `_id` is the parameter `freshId`; asynchronous settlement, the Promise wrapping, `console.log`, `dotenv` and NeDB construction and `loadDatabase` are left out as I/O.
- The passport `Strategy` reference in the Google descriptor (next-auth.providers.js:30) is a foreign class and is not a field of `Providers.ProviderDescriptor`.
- next-auth.config.js (a literal configuration object) and pages/auth/index.js (React rendering) are not part of this model.
- Session issuance, expiry and revalidation, CSRF checking, OAuth handshakes and account linking run inside the `next-auth` library and are not part of this model.
