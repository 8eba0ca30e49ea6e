/** The OAuth provider list: built from the Google client credentials found
    in the environment, with Google's profile normaliser. The environment
    values are parameters (`None` for a variable that is not set). */
module Providers {
  import opened Js

  /** Truthiness of an environment value: set, and not the empty string. */
  predicate IsSet(v: Option<string>) {
    v.Some? && v.value != ""
  }

  /** An OAuth provider descriptor: its name, the options passed to the
      provider (the requested scope) and the strategy's client credentials.
      Its profile normaliser is `GetProfile`. */
  datatype ProviderDescriptor = ProviderDescriptor(
    providerName: string,
    scope: seq<string>,
    clientID: string,
    clientSecret: string)

  const GoogleScope: seq<string> := ["profile", "email"]

  /** The provider list: Google is in it exactly when both its client id and
      its client secret are set, with those credentials and the profile and
      email scopes; nothing else ever is. */
  method BuildProviders(googleId: Option<string>, googleSecret: Option<string>) returns (providers: seq<ProviderDescriptor>)
    ensures providers != [] <==> IsSet(googleId) && IsSet(googleSecret)
    ensures |providers| <= 1
    ensures forall d :: d in providers ==>
              && d.providerName == "Google"
              && d.scope == ["profile", "email"]
              && googleId == Some(d.clientID)
              && googleSecret == Some(d.clientSecret)
  {
    providers := [];
    if IsSet(googleId) && IsSet(googleSecret) {
      providers := providers + [ProviderDescriptor("Google", GoogleScope, googleId.value, googleSecret.value)];
    }
  }

  /** Google's `getProfile(profile)`: the `{id, name, email}` record of a raw
      profile, its email being the value of the first entry of `emails`.
      Reading `emails[0].value` throws a TypeError when `emails` or its
      first entry is undefined or null; so does a profile that is not an
      object (undefined and null throw at `profile.id`, any other value has
      no `emails`). */
  function GetProfile(profile: Value): (r: Outcome<Doc>)
    ensures r.Resolved? ==> r.value.Keys == {"id", "name", "email"}
    ensures r.Resolved? ==> profile.Obj? && r.value["id"] == Get(profile.fields, "id") && r.value["name"] == Get(profile.fields, "displayName")
    ensures r.Rejected? ==> r.error == TypeError
    ensures r.Rejected? <==>
              || !profile.Obj?
              || Nullish(Get(profile.fields, "emails"))
              || Nullish(ElementZero(Get(profile.fields, "emails")).value)
    ensures profile.Obj? ==>
              var emails := Get(profile.fields, "emails");
              emails.Arr? && |emails.elems| > 0 && emails.elems[0].Obj? ==>
                r == Resolved(map[
                  "id" := Get(profile.fields, "id"),
                  "name" := Get(profile.fields, "displayName"),
                  "email" := Get(emails.elems[0].fields, "value")])
  {
    match profile
    case Obj(fields) =>
      var first := ElementZero(Get(fields, "emails"));
      if first.Rejected? then Rejected(first.error)
      else
        var email := Member(first.value, "value");
        if email.Rejected? then Rejected(email.error)
        else Resolved(map["id" := Get(fields, "id"), "name" := Get(fields, "displayName"), "email" := email.value])
    case _ => Rejected(TypeError)
  }

  /** A profile as the Google strategy delivers it: the account id, the
      display name and the account's email addresses. */
  datatype GoogleProfile = GoogleProfile(id: string, displayName: string, emails: seq<string>) {
    /** The profile as a JavaScript object, with fields the normaliser does
        not read. */
    function AsValue(): Value {
      Obj(map[
        "provider" := Str("google"),
        "id" := Str(id),
        "displayName" := Str(displayName),
        "emails" := Arr(seq(|emails|, i requires 0 <= i < |emails| => Obj(map["value" := Str(emails[i]), "type" := Str("account")]))),
        "_json" := Obj(map["sub" := Str(id)])
      ])
    }
  }

  /** On a Google profile the normaliser keeps the id, the display name and
      the first address, and throws exactly when there is no address. */
  lemma GetProfileOfGoogleProfile(p: GoogleProfile)
    ensures |p.emails| > 0 ==>
      GetProfile(p.AsValue()) == Resolved(map["id" := Str(p.id), "name" := Str(p.displayName), "email" := Str(p.emails[0])])
    ensures |p.emails| == 0 ==> GetProfile(p.AsValue()) == Rejected(TypeError)
  {
  }

  /** Only `id`, `displayName` and the first entry of `emails` reach the
      normalised profile: two profiles that agree on these normalise alike. */
  lemma GetProfileReadsOnlyItsFields(a: Doc, b: Doc)
    requires Get(a, "id") == Get(b, "id") && Get(a, "displayName") == Get(b, "displayName")
    requires ElementZero(Get(a, "emails")) == ElementZero(Get(b, "emails"))
    ensures GetProfile(Obj(a)) == GetProfile(Obj(b))
  {
  }
}
