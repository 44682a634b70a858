/**
 The `profile` callback of the Microsoft Entra ID provider: it maps the raw
 profile the identity provider returns to the application's identity record
 `{id, name, email, image}`.

 The raw profile is untyped; each claim it may carry is an `Option<string>`
 here (`None` for a missing or `undefined` claim). The three identity fields
 are chains of JavaScript `||`, which skip every falsy operand, so an empty
 string counts as absent. The profile photo comes from an HTTP request made
 only when the tokens carry an access token; the outcome of that request is
 a parameter of the model.
 */
module Profile {
  import opened Wrappers

  datatype RawProfile = RawProfile(
    sub: Option<string>,
    oid: Option<string>,
    id: Option<string>,
    name: Option<string>,
    displayName: Option<string>,
    email: Option<string>,
    preferredUsername: Option<string>,
    upn: Option<string>)

  /** The token set the framework passes in; the tokens may be missing. */
  datatype TokenSet = TokenSet(accessToken: Option<string>)

  /** What the photo request came to. `body` is the payload already encoded
      in base64, or `None` when reading the payload failed. */
  datatype PhotoResponse =
    | FetchFailed
    | Response(ok: bool, body: Option<string>)

  /** The request sent for the profile photo. */
  datatype PhotoRequest = PhotoRequest(url: string, authorization: string)

  /** The normalised identity; `image` is `None` for `null`. */
  datatype Identity = Identity(
    id: Option<string>,
    name: Option<string>,
    email: Option<string>,
    image: Option<string>)

  const PhotoUrl: string := "https://graph.microsoft.com/v1.0/me/photos/648x648/$value"
  const DataUriPrefix: string := "data:image/jpeg;base64, "

  /** JavaScript truthiness of an optional string claim. */
  predicate Truthy(v: Option<string>) {
    v.Some? && v.value != ""
  }

  /** JavaScript `a || b`: the left operand when it is truthy, otherwise
      the right one, whatever it is. */
  function Or(a: Option<string>, b: Option<string>): (r: Option<string>)
    ensures Truthy(r) <==> Truthy(a) || Truthy(b)
    ensures Truthy(a) ==> r == a
    ensures !Truthy(a) ==> r == b
  {
    if Truthy(a) then a else b
  }

  /** Reference meaning of a fallback chain: the first truthy candidate, or
      `None` when there is none. */
  function FirstTruthy(xs: seq<Option<string>>): (r: Option<string>)
    ensures r.None? <==> forall i :: 0 <= i < |xs| ==> !Truthy(xs[i])
    ensures r.Some? ==> Truthy(r) && r in xs
  {
    if xs == [] then None
    else if Truthy(xs[0]) then xs[0]
    else FirstTruthy(xs[1..])
  }

  /** `FirstTruthy` picks the candidate at the first truthy position. */
  lemma {:induction false} FirstTruthyAt(xs: seq<Option<string>>, i: nat)
    requires i < |xs| && Truthy(xs[i])
    requires forall j :: 0 <= j < i ==> !Truthy(xs[j])
    ensures FirstTruthy(xs) == xs[i]
  {
    if i > 0 {
      assert !Truthy(xs[0]);
      FirstTruthyAt(xs[1..], i - 1);
    }
  }

  /** A two-operand `||` chain is the first truthy operand when there is
      one, and otherwise its last operand. */
  lemma OrChain2(a: Option<string>, b: Option<string>)
    ensures Truthy(Or(a, b)) ==> Or(a, b) == FirstTruthy([a, b])
    ensures !Truthy(Or(a, b)) ==> FirstTruthy([a, b]).None? && Or(a, b) == b
  {
    if Truthy(a) {
      FirstTruthyAt([a, b], 0);
    } else if Truthy(b) {
      FirstTruthyAt([a, b], 1);
    }
  }

  /** The same for the three-operand chain `a || b || c`. */
  lemma OrChain3(a: Option<string>, b: Option<string>, c: Option<string>)
    ensures Truthy(Or(Or(a, b), c)) ==> Or(Or(a, b), c) == FirstTruthy([a, b, c])
    ensures !Truthy(Or(Or(a, b), c)) ==> FirstTruthy([a, b, c]).None? && Or(Or(a, b), c) == c
  {
    if Truthy(a) {
      FirstTruthyAt([a, b, c], 0);
    } else if Truthy(b) {
      FirstTruthyAt([a, b, c], 1);
    } else if Truthy(c) {
      FirstTruthyAt([a, b, c], 2);
    }
  }

  /** `tokens?.access_token`: a missing token set short-circuits to
      `undefined` instead of failing. */
  function AccessToken(tokens: Option<TokenSet>): (token: Option<string>)
    ensures tokens.None? ==> token.None?
    ensures tokens.Some? ==> token == tokens.value.accessToken
  {
    match tokens
    case None => None
    case Some(t) => t.accessToken
  }

  /** The photo request the callback sends, if any: one is sent exactly when
      the access token is truthy, and it carries that token as a bearer
      credential. */
  function PhotoRequestFor(tokens: Option<TokenSet>): (req: Option<PhotoRequest>)
    ensures req.Some? <==> Truthy(AccessToken(tokens))
    ensures req.Some? ==> req.value.url == PhotoUrl
                          && req.value.authorization == "Bearer " + AccessToken(tokens).value
  {
    var token := AccessToken(tokens);
    if Truthy(token) then Some(PhotoRequest(PhotoUrl, "Bearer " + token.value)) else None
  }

  /** The `image` field. A failed request, a non-success status, a missing
      `Buffer` or a failed read of the payload all leave it `null`; none of
      them is an error of the callback. */
  function Image(tokens: Option<TokenSet>, response: PhotoResponse, bufferDefined: bool): (image: Option<string>)
    ensures image.Some? <==> PhotoRequestFor(tokens).Some? && response.Response?
                             && response.ok && bufferDefined && response.body.Some?
  {
    if PhotoRequestFor(tokens).None? then None
    else match response
      case FetchFailed => None
      case Response(ok, body) =>
        if ok && bufferDefined && body.Some? then Some(DataUriPrefix + body.value) else None
  }

  /** Recovers the base64 payload from a data URI built by `Image`. */
  function ImagePayload(uri: string): (payload: Option<string>)
    ensures payload.Some? ==> uri == DataUriPrefix + payload.value
  {
    if |uri| >= |DataUriPrefix| && uri[..|DataUriPrefix|] == DataUriPrefix
    then
      assert uri == uri[..|DataUriPrefix|] + uri[|DataUriPrefix|..];
      Some(uri[|DataUriPrefix|..])
    else None
  }

  /** The image, when there is one, is a JPEG data URI carrying exactly the
      payload of the response. */
  lemma ImageRoundTrip(tokens: Option<TokenSet>, response: PhotoResponse, bufferDefined: bool)
    requires Image(tokens, response, bufferDefined).Some?
    ensures response.Response? && response.body.Some?
    ensures ImagePayload(Image(tokens, response, bufferDefined).value) == Some(response.body.value)
  {
    var uri := Image(tokens, response, bufferDefined).value;
    assert uri[..|DataUriPrefix|] == DataUriPrefix;
    assert uri[|DataUriPrefix|..] == response.body.value;
  }

  /** The `profile` callback. */
  function Normalize(profile: RawProfile, tokens: Option<TokenSet>, response: PhotoResponse, bufferDefined: bool): (r: Identity)
    ensures Truthy(r.id) <==> Truthy(profile.sub) || Truthy(profile.oid) || Truthy(profile.id)
    ensures Truthy(r.id) ==> r.id == FirstTruthy([profile.sub, profile.oid, profile.id])
    ensures !Truthy(r.id) ==> r.id == profile.id
    ensures Truthy(r.name) <==> Truthy(profile.name) || Truthy(profile.displayName)
    ensures Truthy(r.name) ==> r.name == FirstTruthy([profile.name, profile.displayName])
    ensures !Truthy(r.name) ==> r.name == profile.displayName
    ensures Truthy(r.email) <==> Truthy(profile.email) || Truthy(profile.preferredUsername) || Truthy(profile.upn)
    ensures Truthy(r.email) ==> r.email == FirstTruthy([profile.email, profile.preferredUsername, profile.upn])
    ensures !Truthy(r.email) ==> r.email == profile.upn
    ensures r.image.Some? ==> Truthy(AccessToken(tokens))
    ensures r.image == Image(tokens, response, bufferDefined)
  {
    OrChain3(profile.sub, profile.oid, profile.id);
    OrChain2(profile.name, profile.displayName);
    OrChain3(profile.email, profile.preferredUsername, profile.upn);
    Identity(
      id := Or(Or(profile.sub, profile.oid), profile.id),
      name := Or(profile.name, profile.displayName),
      email := Or(Or(profile.email, profile.preferredUsername), profile.upn),
      image := Image(tokens, response, bufferDefined))
  }

  /** A truthy `email` claim always wins over `preferred_username` and
      `upn`, and likewise `sub` for the id and `name` for the name. */
  lemma PrimaryClaimsWin(profile: RawProfile, tokens: Option<TokenSet>, response: PhotoResponse, bufferDefined: bool)
    ensures var r := Normalize(profile, tokens, response, bufferDefined);
            && (Truthy(profile.sub) ==> r.id == profile.sub)
            && (Truthy(profile.name) ==> r.name == profile.name)
            && (Truthy(profile.email) ==> r.email == profile.email)
  {
  }

  /** Without a truthy access token no photo request is made and `image`
      is `null`, whatever the photo endpoint would have answered. */
  lemma NoTokenNoImage(profile: RawProfile, tokens: Option<TokenSet>, response: PhotoResponse, bufferDefined: bool)
    requires !Truthy(AccessToken(tokens))
    ensures PhotoRequestFor(tokens).None?
    ensures Normalize(profile, tokens, response, bufferDefined).image.None?
  {
  }

  /** `id`, `name` and `email` never depend on the tokens or on the outcome
      of the photo step. */
  lemma IdentityIgnoresPhoto(profile: RawProfile,
                             t1: Option<TokenSet>, resp1: PhotoResponse, buf1: bool,
                             t2: Option<TokenSet>, resp2: PhotoResponse, buf2: bool)
    ensures Normalize(profile, t1, resp1, buf1).(image := None)
            == Normalize(profile, t2, resp2, buf2).(image := None)
  {
  }

  const NoClaims: RawProfile := RawProfile(None, None, None, None, None, None, None, None)

  /** A profile with `sub`, `name` and `email` and no tokens maps to those
      three claims and a `null` image. */
  lemma ExampleSubject()
    ensures Normalize(NoClaims.(sub := Some("abc"), name := Some("A"), email := Some("a@x.com")),
                      None, FetchFailed, true)
            == Identity(Some("abc"), Some("A"), Some("a@x.com"), None)
  {
  }

  /** A profile carrying only the directory claims `oid`, `displayName` and
      `upn` maps to those. */
  lemma ExampleDirectoryClaims()
    ensures var r := Normalize(NoClaims.(oid := Some("xyz"), displayName := Some("B"), upn := Some("b@y.com")),
                               Some(TokenSet(Some("tok"))), FetchFailed, true);
            r == Identity(Some("xyz"), Some("B"), Some("b@y.com"), None)
  {
  }

  /** An empty `sub` is skipped like a missing one, and when every id claim
      is falsy the last one is what the chain yields. */
  lemma ExampleEmptyClaims()
    ensures Normalize(NoClaims.(sub := Some(""), oid := Some("o1")), None, FetchFailed, false).id == Some("o1")
    ensures Normalize(NoClaims.(sub := Some("o1"), id := Some("")), None, FetchFailed, false).id == Some("o1")
    ensures Normalize(NoClaims.(sub := Some(""), id := Some("")), None, FetchFailed, false).id == Some("")
  {
  }
}
