# Microsoft Entra ID provider: a verified model

This project models the custom Microsoft Entra ID identity provider of the
workplace application (`src/next-auth-providers/MicrosoftEntraProvider.ts`).
The provider factory has two parts:

- **Tenant extraction and endpoint derivation** (modules `Tenant` and
  `EntraProvider`). The tenant comes from the configured issuer URL through
  the regular expression `/\/([^\/]+)\/wsfed$/`, with `"common"` as the
  fallback. The descriptor's issuer, authorization, token and discovery URLs
  are fixed templates on `https://login.microsoftonline.com/` with that tenant
  in the path.
- **Profile normalisation** (module `Profile`). The `profile` callback maps
  the raw identity-provider profile to `{id, name, email, image}`. Each of the
  first three fields is a JavaScript `||` fallback chain over profile claims.
  `image` is a JPEG data URI of the Microsoft Graph profile photo, fetched
  only when the tokens carry an access token.

The regular expression is modelled as a search over start positions:
`Tenant.MatchAt` is the pattern tried at one position, and
`Tenant.FirstMatch` is the leftmost match, which is what
`String.prototype.match` reports without the `g` flag. The independent
description it is proved against is `Tenant.Decomposes`: the issuer is
`prefix + "/" + seg + "/wsfed"` with `seg` non-empty and free of `/`.

JavaScript values are modelled as follows:

- A profile claim is an `Option<string>`, with `None` for a missing claim.
- Truthiness of a claim is `Some(s)` with `s != ""`.
- `a || b` yields `a` when `a` is truthy and `b` otherwise. So when every
  operand of a chain is falsy, the chain yields its LAST operand. For
  example, `profile.id` is returned even when it is the empty string.

The photo request is I/O. Its outcome is a parameter (`Profile.PhotoResponse`),
and so is whether the runtime defines `Buffer`. The payload's base64 encoding
is taken as already done.

Two consequences of `||` are stated by the model:

- `||` skips an empty-string claim as well as a missing one.
- When every candidate is falsy, the chain yields the last candidate
  (possibly `""`), not `undefined`.

## Model

| member | source | states |
|---|---|---|
| Tenant.MatchAt | src/next-auth-providers/MicrosoftEntraProvider.ts:13 | the pattern tried at start position i captures seg exactly when the issuer is s[..i] + "/" + seg + "/wsfed" with seg non-empty and slash-free |
| Tenant.FirstMatch | src/next-auth-providers/MicrosoftEntraProvider.ts:13 | a capture returned by the leftmost-match search always comes from a genuine decomposition of the issuer at some start position |
| Tenant.TenantId | src/next-auth-providers/MicrosoftEntraProvider.ts:13 | the tenant is never empty and never contains "/" |
| Tenant.FirstMatchComplete | src/next-auth-providers/MicrosoftEntraProvider.ts:13 | every decomposition prefix + "/" + seg + "/wsfed" is found by the regular expression, with capture seg, and no start position before the slash in front of seg matches |
| Tenant.DecompositionUnique | src/next-auth-providers/MicrosoftEntraProvider.ts:13 | an issuer has at most one decomposition: prefix and segment are both determined by the issuer |
| Tenant.TenantIsSegment | src/next-auth-providers/MicrosoftEntraProvider.ts:13 | an issuer of the form prefix + "/" + seg + "/wsfed" yields tenant seg |
| Tenant.TenantFallsBack | src/next-auth-providers/MicrosoftEntraProvider.ts:13 | an issuer with no such decomposition yields tenant "common" |
| Tenant.FallbackOnlyWithoutMatch | src/next-auth-providers/MicrosoftEntraProvider.ts:13 | the fallback to "common" applies only when the regular expression does not match; a match always gives its capture |
| Tenant.TenantCharacterisation | src/next-auth-providers/MicrosoftEntraProvider.ts:13 | every issuer either decomposes and yields its segment, or has no decomposition and yields "common" |
| Tenant.NoSuffixNoDecomposition | src/next-auth-providers/MicrosoftEntraProvider.ts:13 | an issuer that does not end in "/wsfed" has no decomposition |
| EntraProvider.MicrosoftEntraProvider | src/next-auth-providers/MicrosoftEntraProvider.ts:15-68 | the descriptor has id "microsoft-entra-id", type "oauth", idToken true, client_secret_post authentication, scope "openid profile email User.Read", checks ["state"], and options equal to the input config |
| EntraProvider.Endpoint | src/next-auth-providers/MicrosoftEntraProvider.ts:21-29 | a template URL is the login host prefix, then the tenant, then the template's path, each at its fixed position |
| EntraProvider.TenantOfEndpoint | src/next-auth-providers/MicrosoftEntraProvider.ts:21-29 | a tenant read back from an endpoint URL is non-empty, slash-free, and rebuilds exactly that URL through the template |
| EntraProvider.EndpointRoundTrip | src/next-auth-providers/MicrosoftEntraProvider.ts:21-29 | every well-formed tenant is recovered from the URL its template produces |
| EntraProvider.EndpointsCarryTenant | src/next-auth-providers/MicrosoftEntraProvider.ts:21-29 | the issuer, authorization, token and well-known URLs each carry the extracted tenant in their own template |
| EntraProvider.EndpointsEmbedSegment | src/next-auth-providers/MicrosoftEntraProvider.ts:13-29 | for an issuer prefix + "/" + seg + "/wsfed", all four endpoints are the templates with seg interpolated |
| EntraProvider.EndpointsUseCommon | src/next-auth-providers/MicrosoftEntraProvider.ts:13-29 | for an issuer without that shape, all four endpoints are the templates with "common" interpolated |
| EntraProvider.OnlyIssuerMatters | src/next-auth-providers/MicrosoftEntraProvider.ts:13-68 | two configs with the same issuer give the same descriptor apart from options: clientId and clientSecret reach no URL |
| EntraProvider.DistinctTenantsDistinctEndpoints | src/next-auth-providers/MicrosoftEntraProvider.ts:21-29 | issuers with different tenants never share any of the four endpoints |
| EntraProvider.ExampleWithoutTenant | src/next-auth-providers/MicrosoftEntraProvider.ts:13-23 | the issuer https://example.com/foo gives the authorization URL of the "common" tenant |
| EntraProvider.ExampleWithTenant | src/next-auth-providers/MicrosoftEntraProvider.ts:13-29 | the issuer https://sts.example/contoso/wsfed gives the token URL of tenant "contoso" |
| Profile.Or | src/next-auth-providers/MicrosoftEntraProvider.ts:54-56 | the JavaScript or-operator is truthy exactly when an operand is, yields the left operand when it is truthy, and yields the right operand otherwise, whatever it is |
| Profile.FirstTruthy | src/next-auth-providers/MicrosoftEntraProvider.ts:54-56 | the reference fallback is None exactly when no candidate is truthy, and is otherwise a truthy candidate of the list |
| Profile.FirstTruthyAt | src/next-auth-providers/MicrosoftEntraProvider.ts:54-56 | the reference fallback picks the candidate at the first truthy position |
| Profile.OrChain2 | src/next-auth-providers/MicrosoftEntraProvider.ts:55 | the two-operand or-chain (name, displayName) is the first truthy operand when there is one, and otherwise the last |
| Profile.OrChain3 | src/next-auth-providers/MicrosoftEntraProvider.ts:54 | the three-operand or-chain (sub, oid, id) is the first truthy operand when there is one, and otherwise the last |
| Profile.AccessToken | src/next-auth-providers/MicrosoftEntraProvider.ts:37 | optional chaining: missing tokens give no access token, and a present token set gives exactly its access_token field |
| Profile.PhotoRequestFor | src/next-auth-providers/MicrosoftEntraProvider.ts:37-41 | a photo request is made exactly when the access token is truthy; it goes to the Graph 648x648 photo URL with the token as bearer credential |
| Profile.Image | src/next-auth-providers/MicrosoftEntraProvider.ts:35-51 | the image is present exactly when a request was made, it succeeded with an ok status, Buffer exists and the payload was read |
| Profile.ImagePayload | src/next-auth-providers/MicrosoftEntraProvider.ts:46 | a payload read back from a data URI rebuilds that URI behind the "data:image/jpeg;base64, " prefix |
| Profile.ImageRoundTrip | src/next-auth-providers/MicrosoftEntraProvider.ts:43-46 | a present image is a data URI whose payload is exactly the response body |
| Profile.Normalize | src/next-auth-providers/MicrosoftEntraProvider.ts:35-58 | id, name and email are each truthy exactly when one of their candidates is, and then equal the first truthy candidate (sub, oid, id / name, displayName / email, preferred_username, upn); otherwise they are the last candidate; the image is the photo step's result, which needs a truthy access token |
| Profile.PrimaryClaimsWin | src/next-auth-providers/MicrosoftEntraProvider.ts:54-56 | a truthy sub, name or email claim always wins over the later candidates |
| Profile.NoTokenNoImage | src/next-auth-providers/MicrosoftEntraProvider.ts:35-37 | without a truthy access token there is no photo request and image is null, whatever the photo endpoint would answer |
| Profile.IdentityIgnoresPhoto | src/next-auth-providers/MicrosoftEntraProvider.ts:53-58 | id, name and email do not depend on the tokens, the photo response or the runtime |
| Profile.ExampleSubject | src/next-auth-providers/MicrosoftEntraProvider.ts:53-58 | {sub "abc", name "A", email "a@x.com"} without tokens maps to {id "abc", name "A", email "a@x.com", image null} |
| Profile.ExampleDirectoryClaims | src/next-auth-providers/MicrosoftEntraProvider.ts:53-58 | {oid "xyz", displayName "B", upn "b@y.com"} maps to id "xyz", name "B", email "b@y.com"; a failed photo fetch gives image null |
| Profile.ExampleEmptyClaims | src/next-auth-providers/MicrosoftEntraProvider.ts:54 | an empty sub is skipped like a missing one, and with every id claim falsy the chain yields the last one, "" |

## Left out

- The Graph photo fetch itself, `arrayBuffer`, and the base64 encoding by `Buffer` (lines 38-47). These are network I/O and a runtime library. Their outcome is the `PhotoResponse` parameter and the `bufferDefined` flag.
- The `try`/`catch` around the photo step (lines 36-51). Any throw inside it is modelled as a `FetchFailed` response, or as a response whose body is `None`.
- The `console.log` calls and the `style` block (lines 32, 50, 60, 63-67). They are logging and display constants.
- The descriptor's `name` field, "Microsoft Entra ID", is kept but no property is stated about it.
- The `profile` callback as a field of the descriptor. It is `Profile.Normalize`, a separate function, because a datatype holding a function would add nothing to prove.
- Non-string claim values (numbers, booleans, objects) in the untyped profile. Claims are `Option<string>`, so falsy values other than `undefined` and `""` are not modelled.
- The OAuth/OIDC flow of the authentication framework: token exchange, state checking and session issuance. That code belongs to a third-party library.
- The account-link adapter patch and the session callback in `src/pages/api/auth/[...nextauth].tsx`. They are outside the provider factory this model covers.
- The provider registry in `src/pages/api/auth/[...nextauth].tsx`. It calls `MicrosoftEntraProvider` unconditionally when the module loads (lines 24-31) and only afterwards filters the provider list by whether the three environment variables are strings (lines 18-22, 52).
- EntraProvider.MicrosoftEntraProvider: takes the issuer as a `string`, as the declared config type does. A non-string issuer is not modelled: `config.issuer.match(...)` at line 13 throws a TypeError when `issuer` is `undefined`, because the optional chaining applies to the match result and not to `issuer`. The only caller passes `process.env.MICROSOFT_ENTRA_ISSUER!`, which is `undefined` when that variable is unset, so a deployment without it fails when the authentication module loads.
- `deploy/health-check.js`. It is a single HTTPS request with process exit codes.
- `prisma/seed-production.ts`. It is a database check and insert through an ORM.
- `src/theme/index.ts` and `src/pages/index.tsx`. They are a UI theme constant and a constant redirect.
