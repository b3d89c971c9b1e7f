# LTI 1.3 launch validation and OIDC login initiation, in Dafny

This project models the tool side of an LTI 1.3 launch, as implemented by the
atomicjolt-lti TypeScript library, and proves properties of that model.

- **Claim validation** (`src/libs/lti_validation.ts`). `validateIdTokenContents`
  takes a decoded, signature-checked ID token. It returns, in a fixed order,
  the exact error strings for each required message claim that is missing or
  malformed (section 5.3 of the IMS LTI 1.3 Core specification). It also
  applies the `azp` rule of section 3.1.3.7 of OpenID Connect Core 1.0.
  `validateResourceLinkRequest` performs the extra checks for an
  `LtiResourceLinkRequest`.
- **Login initiation** (`src/libs/oidc.ts`). `buildInit` builds three things:
  - the authentication request to the platform (section 5.1.1.2 of the IMS
    Security Framework 1.0), as ten query parameters set on the platform's
    OIDC URL;
  - the state kept for the reply (`buildOIDCState`);
  - the settings for the client page, which include the request URL without
    its `lti_storage_target` parameter (`relaunchInitUrl`).
- **Storage parameters** (`src/libs/platforms.ts`). `getLtiStorageParams` and
  the `SET_POST_MESSAGE_ORIGIN` switch.

Files:

| file | module | contents |
|---|---|---|
| `wrappers.dfy` | `Wrappers` | `Option`, where `None` stands for JavaScript's `undefined` |
| `sequences.dfy` | `Sequences` | order-preserving sublists |
| `lti_definitions.dfy` | `LtiDefinitions` | the token as a record of optional claims; JavaScript truthiness; the claim names as a `ClaimUris` parameter |
| `checklists.dfy` | `Checklists` | a generic "run checks in order, push a message for each that fails" list, with its lemmas |
| `lti_validation.dfy` | `LtiValidation` | both validators, each as a method over a `seq<string>` error list that is proved equal to a checklist; the validator's properties; the corrected validator |
| `search_params.dfy` | `SearchParams` | the query list and its `set`, `delete`, `get` and `getAll` operations, following section 6.2 of the WHATWG URL Standard |
| `urls.dfy` | `Urls` | a `Url` class whose query list is changed in place; serialisation |
| `platforms.dfy` | `Platforms` | `GetLtiStorageParams` |
| `oidc.dfy` | `Oidc` | `BuildOidcState`, `BuildResponse`, `RelaunchInitUrl` and `BuildInit`, with their properties |

Modelling choices:

- The claim URIs (`DEPLOYMENT_ID`, `MESSAGE_TYPE`, ...) and
  `OPEN_ID_COOKIE_PREFIX` are defined in modules that are not part of this
  model. They are passed in as a `ClaimUris` record and a `cookiePrefix`
  argument.
- Lemmas that must tell two messages apart require `ClaimUris.WellFormed()`:
  the six names are pairwise distinct, and each begins with `https://`.
- Randomness and the clock are passed in. `crypto.randomUUID()` becomes two
  parameters, `firstUuid` and `secondUuid`, in the order the identifiers are
  drawn. `new Date().toISOString()` becomes `now`.
- The URL parser is passed in as a function `Parser`. `None` stands for the
  TypeError that `new URL(...)` throws.
- Each validator is written as the source writes it: a straight run of `if`s
  that appends to a local list. A ghost list of the messages pushed so far is
  kept alongside it. The method is proved to return the text of
  `Reported(checks)`, the messages of the checks that fail, in order.
- `ValidateIdTokenContents` pushes through four helper methods. Each helper
  covers one contiguous block of the source's checks, so each can be proved on
  its own.
- An absent token is modelled with its fault. `ValidateIdTokenContents` then
  returns `TypeErrorThrown` and no list.

## Model

| member | source | states |
|---|---|---|
| `LtiValidation.ValidateResourceLinkRequest` | src/libs/lti_validation.ts:11-45 | returns exactly the texts of the four resource-link checks that fail, in source order |
| `LtiValidation.ValidateIdTokenContents` | src/libs/lti_validation.ts:47-107 | an absent token throws rather than returning a list; a present token gets the texts of its failing checks in source order, and the resource-link sub-check's result is dropped; a returned list never holds the missing-token message |
| `LtiValidation.PushRequiredFieldErrors` | src/libs/lti_validation.ts:58-72 | appends the messages for a falsy `exp`, `iss`, `sub` and `aud`, in that order, to the list it is given |
| `LtiValidation.PushAuthorizedPartyErrors` | src/libs/lti_validation.ts:74-80 | appends the result of the two-branch `azp` check to the list |
| `LtiValidation.PushDeploymentErrors` | src/libs/lti_validation.ts:82-88 | appends the messages for a falsy deployment id and a falsy message type to the list |
| `LtiValidation.PushRoleAndVersionErrors` | src/libs/lti_validation.ts:94-104 | appends the messages for an absent roles claim, a falsy version, and a version not starting with "1.3" |
| `LtiValidation.IdTokenErrorsByGroup` | src/libs/lti_validation.ts:52-106 | the full error list is the four blocks' lists concatenated in source order |
| `LtiValidation.TextInjective` | src/libs/lti_validation.ts:55-103 | two different messages have different texts, given distinct claim URIs (two target-link mismatches excepted) |
| `LtiValidation.IdTokenChecksUnique` | src/libs/lti_validation.ts:58-104 | no two checks of `validateIdTokenContents` push the same message |
| `LtiValidation.IdTokenCount` | src/libs/lti_validation.ts:58-104 | each check's text occurs in the output once if the check fails and not at all otherwise |
| `LtiValidation.MissingClaimsReported` | src/libs/lti_validation.ts:58-96 | a falsy `exp`, `iss`, `sub`, `aud`, deployment id, message type or roles claim adds exactly its own message once; a truthy one adds none |
| `LtiValidation.AzpRule` | src/libs/lti_validation.ts:74-80 | with an array `aud` of more than one entry, a falsy `azp` gives the missing-azp message, otherwise a non-member gives "azp is not one of the aud's"; never both; neither for a string or one-element `aud` |
| `LtiValidation.VersionRule` | src/libs/lti_validation.ts:98-104 | a version starting with "1.3" gives no version message; an absent one gives both the missing-claim message and "Invalid LTI version"; "1.2.0" gives "Invalid LTI version" |
| `LtiValidation.ErrorsFollowCheckOrder` | src/libs/lti_validation.ts:58-104 | the output is a sublist of the eleven messages in check order |
| `LtiValidation.AcceptedExactly` | src/libs/lti_validation.ts:52-106 | the output is empty if and only if every checked claim is present and well-formed |
| `LtiValidation.TestTokenAccepted` | src/libs/lti_validation.test.ts:23-43 | the tests' valid token, with any issue time and role, yields the empty list; its resource-link sub-check passes with enforcement on |
| `LtiValidation.NoMismatchReported` | src/libs/lti_validation.ts:90-92 | no target-link mismatch text ever reaches the output |
| `LtiValidation.LinkErrorNotReported` | src/libs/lti_validation.ts:90-92 | no error of the resource-link sub-check ever reaches the output |
| `LtiValidation.NeverReportsResourceLink` | src/libs/lti_validation.ts:90-92 | the output holds no target-link or resource-link message, and does not change when those two claims change |
| `LtiValidation.MissingTokenNeverReported` | src/libs/lti_validation.ts:54-59 | a returned list never contains "LTI token is missing LTI token" |
| `LtiValidation.TargetLinkRule` | src/libs/lti_validation.ts:19-30 | the missing-claim message appears once exactly when the claim is falsy; no mismatch without enforcement or when the claim equals the requested URI; with enforcement and a different claim, a mismatch naming both values; an absent claim under enforcement gives both messages, the mismatch naming "undefined" |
| `LtiValidation.ResourceLinkClaimRule` | src/libs/lti_validation.ts:32-42 | an absent resource-link claim gives both the missing-claim and the missing-id message, once each; a present claim without a truthy `id` gives only the latter |
| `LtiValidation.ResourceLinkAcceptedExactly` | src/libs/lti_validation.ts:17-44 | the sub-check passes if and only if the target link is truthy (and equal to the requested URI under enforcement) and the resource-link claim has a truthy `id` |
| `LtiValidation.DiscardedResourceLinkErrors` | src/libs/lti_validation.ts:90-92 | as written, the test token without its two resource-link claims is accepted, though the sub-check reports four errors for it and the corrected validator reports all four |
| `LtiValidation.CorrectedReportsResourceLink` | src/libs/lti_validation.ts:90-92 | corrected, the output is the as-written output plus, for a resource-link request, every error of the sub-check |
| `LtiValidation.AbsentTokenMessages` | src/libs/lti_validation.ts:58-104 | a token with no claims fails, in order, the `exp`, `iss`, `sub`, `aud`, deployment-id, message-type, roles and version checks and the "1.3" test; the two `azp` checks stay silent |
| `LtiValidation.CorrectedAbsentToken` | src/libs/lti_validation.ts:54-104 | corrected, an absent token yields, in order, the missing-token message and then the messages for a missing `exp`, `iss`, `sub`, `aud`, deployment id, message type, roles and version, and "Invalid LTI version"; the `azp` checks stay silent |
| `Platforms.GetLtiStorageParams` | src/libs/platforms.ts:5-14 | `target` and `platformOIDCUrl` are the arguments; `originSupportBroken` is `!SET_POST_MESSAGE_ORIGIN`, which is false for every input |
| `Oidc.BuildOidcState` | src/libs/oidc.ts:34-43 | the nonce is the first generated identifier, the state the second, the datetime the clock's; distinct identifiers give a state that differs from the nonce |
| `Oidc.RedirectUrl` | src/libs/oidc.ts:10-11 | the redirect URI is "https://", then the request's host, then "/lti/redirect" |
| `Oidc.BuildResponse` | src/libs/oidc.ts:45-66 | a platform URL that does not parse throws; otherwise the result is a new URL: the parsed platform URL with the ten parameters set in source order |
| `Oidc.RelaunchInitUrl` | src/libs/oidc.ts:68-72 | a request URL that does not parse throws; otherwise the result is the serialised request URL with every `lti_storage_target` pair deleted |
| `Oidc.BuildInit` | src/libs/oidc.ts:9-32 | throws exactly when one of the two URLs does not parse; otherwise the state is `buildOIDCState`'s; the URL is the authentication request with that state and nonce and the host's redirect URI; the settings hold the same state, the URL's serialisation, `getLtiStorageParams(platformOIDCUrl, target)`, the relaunch URL and the cookie prefix |
| `Oidc.AuthParamsDistinct` | src/libs/oidc.ts:55-64 | the ten parameter names are pairwise distinct |
| `Oidc.AuthParamsNames` | src/libs/oidc.ts:55-64 | the names set are exactly `response_type`, `redirect_uri`, `response_mode`, `client_id`, `scope`, `state`, `login_hint`, `prompt`, `lti_message_hint` and `nonce` |
| `Oidc.AuthRequestQuery` | src/libs/oidc.ts:54-65 | each of the ten parameters occurs exactly once, with the given or fixed value; every pair with another name stays, in its order; the rest of the URL is untouched |
| `Oidc.InitRequestParams` | src/libs/oidc.ts:13-22 | in the request `buildInit` sends, `state` is the login state's state (the second identifier), `nonce` its nonce (the first), and `redirect_uri` the host's redirect URI |
| `Oidc.RelaunchRemovesStorageTarget` | src/libs/oidc.ts:68-72 | no `lti_storage_target` pair is left; every other pair stays, in its order and with its count; the rest of the URL is untouched; removing again changes nothing |
| `Urls.Url.constructor` | src/libs/oidc.ts:54 | a new URL object holds exactly the parsed components |
| `Urls.Url.SetSearchParam` | src/libs/oidc.ts:55-64 | `searchParams.set` changes only the query list, which afterwards holds exactly the given value under that name |
| `Urls.Url.DeleteSearchParam` | src/libs/oidc.ts:70 | `searchParams.delete` changes only the query list, which afterwards has no pair with that name |
| `SearchParams.WithoutSpec` | src/libs/oidc.ts:70 | deleting names leaves exactly every pair with another name, in its original order, and each other name keeps all its values |
| `SearchParams.DeleteIdempotent` | src/libs/oidc.ts:70 | deleting a name twice is the same as deleting it once |
| `SearchParams.DeleteCount` | src/libs/oidc.ts:70 | a deletion removes exactly as many pairs as carry the name |
| `SearchParams.SetParamGetAll` | src/libs/oidc.ts:55 | after `set`, the name has exactly one value, the new one |
| `SearchParams.SetParamGetAllOther` | src/libs/oidc.ts:55 | `set` leaves every other name's values unchanged |
| `SearchParams.SetParamWithout` | src/libs/oidc.ts:55 | `set` neither removes nor reorders a pair with another name |
| `SearchParams.SetParamInPlace` | src/libs/oidc.ts:55 | `set` overwrites the first pair with the name in its position and keeps the pairs before it |
| `SearchParams.SetParamAppends` | src/libs/oidc.ts:55 | with no pair of that name, `set` appends one at the end |
| `SearchParams.SetParamTwice` | src/libs/oidc.ts:55 | a second `set` of the same name replaces the first; `set` is idempotent |
| `SearchParams.SetAllGetAll` | src/libs/oidc.ts:55-64 | after successive `set`s with distinct names, each name holds exactly the value it was set to |
| `SearchParams.SetAllGetAllOther` | src/libs/oidc.ts:55-64 | successive `set`s leave the values of every name not set unchanged |
| `SearchParams.SetAllWithout` | src/libs/oidc.ts:55-64 | successive `set`s keep every pair whose name was not set, in order |

## Left out

- JWT decoding, signature checking and key handling are not modelled. `validateIdTokenContents` tests only that `exp` is present and truthy (lti_validation.ts:58) and never reads `iat`, so the model makes no time comparison either.
- Numeric claims are unbounded integers. `NaN` and fractions are not modelled, so a falsy number is absent or `0`.
- Claim values whose runtime type differs from the token's declared TypeScript type are not modelled, for example a numeric `ltiVersion` on which `startsWith` would throw.
- The values of the claim-URI constants and of `OPEN_ID_COOKIE_PREFIX` are not part of this model (`lti_definitions` and `constants`); they are parameters.
- `crypto.randomUUID()` and `new Date().toISOString()` are parameters. Nothing about their randomness or uniqueness is modelled.
- URL parsing is a parameter. Nothing is said about how `.host` is derived from the text.
- `Oidc.RelaunchRemovesStorageTarget`: idempotence is proved on the parsed URL, not on the string. A string-level statement needs the parser to read back what the serialiser writes, and the parser is outside the model.
- `Urls.Serialize` writes no username, password or port of its own (the port is part of `host`) and applies no percent-encoding (`application/x-www-form-urlencoded` serialisation).
- A claim explicitly set to `null` is not modelled apart from an absent one. Both are falsy, but the target-link mismatch message would write `null` where `LtiDefinitions.Render` writes `undefined`.
- Cookies, session storage of the OIDC state and HTTP handling are external I/O and are left out.
- The types in `src/types.d.ts` other than `OIDCState` have no behaviour in the core and are left out.

## Findings

| source | as written | input that shows it | evidently intended | confidence | as-written member | corrected member |
|---|---|---|---|---|---|---|
| src/libs/lti_validation.ts:90-92 | `errors.concat(...)` builds a new array and drops it. The resource-link sub-check never reaches the result. | the tests' valid token with the target-link and resource-link claims removed: `validateIdTokenContents` returns `[]`, though the sub-check reports four errors | append the sub-check's errors to `errors` | high, not executed | `LtiValidation.DiscardedResourceLinkErrors` | `LtiValidation.CorrectedReportsResourceLink` |
| src/libs/lti_validation.ts:54-58 | a falsy token pushes the missing-token message, then `decodedToken.exp` is read and throws a TypeError | `decodedToken = undefined` | report the absent token and go on with the remaining checks, run against a token with no claims | high, not executed | `LtiValidation.ValidateIdTokenContents` | `LtiValidation.CorrectedAbsentToken` |
