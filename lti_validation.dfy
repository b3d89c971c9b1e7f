/**
 * The LTI 1.3 launch claim validator: given a decoded ID token whose
 * signature has already been checked, it lists, in a fixed order, every
 * required message claim of section 5.3 of the IMS LTI 1.3 Core
 * specification that is missing or malformed.  An empty list means the
 * token is accepted.
 *
 * Each of the two validator functions of the source is a method that pushes
 * onto an `errors` list through a sequence of `if`s; each is proved equal
 * to the text of a checklist (`Checklists.Reported`), and the properties
 * of the validator are lemmas about those checklists.
 */
module LtiValidation {
  import opened Wrappers
  import opened LtiDefinitions
  import opened Checklists
  import opened Sequences

  // ---------------------------------------------------------------------
  // Messages and their exact text.

  /** The token members whose absence is reported as a missing "field". */
  datatype TokenField = Exp | Iss | Sub | Aud | Azp | DeploymentId | ResourceLinkId

  /** The LTI claims whose absence is reported as a missing "claim". */
  datatype TokenClaim = MessageType | Roles | LtiVersion | TargetLinkUri | ResourceLink

  /** The messages the validator can push. */
  datatype Message =
    | MissingToken
    | MissingField(field: TokenField)
    | MissingClaim(claim: TokenClaim)
    | AzpNotInAud
    | InvalidVersion
    | TargetLinkMismatch(got: string, wanted: string)

  const FieldPrefix: string := "LTI token is missing required field "
  const ClaimPrefix: string := "LTI token is missing required claim "

  /** The `LtiResourceLinkRequest` message type. */
  const ResourceLinkRequestType: string := "LtiResourceLinkRequest"

  /** How a field is named in its message; the deployment id is named by its claim URI. */
  function FieldName(f: TokenField, uris: ClaimUris): string {
    match f
    case Exp => "exp"
    case Iss => "iss"
    case Sub => "sub"
    case Aud => "aud"
    case Azp => "azp"
    case DeploymentId => uris.deploymentId
    case ResourceLinkId => "id from the claim " + uris.resourceLink
  }

  function ClaimName(c: TokenClaim, uris: ClaimUris): string {
    match c
    case MessageType => uris.messageType
    case Roles => uris.roles
    case LtiVersion => uris.ltiVersion
    case TargetLinkUri => uris.targetLinkUri
    case ResourceLink => uris.resourceLink
  }

  /** The exact string the source pushes for a message. */
  function Text(m: Message, uris: ClaimUris): string {
    match m
    case MissingToken => "LTI token is missing LTI token"
    case MissingField(f) => FieldPrefix + FieldName(f, uris)
    case MissingClaim(c) => ClaimPrefix + ClaimName(c, uris)
    case AzpNotInAud => "azp is not one of the aud's"
    case InvalidVersion => "Invalid LTI version"
    case TargetLinkMismatch(got, wanted) =>
      "LTI token target link uri '" + got + "' doesn't match url '" + wanted + "'"
  }

  function Texts(ms: seq<Message>, uris: ClaimUris): (ss: seq<string>)
    ensures |ss| == |ms|
  {
    seq(|ms|, i requires 0 <= i < |ms| => Text(ms[i], uris))
  }

  // ---------------------------------------------------------------------
  // The checklists.

  /** `Array.isArray(aud) && aud.length > 1`: the case in which `azp` is checked. */
  predicate MultiAudience(t: IdToken) {
    t.aud.Some? && t.aud.value.Many? && |t.aud.value.values| > 1
  }

  /** `decodedToken[LTI_VERSION]?.startsWith('1.3')` is truthy. */
  predicate VersionIsLti13(t: IdToken) {
    t.ltiVersion.Some? && "1.3" <= t.ltiVersion.value
  }

  /** The checks of `validateResourceLinkRequest`, in source order. */
  function ResourceLinkChecks(t: IdToken, requestedTargetLinkUri: string, validateTargetLinkUrl: bool): seq<Check<Message>> {
    [ Check(!StrTruthy(t.targetLinkUri), MissingClaim(TargetLinkUri)),
      // JavaScript's `!=` between a string and undefined is true
      Check(validateTargetLinkUrl && t.targetLinkUri != Some(requestedTargetLinkUri),
            TargetLinkMismatch(Render(t.targetLinkUri), requestedTargetLinkUri)),
      Check(t.resourceLink.None?, MissingClaim(ResourceLink)),
      Check(!(t.resourceLink.Some? && StrTruthy(t.resourceLink.value.id)), MissingField(ResourceLinkId)) ]
  }

  function ResourceLinkMessages(t: IdToken, requestedTargetLinkUri: string, validateTargetLinkUrl: bool): seq<Message> {
    Reported(ResourceLinkChecks(t, requestedTargetLinkUri, validateTargetLinkUrl))
  }

  /** What `validateResourceLinkRequest` returns. */
  function ResourceLinkErrors(t: IdToken, requestedTargetLinkUri: string, validateTargetLinkUrl: bool, uris: ClaimUris): seq<string> {
    Texts(ResourceLinkMessages(t, requestedTargetLinkUri, validateTargetLinkUrl), uris)
  }

  /** The checks of `exp`, `iss`, `sub` and `aud`. */
  function RequiredFieldChecks(t: IdToken): seq<Check<Message>> {
    [ Check(!NumTruthy(t.exp), MissingField(Exp)),
      Check(!StrTruthy(t.iss), MissingField(Iss)),
      Check(!StrTruthy(t.sub), MissingField(Sub)),
      Check(!AudTruthy(t.aud), MissingField(Aud)) ]
  }

  /** The two branches of the `azp` check. */
  function AuthorizedPartyChecks(t: IdToken): seq<Check<Message>> {
    [ Check(MultiAudience(t) && !StrTruthy(t.azp), MissingField(Azp)),
      Check(MultiAudience(t) && StrTruthy(t.azp) && t.azp.value !in t.aud.value.values, AzpNotInAud) ]
  }

  /** The checks of the deployment id and the message type, the last before the message-type dispatch. */
  function DeploymentChecks(t: IdToken): seq<Check<Message>> {
    [ Check(!StrTruthy(t.deploymentId), MissingField(DeploymentId)),
      Check(!StrTruthy(t.messageType), MissingClaim(MessageType)) ]
  }

  /** The checks after the message-type dispatch. */
  function RoleAndVersionChecks(t: IdToken): seq<Check<Message>> {
    [ Check(t.roles.None?, MissingClaim(Roles)),
      Check(!StrTruthy(t.ltiVersion), MissingClaim(LtiVersion)),
      Check(!VersionIsLti13(t), InvalidVersion) ]
  }

  function ChecksBeforeDispatch(t: IdToken): seq<Check<Message>> {
    RequiredFieldChecks(t) + AuthorizedPartyChecks(t) + DeploymentChecks(t)
  }

  /** The checks of `validateIdTokenContents`, in source order. */
  function IdTokenChecks(t: IdToken): seq<Check<Message>> {
    ChecksBeforeDispatch(t) + RoleAndVersionChecks(t)
  }

  function IdTokenMessages(t: IdToken): seq<Message> {
    Reported(IdTokenChecks(t))
  }

  /** What `validateIdTokenContents` returns for a present token. */
  function IdTokenErrors(t: IdToken, uris: ClaimUris): seq<string> {
    Texts(IdTokenMessages(t), uris)
  }

  /** Every message `validateIdTokenContents` can return, in the order of its checks. */
  const IdTokenTemplate: seq<Message> :=
    [ MissingField(Exp), MissingField(Iss), MissingField(Sub), MissingField(Aud),
      MissingField(Azp), AzpNotInAud, MissingField(DeploymentId), MissingClaim(MessageType),
      MissingClaim(Roles), MissingClaim(LtiVersion), InvalidVersion ]

  /** How a call ends: with the error list, or with the TypeError thrown by reading a claim of `undefined`. */
  datatype Completion = Returned(errors: seq<string>) | TypeErrorThrown

  // ---------------------------------------------------------------------
  // The validator.

  method ValidateResourceLinkRequest(decodedToken: IdToken, requestedTargetLinkUri: string, validateTargetLinkUrl: bool, uris: ClaimUris)
    returns (errors: seq<string>)
    ensures errors == ResourceLinkErrors(decodedToken, requestedTargetLinkUri, validateTargetLinkUrl, uris)
  {
    var t := decodedToken;
    ghost var checks := ResourceLinkChecks(t, requestedTargetLinkUri, validateTargetLinkUrl);
    ghost var reported := ReportedUpTo(checks, 0);
    errors := [];

    ErrorsStep([], errors, reported, checks[0], uris);
    if !StrTruthy(t.targetLinkUri) {
      errors := errors + [Text(MissingClaim(TargetLinkUri), uris)];
    }
    reported := ReportedUpTo(checks, 1);

    var targetLinkUri := t.targetLinkUri;
    ErrorsStep([], errors, reported, checks[1], uris);
    if validateTargetLinkUrl && targetLinkUri != Some(requestedTargetLinkUri) {
      errors := errors + [Text(TargetLinkMismatch(Render(targetLinkUri), requestedTargetLinkUri), uris)];
    }
    reported := ReportedUpTo(checks, 2);

    ErrorsStep([], errors, reported, checks[2], uris);
    if t.resourceLink.None? {
      errors := errors + [Text(MissingClaim(ResourceLink), uris)];
    }
    reported := ReportedUpTo(checks, 3);

    ErrorsStep([], errors, reported, checks[3], uris);
    if !(t.resourceLink.Some? && StrTruthy(t.resourceLink.value.id)) {
      errors := errors + [Text(MissingField(ResourceLinkId), uris)];
    }
    reported := ReportedUpTo(checks, 4);

    ReportedInSequence(checks);
  }

  /**
   * `validateIdTokenContents`.  An absent token passes the first check and
   * then throws when its `exp` is read, so no list is returned for it.  The
   * resource-link sub-check runs for `LtiResourceLinkRequest`, but its
   * result is concatenated into a new list that is dropped, so it never
   * reaches the output.  The straight run of `if`s is cut into four
   * methods that push onto the same list, so that each is proved on its own.
   */
  method ValidateIdTokenContents(decodedToken: Option<IdToken>, requestedTargetLinkUri: string, validateTargetLinkUrl: bool, uris: ClaimUris)
    returns (result: Completion)
    ensures decodedToken.None? ==> result == TypeErrorThrown
    ensures decodedToken.Some? ==> result == Returned(IdTokenErrors(decodedToken.value, uris))
    ensures result.Returned? ==> Text(MissingToken, uris) !in result.errors
  {
    var errors: seq<string> := [];

    if decodedToken.None? {
      errors := errors + [Text(MissingToken, uris)];
      // `decodedToken.exp` dereferences undefined
      return TypeErrorThrown;
    }
    var t := decodedToken.value;

    errors := PushRequiredFieldErrors(t, uris, errors);
    errors := PushAuthorizedPartyErrors(t, uris, errors);
    errors := PushDeploymentErrors(t, uris, errors);

    if t.messageType == Some(ResourceLinkRequestType) {
      var linkErrors := ValidateResourceLinkRequest(t, requestedTargetLinkUri, validateTargetLinkUrl, uris);
      // `errors.concat(...)` builds a new list; `errors` is left as it was
      var concatenated := errors + linkErrors;
    }

    errors := PushRoleAndVersionErrors(t, uris, errors);

    IdTokenErrorsByGroup(t, uris);
    MissingTokenNeverReported(t, uris);
    result := Returned(errors);
  }

  /** `exp`, `iss`, `sub` and `aud` must be truthy. */
  method PushRequiredFieldErrors(t: IdToken, uris: ClaimUris, errors: seq<string>) returns (result: seq<string>)
    ensures result == errors + Texts(Reported(RequiredFieldChecks(t)), uris)
  {
    ghost var checks := RequiredFieldChecks(t);
    ghost var reported := ReportedUpTo(checks, 0);
    result := errors;

    ErrorsStep(errors, result, reported, checks[0], uris);
    if !NumTruthy(t.exp) {
      result := result + [Text(MissingField(Exp), uris)];
    }
    reported := ReportedUpTo(checks, 1);

    ErrorsStep(errors, result, reported, checks[1], uris);
    if !StrTruthy(t.iss) {
      result := result + [Text(MissingField(Iss), uris)];
    }
    reported := ReportedUpTo(checks, 2);

    ErrorsStep(errors, result, reported, checks[2], uris);
    if !StrTruthy(t.sub) {
      result := result + [Text(MissingField(Sub), uris)];
    }
    reported := ReportedUpTo(checks, 3);

    ErrorsStep(errors, result, reported, checks[3], uris);
    if !AudTruthy(t.aud) {
      result := result + [Text(MissingField(Aud), uris)];
    }
    reported := ReportedUpTo(checks, 4);

    ReportedInSequence(checks);
  }

  /** With more than one audience, `azp` must be present and one of them. */
  method PushAuthorizedPartyErrors(t: IdToken, uris: ClaimUris, errors: seq<string>) returns (result: seq<string>)
    ensures result == errors + Texts(Reported(AuthorizedPartyChecks(t)), uris)
  {
    ghost var checks := AuthorizedPartyChecks(t);
    ghost var reported := ReportedUpTo(checks, 0);
    result := errors;

    // the two checks are the two branches of one `if`
    ErrorsStep(errors, result, reported, checks[0], uris);
    ErrorsStep(errors, if checks[0].fires then result + [Text(checks[0].message, uris)] else result,
               ReportedUpTo(checks, 1), checks[1], uris);
    if t.aud.Some? && t.aud.value.Many? && |t.aud.value.values| > 1 {
      if !StrTruthy(t.azp) {
        result := result + [Text(MissingField(Azp), uris)];
      } else if t.azp.value !in t.aud.value.values {
        result := result + [Text(AzpNotInAud, uris)];
      }
    }
    reported := ReportedUpTo(checks, 2);

    ReportedInSequence(checks);
  }

  /** The deployment id and message type claims must be truthy. */
  method PushDeploymentErrors(t: IdToken, uris: ClaimUris, errors: seq<string>) returns (result: seq<string>)
    ensures result == errors + Texts(Reported(DeploymentChecks(t)), uris)
  {
    ghost var checks := DeploymentChecks(t);
    ghost var reported := ReportedUpTo(checks, 0);
    result := errors;

    ErrorsStep(errors, result, reported, checks[0], uris);
    if !StrTruthy(t.deploymentId) {
      result := result + [Text(MissingField(DeploymentId), uris)];
    }
    reported := ReportedUpTo(checks, 1);

    ErrorsStep(errors, result, reported, checks[1], uris);
    if !StrTruthy(t.messageType) {
      result := result + [Text(MissingClaim(MessageType), uris)];
    }
    reported := ReportedUpTo(checks, 2);

    ReportedInSequence(checks);
  }

  /** The roles claim must be present, and the version truthy and starting with "1.3". */
  method PushRoleAndVersionErrors(t: IdToken, uris: ClaimUris, errors: seq<string>) returns (result: seq<string>)
    ensures result == errors + Texts(Reported(RoleAndVersionChecks(t)), uris)
  {
    ghost var checks := RoleAndVersionChecks(t);
    ghost var reported := ReportedUpTo(checks, 0);
    result := errors;

    ErrorsStep(errors, result, reported, checks[0], uris);
    if t.roles.None? {
      result := result + [Text(MissingClaim(Roles), uris)];
    }
    reported := ReportedUpTo(checks, 1);

    ErrorsStep(errors, result, reported, checks[1], uris);
    if !StrTruthy(t.ltiVersion) {
      result := result + [Text(MissingClaim(LtiVersion), uris)];
    }
    reported := ReportedUpTo(checks, 2);

    ErrorsStep(errors, result, reported, checks[2], uris);
    if !(t.ltiVersion.Some? && "1.3" <= t.ltiVersion.value) {
      result := result + [Text(InvalidVersion, uris)];
    }
    reported := ReportedUpTo(checks, 3);

    ReportedInSequence(checks);
  }

  // ---------------------------------------------------------------------
  // From messages to text.

  lemma TextsAppend(a: seq<Message>, b: seq<Message>, uris: ClaimUris)
    ensures Texts(a + b, uris) == Texts(a, uris) + Texts(b, uris)
  {
  }

  /** Running one more check after those that pushed the text of `reported` onto `done`. */
  lemma ErrorsStep(done: seq<string>, errors: seq<string>, reported: seq<Message>, c: Check<Message>, uris: ClaimUris)
    requires errors == done + Texts(reported, uris)
    ensures c.fires ==> errors + [Text(c.message, uris)] == done + Texts(reported + Fired(c), uris)
    ensures !c.fires ==> errors == done + Texts(reported + Fired(c), uris)
  {
    TextsAppend(reported, Fired(c), uris);
  }

  /** The error list is the concatenation of what the four groups of checks push. */
  lemma IdTokenErrorsByGroup(t: IdToken, uris: ClaimUris)
    ensures IdTokenErrors(t, uris) ==
      [] + Texts(Reported(RequiredFieldChecks(t)), uris) + Texts(Reported(AuthorizedPartyChecks(t)), uris) +
      Texts(Reported(DeploymentChecks(t)), uris) + Texts(Reported(RoleAndVersionChecks(t)), uris)
  {
    var g1, g2, g3, g4 := RequiredFieldChecks(t), AuthorizedPartyChecks(t), DeploymentChecks(t), RoleAndVersionChecks(t);
    ReportedAppend(g1 + g2 + g3, g4);
    ReportedAppend(g1 + g2, g3);
    ReportedAppend(g1, g2);
    var r1, r2, r3, r4 := Reported(g1), Reported(g2), Reported(g3), Reported(g4);
    TextsAppend(r1 + r2 + r3, r4, uris);
    TextsAppend(r1 + r2, r3, uris);
    TextsAppend(r1, r2, uris);
  }

  /** Reads a field back from its name; used only to show that names are distinct. */
  ghost function FieldNamed(s: string, uris: ClaimUris): TokenField {
    if s == "exp" then Exp
    else if s == "iss" then Iss
    else if s == "sub" then Sub
    else if s == "aud" then Aud
    else if s == "azp" then Azp
    else if s == uris.deploymentId then DeploymentId
    else ResourceLinkId
  }

  ghost function ClaimNamed(s: string, uris: ClaimUris): TokenClaim {
    if s == uris.messageType then MessageType
    else if s == uris.roles then Roles
    else if s == uris.ltiVersion then LtiVersion
    else if s == uris.targetLinkUri then TargetLinkUri
    else ResourceLink
  }

  lemma FieldNamedName(f: TokenField, uris: ClaimUris)
    requires uris.WellFormed()
    ensures FieldNamed(FieldName(f, uris), uris) == f
  {
    match f
    case DeploymentId =>
      assert |uris.deploymentId| >= 8;
    case ResourceLinkId =>
      var s := FieldName(f, uris);
      assert |s| > 18 && s[0] == 'i' && uris.deploymentId[0] == 'h';
    case _ =>
  }

  lemma ClaimNamedName(c: TokenClaim, uris: ClaimUris)
    requires uris.WellFormed()
    ensures ClaimNamed(ClaimName(c, uris), uris) == c
  {
  }

  /** Reads the message back from its text; used only to show that texts are distinct. */
  ghost function Classify(s: string, uris: ClaimUris): Message {
    if |s| >= 36 && s[..36] == FieldPrefix then MissingField(FieldNamed(s[36..], uris))
    else if |s| >= 36 && s[..36] == ClaimPrefix then MissingClaim(ClaimNamed(s[36..], uris))
    else if s == Text(MissingToken, uris) then MissingToken
    else if s == Text(AzpNotInAud, uris) then AzpNotInAud
    else if s == Text(InvalidVersion, uris) then InvalidVersion
    else TargetLinkMismatch("", "")
  }

  lemma ClassifyText(m: Message, uris: ClaimUris)
    requires uris.WellFormed()
    ensures m.TargetLinkMismatch? ==> Classify(Text(m, uris), uris).TargetLinkMismatch?
    ensures !m.TargetLinkMismatch? ==> Classify(Text(m, uris), uris) == m
  {
    var s := Text(m, uris);
    match m
    case MissingField(f) =>
      assert s[..36] == FieldPrefix && s[36..] == FieldName(f, uris);
      FieldNamedName(f, uris);
    case MissingClaim(c) =>
      assert s[..36] == ClaimPrefix && s[36..] == ClaimName(c, uris);
      assert FieldPrefix[30] != ClaimPrefix[30];
      ClaimNamedName(c, uris);
    case TargetLinkMismatch(got, wanted) =>
      assert s[10] == 't' && FieldPrefix[10] == 'i' && ClaimPrefix[10] == 'i';
      assert |s| > 30 && s[0] == 'L';
    case _ =>
  }

  /** Different messages have different texts, except possibly two target-link mismatches. */
  lemma TextInjective(a: Message, b: Message, uris: ClaimUris)
    requires uris.WellFormed()
    requires !(a.TargetLinkMismatch? && b.TargetLinkMismatch?)
    ensures Text(a, uris) == Text(b, uris) ==> a == b
  {
    ClassifyText(a, uris);
    ClassifyText(b, uris);
  }

  lemma {:induction false} TextsCount(ms: seq<Message>, m: Message, uris: ClaimUris)
    requires uris.WellFormed()
    requires !m.TargetLinkMismatch?
    ensures multiset(Texts(ms, uris))[Text(m, uris)] == multiset(ms)[m]
  {
    if ms != [] {
      assert ms == [ms[0]] + ms[1..];
      assert Texts(ms, uris) == [Text(ms[0], uris)] + Texts(ms[1..], uris);
      TextInjective(ms[0], m, uris);
      TextsCount(ms[1..], m, uris);
    }
  }

  lemma TextsMember(ms: seq<Message>, m: Message, uris: ClaimUris)
    requires m in ms
    ensures Text(m, uris) in Texts(ms, uris)
  {
    var i :| 0 <= i < |ms| && ms[i] == m;
    assert Texts(ms, uris)[i] == Text(m, uris);
  }

  lemma TextsOmits(ms: seq<Message>, m: Message, uris: ClaimUris)
    requires uris.WellFormed()
    requires m !in ms
    requires m.TargetLinkMismatch? ==> forall x :: x in ms ==> !x.TargetLinkMismatch?
    ensures Text(m, uris) !in Texts(ms, uris)
  {
    forall i | 0 <= i < |ms| ensures Texts(ms, uris)[i] != Text(m, uris) {
      TextInjective(ms[i], m, uris);
    }
  }

  lemma TextsFrom(ms: seq<Message>, s: string, uris: ClaimUris) returns (m: Message)
    requires s in Texts(ms, uris)
    ensures m in ms && Text(m, uris) == s
  {
    var i :| 0 <= i < |ms| && Texts(ms, uris)[i] == s;
    m := ms[i];
  }

  lemma {:induction false} TextsInOrder(a: seq<Message>, b: seq<Message>, uris: ClaimUris)
    requires IsSubsequence(a, b)
    ensures IsSubsequence(Texts(a, uris), Texts(b, uris))
    decreases |b|
  {
    if a != [] {
      assert Texts(b, uris)[1..] == Texts(b[1..], uris);
      if a[0] == b[0] && IsSubsequence(a[1..], b[1..]) {
        TextsInOrder(a[1..], b[1..], uris);
        assert Texts(a, uris)[1..] == Texts(a[1..], uris);
      } else {
        TextsInOrder(a, b[1..], uris);
      }
    }
  }

  // ---------------------------------------------------------------------
  // Properties of `validateIdTokenContents`.

  /** No two checks push the same message. */
  lemma IdTokenChecksUnique(t: IdToken)
    ensures forall k :: 0 <= k < |IdTokenChecks(t)| ==> UniqueAt(IdTokenChecks(t), k)
  {
    assert Messages(IdTokenChecks(t)) == IdTokenTemplate;
  }

  /** Every message of the validator comes from its template, so none is a target-link mismatch. */
  lemma IdTokenMessagesFromTemplate(t: IdToken)
    ensures forall m :: m in IdTokenMessages(t) ==> m in IdTokenTemplate
  {
    var cs := IdTokenChecks(t);
    assert Messages(cs) == IdTokenTemplate;
    forall m | m in Reported(cs) ensures m in IdTokenTemplate {
      ReportedFrom(cs, m);
      assert Messages(cs)[0] == cs[0].message;
    }
  }

  /** Check `k` pushes its text once if it fires and never otherwise. */
  lemma IdTokenCount(t: IdToken, uris: ClaimUris, k: nat)
    requires uris.WellFormed() && k < |IdTokenChecks(t)|
    ensures multiset(IdTokenErrors(t, uris))[Text(IdTokenChecks(t)[k].message, uris)] ==
      if IdTokenChecks(t)[k].fires then 1 else 0
  {
    var cs := IdTokenChecks(t);
    IdTokenChecksUnique(t);
    ReportedCount(cs, k);
    TextsCount(Reported(cs), cs[k].message, uris);
  }

  /** Each required claim that is falsy adds its own message exactly once; a truthy one adds none. */
  lemma MissingClaimsReported(t: IdToken, uris: ClaimUris)
    requires uris.WellFormed()
    ensures var e := multiset(IdTokenErrors(t, uris));
      e[Text(MissingField(Exp), uris)] == (if NumTruthy(t.exp) then 0 else 1) &&
      e[Text(MissingField(Iss), uris)] == (if StrTruthy(t.iss) then 0 else 1) &&
      e[Text(MissingField(Sub), uris)] == (if StrTruthy(t.sub) then 0 else 1) &&
      e[Text(MissingField(Aud), uris)] == (if AudTruthy(t.aud) then 0 else 1) &&
      e[Text(MissingField(DeploymentId), uris)] == (if StrTruthy(t.deploymentId) then 0 else 1) &&
      e[Text(MissingClaim(MessageType), uris)] == (if StrTruthy(t.messageType) then 0 else 1) &&
      e[Text(MissingClaim(Roles), uris)] == (if t.roles.Some? then 0 else 1)
  {
    IdTokenCount(t, uris, 0);
    IdTokenCount(t, uris, 1);
    IdTokenCount(t, uris, 2);
    IdTokenCount(t, uris, 3);
    IdTokenCount(t, uris, 6);
    IdTokenCount(t, uris, 7);
    IdTokenCount(t, uris, 8);
  }

  /**
   * The `azp` rule of section 3.1.3.7 of OpenID Connect Core 1.0 as the
   * source applies it: only for an array `aud` with more than one entry, a
   * falsy `azp` is reported as missing, otherwise one that is not among the
   * audiences is reported, and never both.
   */
  lemma AzpRule(t: IdToken, uris: ClaimUris)
    requires uris.WellFormed()
    ensures var e := multiset(IdTokenErrors(t, uris));
      e[Text(MissingField(Azp), uris)] == (if MultiAudience(t) && !StrTruthy(t.azp) then 1 else 0) &&
      e[Text(AzpNotInAud, uris)] == (if MultiAudience(t) && StrTruthy(t.azp) && t.azp.value !in t.aud.value.values then 1 else 0)
    ensures !(Text(MissingField(Azp), uris) in IdTokenErrors(t, uris) && Text(AzpNotInAud, uris) in IdTokenErrors(t, uris))
    ensures !MultiAudience(t) ==>
      Text(MissingField(Azp), uris) !in IdTokenErrors(t, uris) && Text(AzpNotInAud, uris) !in IdTokenErrors(t, uris)
  {
    IdTokenCount(t, uris, 4);
    IdTokenCount(t, uris, 5);
  }

  /**
   * A version starting with "1.3" draws no version message; an absent one
   * is reported both as missing and as invalid; "1.2.0" is invalid.
   */
  lemma VersionRule(t: IdToken, uris: ClaimUris)
    requires uris.WellFormed()
    ensures var e := multiset(IdTokenErrors(t, uris));
      e[Text(MissingClaim(LtiVersion), uris)] == (if StrTruthy(t.ltiVersion) then 0 else 1) &&
      e[Text(InvalidVersion, uris)] == (if VersionIsLti13(t) then 0 else 1)
    ensures VersionIsLti13(t) ==>
      Text(MissingClaim(LtiVersion), uris) !in IdTokenErrors(t, uris) && Text(InvalidVersion, uris) !in IdTokenErrors(t, uris)
    ensures t.ltiVersion.None? ==>
      Text(MissingClaim(LtiVersion), uris) in IdTokenErrors(t, uris) && Text(InvalidVersion, uris) in IdTokenErrors(t, uris)
    ensures t.ltiVersion == Some("1.2.0") ==> Text(InvalidVersion, uris) in IdTokenErrors(t, uris)
  {
    IdTokenCount(t, uris, 9);
    IdTokenCount(t, uris, 10);
    assert "1.2.0"[2] != "1.3"[2];
  }

  /** The messages come out in the fixed order of the checks. */
  lemma ErrorsFollowCheckOrder(t: IdToken, uris: ClaimUris)
    ensures IsSubsequence(IdTokenErrors(t, uris), Texts(IdTokenTemplate, uris))
  {
    ReportedInOrder(IdTokenChecks(t));
    assert Messages(IdTokenChecks(t)) == IdTokenTemplate;
    TextsInOrder(IdTokenMessages(t), IdTokenTemplate, uris);
  }

  /** Every claim the validator checks is present and well-formed. */
  predicate Acceptable(t: IdToken) {
    NumTruthy(t.exp) && StrTruthy(t.iss) && StrTruthy(t.sub) && AudTruthy(t.aud) &&
    (MultiAudience(t) ==> StrTruthy(t.azp) && t.azp.value in t.aud.value.values) &&
    StrTruthy(t.deploymentId) && StrTruthy(t.messageType) && t.roles.Some? &&
    VersionIsLti13(t)
  }

  /** The validator returns the empty list exactly for the acceptable tokens. */
  lemma AcceptedExactly(t: IdToken, uris: ClaimUris)
    ensures IdTokenErrors(t, uris) == [] <==> Acceptable(t)
  {
    var cs := IdTokenChecks(t);
    ReportedEmpty(cs);
    if !Acceptable(t) {
      if !NumTruthy(t.exp) { assert cs[0].fires; }
      else if !StrTruthy(t.iss) { assert cs[1].fires; }
      else if !StrTruthy(t.sub) { assert cs[2].fires; }
      else if !AudTruthy(t.aud) { assert cs[3].fires; }
      else if MultiAudience(t) && !StrTruthy(t.azp) { assert cs[4].fires; }
      else if MultiAudience(t) && t.azp.value !in t.aud.value.values { assert cs[5].fires; }
      else if !StrTruthy(t.deploymentId) { assert cs[6].fires; }
      else if !StrTruthy(t.messageType) { assert cs[7].fires; }
      else if t.roles.None? { assert cs[8].fires; }
      else { assert cs[10].fires; }
    }
  }

  /** The token of the source's tests, issued at `now` seconds; `role` is its one role. */
  function TestToken(now: nat, role: string): IdToken {
    IdToken(
      iss := Some("https://example.com"),
      sub := Some("12345"),
      aud := Some(Single("example-client-id")),
      azp := Some("example-client-id"),
      exp := Some(now + 3600),
      iat := Some(now),
      nonce := Some("randomNonce"),
      deploymentId := Some("deployment-id"),
      messageType := Some(ResourceLinkRequestType),
      roles := Some([role]),
      ltiVersion := Some("1.3.0"),
      resourceLink := Some(ResourceLinkClaim(Some("resource-link-id"))),
      targetLinkUri := Some("https://example.com/launch"))
  }

  /** The tests' valid token passes with enforcement on, and so does its resource-link sub-check. */
  lemma TestTokenAccepted(now: nat, role: string, uris: ClaimUris)
    ensures IdTokenErrors(TestToken(now, role), uris) == []
    ensures ResourceLinkErrors(TestToken(now, role), "https://example.com/launch", true, uris) == []
  {
    AcceptedExactly(TestToken(now, role), uris);
    ReportedEmpty(ResourceLinkChecks(TestToken(now, role), "https://example.com/launch", true));
  }

  /** No target-link mismatch ever reaches the output of `validateIdTokenContents`. */
  lemma NoMismatchReported(t: IdToken, uris: ClaimUris, got: string, wanted: string)
    requires uris.WellFormed()
    ensures Text(TargetLinkMismatch(got, wanted), uris) !in IdTokenErrors(t, uris)
  {
    IdTokenMessagesFromTemplate(t);
    TextsOmits(IdTokenMessages(t), TargetLinkMismatch(got, wanted), uris);
  }

  /** No error of the resource-link sub-check reaches the output of `validateIdTokenContents`. */
  lemma LinkErrorNotReported(t: IdToken, uris: ClaimUris, requestedTargetLinkUri: string, validateTargetLinkUrl: bool, s: string)
    requires uris.WellFormed()
    requires s in ResourceLinkErrors(t, requestedTargetLinkUri, validateTargetLinkUrl, uris)
    ensures s !in IdTokenErrors(t, uris)
  {
    var rcs := ResourceLinkChecks(t, requestedTargetLinkUri, validateTargetLinkUrl);
    var m := TextsFrom(Reported(rcs), s, uris);
    ReportedFrom(rcs, m);
    IdTokenMessagesFromTemplate(t);
    TextsOmits(IdTokenMessages(t), m, uris);
  }

  /**
   * Because the sub-check's result is dropped, no target-link or
   * resource-link message ever reaches the output, and the output does not
   * depend on those claims.
   */
  lemma NeverReportsResourceLink(t: IdToken, uris: ClaimUris, requestedTargetLinkUri: string, validateTargetLinkUrl: bool,
                                 otherTargetLinkUri: Option<string>, otherResourceLink: Option<ResourceLinkClaim>)
    requires uris.WellFormed()
    ensures forall s :: s in ResourceLinkErrors(t, requestedTargetLinkUri, validateTargetLinkUrl, uris) ==> s !in IdTokenErrors(t, uris)
    ensures forall got, wanted :: Text(TargetLinkMismatch(got, wanted), uris) !in IdTokenErrors(t, uris)
    ensures IdTokenErrors(t.(targetLinkUri := otherTargetLinkUri, resourceLink := otherResourceLink), uris) == IdTokenErrors(t, uris)
  {
    forall got, wanted ensures Text(TargetLinkMismatch(got, wanted), uris) !in IdTokenErrors(t, uris) {
      NoMismatchReported(t, uris, got, wanted);
    }
    forall s | s in ResourceLinkErrors(t, requestedTargetLinkUri, validateTargetLinkUrl, uris)
      ensures s !in IdTokenErrors(t, uris)
    {
      LinkErrorNotReported(t, uris, requestedTargetLinkUri, validateTargetLinkUrl, s);
    }
    var u := t.(targetLinkUri := otherTargetLinkUri, resourceLink := otherResourceLink);
    assert IdTokenChecks(u) == IdTokenChecks(t);
  }

  /** No returned list contains the missing-token message. */
  lemma MissingTokenNeverReported(t: IdToken, uris: ClaimUris)
    ensures Text(MissingToken, uris) !in IdTokenErrors(t, uris)
  {
    IdTokenMessagesFromTemplate(t);
    var ms := IdTokenMessages(t);
    forall i | 0 <= i < |ms| ensures Texts(ms, uris)[i] != Text(MissingToken, uris) {
      assert Texts(ms, uris)[i] == Text(ms[i], uris);
      assert ms[i] in IdTokenTemplate;
      assert |Text(ms[i], uris)| != 30;
    }
  }

  // ---------------------------------------------------------------------
  // Properties of `validateResourceLinkRequest`.

  /**
   * The target-link check: never a mismatch without enforcement; with
   * enforcement a mismatch naming both values whenever the claim differs;
   * an absent claim is reported both as missing and as a mismatch with
   * "undefined".
   */
  lemma TargetLinkRule(t: IdToken, requestedTargetLinkUri: string, validateTargetLinkUrl: bool, uris: ClaimUris)
    requires uris.WellFormed()
    ensures var e := ResourceLinkErrors(t, requestedTargetLinkUri, validateTargetLinkUrl, uris);
      multiset(e)[Text(MissingClaim(TargetLinkUri), uris)] == (if StrTruthy(t.targetLinkUri) then 0 else 1)
    ensures !validateTargetLinkUrl || t.targetLinkUri == Some(requestedTargetLinkUri) ==>
      forall got, wanted :: Text(TargetLinkMismatch(got, wanted), uris) !in ResourceLinkErrors(t, requestedTargetLinkUri, validateTargetLinkUrl, uris)
    ensures validateTargetLinkUrl && t.targetLinkUri != Some(requestedTargetLinkUri) ==>
      Text(TargetLinkMismatch(Render(t.targetLinkUri), requestedTargetLinkUri), uris)
        in ResourceLinkErrors(t, requestedTargetLinkUri, validateTargetLinkUrl, uris)
    ensures validateTargetLinkUrl && t.targetLinkUri.None? ==>
      var e := ResourceLinkErrors(t, requestedTargetLinkUri, validateTargetLinkUrl, uris);
      Text(MissingClaim(TargetLinkUri), uris) in e && Text(TargetLinkMismatch("undefined", requestedTargetLinkUri), uris) in e
  {
    var cs := ResourceLinkChecks(t, requestedTargetLinkUri, validateTargetLinkUrl);
    var ms := Reported(cs);
    assert UniqueAt(cs, 0);
    ReportedCount(cs, 0); TextsCount(ms, cs[0].message, uris);
    if !validateTargetLinkUrl || t.targetLinkUri == Some(requestedTargetLinkUri) {
      forall m | m in ms ensures !m.TargetLinkMismatch? {
        ReportedFrom(cs, m);
      }
      forall got, wanted ensures Text(TargetLinkMismatch(got, wanted), uris) !in Texts(ms, uris) {
        TextsOmits(ms, TargetLinkMismatch(got, wanted), uris);
      }
    } else {
      assert UniqueAt(cs, 1);
      ReportedCount(cs, 1);
      TextsMember(ms, cs[1].message, uris);
    }
  }

  /**
   * The resource-link claim check: an absent claim is reported as missing
   * and as lacking its `id`; a present claim without a truthy `id` only as
   * lacking its `id`.
   */
  lemma ResourceLinkClaimRule(t: IdToken, requestedTargetLinkUri: string, validateTargetLinkUrl: bool, uris: ClaimUris)
    requires uris.WellFormed()
    ensures var e := multiset(ResourceLinkErrors(t, requestedTargetLinkUri, validateTargetLinkUrl, uris));
      e[Text(MissingClaim(ResourceLink), uris)] == (if t.resourceLink.None? then 1 else 0) &&
      e[Text(MissingField(ResourceLinkId), uris)] ==
        (if t.resourceLink.Some? && StrTruthy(t.resourceLink.value.id) then 0 else 1)
  {
    var cs := ResourceLinkChecks(t, requestedTargetLinkUri, validateTargetLinkUrl);
    var ms := Reported(cs);
    assert UniqueAt(cs, 2) && UniqueAt(cs, 3);
    ReportedCount(cs, 2); TextsCount(ms, cs[2].message, uris);
    ReportedCount(cs, 3); TextsCount(ms, cs[3].message, uris);
  }

  /** The sub-check passes exactly when both claims are present, the `id` is truthy and the link matches where enforced. */
  lemma ResourceLinkAcceptedExactly(t: IdToken, requestedTargetLinkUri: string, validateTargetLinkUrl: bool, uris: ClaimUris)
    ensures ResourceLinkErrors(t, requestedTargetLinkUri, validateTargetLinkUrl, uris) == [] <==>
      StrTruthy(t.targetLinkUri) && (validateTargetLinkUrl ==> t.targetLinkUri == Some(requestedTargetLinkUri)) &&
      t.resourceLink.Some? && StrTruthy(t.resourceLink.value.id)
  {
    var cs := ResourceLinkChecks(t, requestedTargetLinkUri, validateTargetLinkUrl);
    ReportedEmpty(cs);
    assert cs[0].fires <==> !StrTruthy(t.targetLinkUri);
    assert cs[1].fires <==> validateTargetLinkUrl && t.targetLinkUri != Some(requestedTargetLinkUri);
    assert cs[3].fires <==> !(t.resourceLink.Some? && StrTruthy(t.resourceLink.value.id));
  }

  // ---------------------------------------------------------------------
  // The validator as evidently intended: an absent token is reported, and
  // the remaining checks run against a token with no claims; the
  // sub-check's messages are appended.

  /** A token in which no claim is present. */
  const AbsentToken := IdToken(None, None, None, None, None, None, None, None, None, None, None, None, None)

  function CorrectedMessages(decodedToken: Option<IdToken>, requestedTargetLinkUri: string, validateTargetLinkUrl: bool): seq<Message> {
    match decodedToken
    case None => [MissingToken] + IdTokenMessages(AbsentToken)
    case Some(t) =>
      Reported(ChecksBeforeDispatch(t)) +
      (if t.messageType == Some(ResourceLinkRequestType)
       then ResourceLinkMessages(t, requestedTargetLinkUri, validateTargetLinkUrl) else []) +
      Reported(RoleAndVersionChecks(t))
  }

  function CorrectedErrors(decodedToken: Option<IdToken>, requestedTargetLinkUri: string, validateTargetLinkUrl: bool, uris: ClaimUris): seq<string> {
    Texts(CorrectedMessages(decodedToken, requestedTargetLinkUri, validateTargetLinkUrl), uris)
  }

  /**
   * As written, the test token with both resource-link claims removed is
   * accepted although its own sub-check reports four errors.
   */
  lemma DiscardedResourceLinkErrors(now: nat, role: string, uris: ClaimUris)
    ensures var t := TestToken(now, role).(resourceLink := None, targetLinkUri := None);
      IdTokenErrors(t, uris) == [] &&
      |ResourceLinkErrors(t, "https://example.com/launch", true, uris)| == 4 &&
      |CorrectedErrors(Some(t), "https://example.com/launch", true, uris)| == 4
  {
    var t := TestToken(now, role).(resourceLink := None, targetLinkUri := None);
    AcceptedExactly(t, uris);
    var rcs := ResourceLinkChecks(t, "https://example.com/launch", true);
    ReportedAll(rcs);
    ReportedAppend(ChecksBeforeDispatch(t), RoleAndVersionChecks(t));
  }

  /** Corrected, a present token gets the as-written errors plus, for a resource-link request, the sub-check's errors. */
  lemma CorrectedReportsResourceLink(t: IdToken, requestedTargetLinkUri: string, validateTargetLinkUrl: bool, uris: ClaimUris)
    ensures multiset(CorrectedErrors(Some(t), requestedTargetLinkUri, validateTargetLinkUrl, uris)) ==
      multiset(IdTokenErrors(t, uris)) +
      (if t.messageType == Some(ResourceLinkRequestType)
       then multiset(ResourceLinkErrors(t, requestedTargetLinkUri, validateTargetLinkUrl, uris)) else multiset{})
    ensures t.messageType == Some(ResourceLinkRequestType) ==>
      forall s :: s in ResourceLinkErrors(t, requestedTargetLinkUri, validateTargetLinkUrl, uris) ==>
        s in CorrectedErrors(Some(t), requestedTargetLinkUri, validateTargetLinkUrl, uris)
  {
    var before, after := Reported(ChecksBeforeDispatch(t)), Reported(RoleAndVersionChecks(t));
    var link := if t.messageType == Some(ResourceLinkRequestType)
                then ResourceLinkMessages(t, requestedTargetLinkUri, validateTargetLinkUrl) else [];
    ReportedAppend(ChecksBeforeDispatch(t), RoleAndVersionChecks(t));
    assert CorrectedMessages(Some(t), requestedTargetLinkUri, validateTargetLinkUrl) == before + link + after;
    TextsAppend(before + link, after, uris);
    TextsAppend(before, link, uris);
    TextsAppend(before, after, uris);
  }

  /** Before the dispatch, a token with no claims fails every check except the two `azp` checks, which need an array `aud`. */
  lemma AbsentTokenBeforeDispatch()
    ensures Reported(ChecksBeforeDispatch(AbsentToken)) ==
      [ MissingField(Exp), MissingField(Iss), MissingField(Sub), MissingField(Aud),
        MissingField(DeploymentId), MissingClaim(MessageType) ]
  {
    var t := AbsentToken;
    assert Reported(RequiredFieldChecks(t)) == [MissingField(Exp), MissingField(Iss), MissingField(Sub), MissingField(Aud)] by {
      ReportedAll(RequiredFieldChecks(t));
    }
    assert Reported(AuthorizedPartyChecks(t)) == [] by {
      ReportedEmpty(AuthorizedPartyChecks(t));
    }
    assert Reported(DeploymentChecks(t)) == [MissingField(DeploymentId), MissingClaim(MessageType)] by {
      ReportedAll(DeploymentChecks(t));
    }
    ReportedAppend(RequiredFieldChecks(t), AuthorizedPartyChecks(t));
    ReportedAppend(RequiredFieldChecks(t) + AuthorizedPartyChecks(t), DeploymentChecks(t));
  }

  /** A token with no claims fails every check except the two `azp` checks. */
  lemma AbsentTokenMessages()
    ensures IdTokenMessages(AbsentToken) ==
      [ MissingField(Exp), MissingField(Iss), MissingField(Sub), MissingField(Aud),
        MissingField(DeploymentId), MissingClaim(MessageType), MissingClaim(Roles), MissingClaim(LtiVersion),
        InvalidVersion ]
  {
    var t := AbsentToken;
    AbsentTokenBeforeDispatch();
    assert Reported(RoleAndVersionChecks(t)) == [MissingClaim(Roles), MissingClaim(LtiVersion), InvalidVersion] by {
      ReportedAll(RoleAndVersionChecks(t));
    }
    ReportedAppend(ChecksBeforeDispatch(t), RoleAndVersionChecks(t));
  }

  /**
   * Corrected, an absent token is reported first, and then every check
   * except the two `azp` checks reports its claim missing.
   */
  lemma CorrectedAbsentToken(requestedTargetLinkUri: string, validateTargetLinkUrl: bool, uris: ClaimUris)
    ensures CorrectedErrors(None, requestedTargetLinkUri, validateTargetLinkUrl, uris) ==
      Texts([ MissingToken, MissingField(Exp), MissingField(Iss), MissingField(Sub), MissingField(Aud),
              MissingField(DeploymentId), MissingClaim(MessageType), MissingClaim(Roles), MissingClaim(LtiVersion),
              InvalidVersion ], uris)
  {
    AbsentTokenMessages();
  }
}
