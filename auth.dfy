/** Authentication and authorization decisions of the backend: the claim check
    on a decoded token, the lookups that turn a token or credentials into a
    user, the role gate, and the family and document access checks. Each is a
    function of the store's collections, passed in as sequences. */
module Auth {
  import opened Common
  import opened Models

  // ----- Tokens and users -----

  /** `verify_token` on an already-decoded payload: both the "sub" and the
      "email" claims must be present. A claim whose value is null is modelled
      as an absent key. */
  function VerifyClaims(claims: map<string, string>): (r: Result<TokenData>)
    ensures r.Ok? <==> "sub" in claims && "email" in claims
    ensures r.Ok? ==> r.value.userId == claims["sub"] && r.value.email == claims["email"]
    ensures r.Err? ==> r.status == UNAUTHORIZED
  {
    if "sub" !in claims || "email" !in claims then Err(UNAUTHORIZED)
    else Ok(TokenData(claims["sub"], claims["email"]))
  }

  /** `get_current_user`: the first stored user whose id is the token's
      subject, refused with 401 when there is none or when its stored
      `is_active` is false. */
  function GetCurrentUser(users: seq<UserDoc>, claims: map<string, string>): (r: Result<User>)
    ensures r.Err? ==> r.status == UNAUTHORIZED
    ensures r.Ok? ==> "sub" in claims && "email" in claims
    ensures r.Ok? ==> r.value.id == claims["sub"] && r.value.isActive
    ensures r.Ok? ==> exists i :: 0 <= i < |users| && r.value == LoadUser(users[i])
    ensures "sub" in claims && (forall i :: 0 <= i < |users| ==> users[i].id != claims["sub"]) ==> r.Err?
  {
    match VerifyClaims(claims)
    case Err(status) => Err(status)
    case Ok(data) =>
      match Find((d: UserDoc) => d.id == data.userId, users)
      case None => Err(UNAUTHORIZED)
      case Some(d) =>
        if !LoadUser(d).isActive then Err(UNAUTHORIZED)
        else Ok(LoadUser(d))
  }

  /** With valid claims, the outcome is decided by the first user whose id is
      the subject: refused exactly when its stored flag is false, so a missing
      flag counts as active. */
  lemma CurrentUserIsFirstMatch(users: seq<UserDoc>, claims: map<string, string>, i: int)
    requires "sub" in claims && "email" in claims
    requires 0 <= i < |users| && users[i].id == claims["sub"]
    requires forall j :: 0 <= j < i ==> users[j].id != claims["sub"]
    ensures GetCurrentUser(users, claims) ==
              if users[i].isActive == Some(false) then Err(UNAUTHORIZED) else Ok(LoadUser(users[i]))
  {
    FindFirst((d: UserDoc) => d.id == claims["sub"], users, i);
  }

  /** `authenticate_user`: the first stored user with this email, provided the
      password verifies against its stored hash. `verify` stands for bcrypt's
      check. */
  function AuthenticateUser(users: seq<UserDoc>, email: string, password: string,
                            verify: (string, string) -> bool): (r: Option<User>)
    ensures r.Some? ==> r.value.email == email
    ensures r.Some? ==> exists i :: 0 <= i < |users| && users[i].email == email &&
                                    verify(password, users[i].password) && r.value == LoadUser(users[i])
    ensures (forall i :: 0 <= i < |users| ==> users[i].email != email) ==> r.None?
  {
    match Find((d: UserDoc) => d.email == email, users)
    case None => None
    case Some(d) =>
      if !verify(password, d.password) then None
      else Some(LoadUser(d))
  }

  /** The first user with the email decides: authentication succeeds exactly
      when the password verifies against that user's hash. */
  lemma AuthenticateIsFirstMatch(users: seq<UserDoc>, email: string, password: string,
                                 verify: (string, string) -> bool, i: int)
    requires 0 <= i < |users| && users[i].email == email
    requires forall j :: 0 <= j < i ==> users[j].email != email
    ensures AuthenticateUser(users, email, password, verify) ==
              if verify(password, users[i].password) then Some(LoadUser(users[i])) else None
  {
    FindFirst((d: UserDoc) => d.email == email, users, i);
  }

  // ----- The role gate -----

  /** A keyword argument of a wrapped endpoint: the value is a `User` or
      something else. */
  datatype ArgValue = UserValue(user: User) | OtherValue
  datatype KwArg = KwArg(name: string, value: ArgValue)

  /** The first keyword argument whose value is a `User`. */
  function FirstUser(kwargs: seq<KwArg>): (r: Option<User>)
    ensures r.None? <==> forall i :: 0 <= i < |kwargs| ==> !kwargs[i].value.UserValue?
    ensures r.Some? ==> exists i :: 0 <= i < |kwargs| && kwargs[i].value == UserValue(r.value) &&
                                    forall j :: 0 <= j < i ==> !kwargs[j].value.UserValue?
  {
    match Find((a: KwArg) => a.value.UserValue?, kwargs)
    case None => None
    case Some(a) => Some(a.value.user)
  }

  /** `require_role(required)` around an endpoint whose own outcome is
      `handler`: 401 without a user argument, 403 when the first user's role is
      not required, the endpoint's outcome unchanged otherwise. */
  function RequireRole<T>(required: seq<Role>, kwargs: seq<KwArg>, handler: Result<T>): (r: Result<T>)
    ensures (forall i :: 0 <= i < |kwargs| ==> !kwargs[i].value.UserValue?) ==> r == Err(UNAUTHORIZED)
    ensures forall i :: 0 <= i < |kwargs| && kwargs[i].value.UserValue? &&
                        (forall j :: 0 <= j < i ==> !kwargs[j].value.UserValue?) ==>
                          r == if kwargs[i].value.user.role in required then handler else Err(FORBIDDEN)
  {
    var current := FirstUser(kwargs);
    assert forall i :: 0 <= i < |kwargs| && kwargs[i].value.UserValue? &&
                       (forall j :: 0 <= j < i ==> !kwargs[j].value.UserValue?) ==>
                         current == Some(kwargs[i].value.user) by {
      forall i | 0 <= i < |kwargs| && kwargs[i].value.UserValue? &&
                 (forall j :: 0 <= j < i ==> !kwargs[j].value.UserValue?)
        ensures current == Some(kwargs[i].value.user)
      {
        FindFirst((a: KwArg) => a.value.UserValue?, kwargs, i);
      }
    }
    if current.None? then Err(UNAUTHORIZED)
    else if current.value.role !in required then Err(FORBIDDEN)
    else handler
  }

  // ----- Family and document access -----

  /** The meetings query of the advisor branch: `{advisor_id, family_id}`. */
  predicate AdvisorMeeting(advisorId: string, familyId: string, m: Meeting) {
    m.advisorId == advisorId && m.familyId == familyId
  }

  /** The messages query of the advisor branch: sent or received by the
      advisor, within the family. */
  predicate AdvisorMessage(advisorId: string, familyId: string, m: Message) {
    (m.senderId == advisorId && m.familyId == familyId) ||
    (m.recipientId == advisorId && m.familyId == familyId)
  }

  /** `check_family_access`. Admins and family-office admins pass for every
      family id: the office is not consulted. A family member passes for its
      own family only; an advisor when some meeting or message links it to the
      family (the two counts are positive). */
  function FamilyAccess(user: User, familyId: string, meetings: seq<Meeting>, messages: seq<Message>): (r: bool)
    ensures user.role == Admin || user.role == FamilyOfficeAdmin ==> r
    ensures user.role == FamilyMember ==> (r <==> user.familyId == Some(familyId))
    ensures user.role == Advisor && meetings == [] && messages == [] ==> !r
  {
    if user.role == Admin || user.role == FamilyOfficeAdmin then true
    else if user.role == FamilyMember then user.familyId == Some(familyId)
    else if user.role == Advisor then
      var meetingsCount := Count((m: Meeting) => AdvisorMeeting(user.id, familyId, m), meetings);
      var messagesCount := Count((m: Message) => AdvisorMessage(user.id, familyId, m), messages);
      meetingsCount > 0 || messagesCount > 0
    else false
  }

  /** The advisor's link to a family, stated as the existence of a record. */
  predicate AdvisorLinked(advisorId: string, familyId: string, meetings: seq<Meeting>, messages: seq<Message>) {
    (exists i :: 0 <= i < |meetings| && meetings[i].advisorId == advisorId && meetings[i].familyId == familyId) ||
    (exists j :: 0 <= j < |messages| && messages[j].familyId == familyId &&
                 (messages[j].senderId == advisorId || messages[j].recipientId == advisorId))
  }

  /** An advisor's family access, stated without counts: some meeting it
      advises or some message it sent or received belongs to the family. The
      other roles' cases are the ensures of FamilyAccess. */
  lemma FamilyAccessByRole(user: User, familyId: string, meetings: seq<Meeting>, messages: seq<Message>)
    ensures user.role == Advisor ==>
              (FamilyAccess(user, familyId, meetings, messages) <==> AdvisorLinked(user.id, familyId, meetings, messages))
  {
    CountPositive((m: Meeting) => AdvisorMeeting(user.id, familyId, m), meetings);
    CountPositive((m: Message) => AdvisorMessage(user.id, familyId, m), messages);
  }

  /** `check_document_access`: family access to the document's family, and,
      when the document carries an access list, membership in it. */
  function DocumentAccess(user: User, doc: Document, meetings: seq<Meeting>, messages: seq<Message>): (r: bool)
    ensures r ==> FamilyAccess(user, doc.familyId, meetings, messages)
    ensures doc.accessPermissions != [] ==>
              (r <==> FamilyAccess(user, doc.familyId, meetings, messages) && user.id in doc.accessPermissions)
    ensures doc.accessPermissions == [] ==> (r <==> FamilyAccess(user, doc.familyId, meetings, messages))
  {
    if !FamilyAccess(user, doc.familyId, meetings, messages) then false
    else if |doc.accessPermissions| > 0 then user.id in doc.accessPermissions
    else true
  }
}
