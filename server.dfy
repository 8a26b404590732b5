/** The endpoints of the backend over an in-memory store. The store holds the
    six collections as sequences in insertion order; each endpoint is a
    validation chain that ends in an error status, an insert at the end of one
    collection, or a filtered read. The caller of an authenticated endpoint is
    the `User` that `get_current_user` resolved (see Auth.GetCurrentUser). */
module Server {
  import opened Common
  import opened Models
  import opened Auth
  import opened Queries

  const TOKEN_LIFETIME_SECONDS := 86400

  const DEMO_OFFICE_NAME := "Demo Family Office"
  const DEMO_OFFICE_DESCRIPTION := "Demo family office for testing"
  const DEMO_FAMILY_NAME := "Demo Family"
  const DEMO_ADMIN_EMAIL := "admin@demo.com"
  const DEMO_MEMBER_EMAIL := "member@demo.com"

  /** An uploaded file: its name, its declared content type and its bytes. */
  datatype UploadFile = UploadFile(filename: string, contentType: string, content: seq<bv8>)

  /** The answer of a download: original filename, content type, base64 text. */
  datatype Download = Download(filename: string, contentType: string, fileContent: string)

  predicate EmailTaken(users: seq<UserDoc>, email: string) {
    exists i :: 0 <= i < |users| && users[i].email == email
  }

  /** The unique index on `users.email`. */
  predicate UniqueEmails(users: seq<UserDoc>) {
    forall i, j :: 0 <= i < j < |users| ==> users[i].email != users[j].email
  }

  predicate UniqueIds(users: seq<UserDoc>) {
    forall i, j :: 0 <= i < j < |users| ==> users[i].id != users[j].id
  }

  predicate OfficeExists(offices: seq<FamilyOffice>, id: string) {
    exists i :: 0 <= i < |offices| && offices[i].id == id
  }

  predicate FamilyExists(families: seq<Family>, id: string) {
    exists i :: 0 <= i < |families| && families[i].id == id
  }

  predicate IsDemoOffice(o: FamilyOffice) { o.name == DEMO_OFFICE_NAME }
  predicate IsDemoFamily(f: Family) { f.name == DEMO_FAMILY_NAME }

  /** Under the unique email index, at most one user has any given email. */
  lemma {:induction false} AtMostOneUserPerEmail(users: seq<UserDoc>, email: string)
    requires UniqueEmails(users)
    ensures Count((u: UserDoc) => u.email == email, users) <= 1
  {
    if users != [] {
      AtMostOneUserPerEmail(users[1..], email);
      if users[0].email == email {
        forall k | 0 <= k < |users[1..]| ensures users[1..][k].email != email {
          assert users[1..][k] == users[k + 1];
        }
        CountPositive((u: UserDoc) => u.email == email, users[1..]);
      }
    }
  }

  lemma AppendFreshEmail(users: seq<UserDoc>, u: UserDoc)
    requires UniqueEmails(users) && !EmailTaken(users, u.email)
    ensures UniqueEmails(users + [u]) && EmailTaken(users + [u], u.email)
  {
    var s := users + [u];
    assert s[|users|] == u;
    forall i, j | 0 <= i < j < |s| ensures s[i].email != s[j].email {
      if j < |users| {
        assert s[i] == users[i] && s[j] == users[j];
      } else {
        assert s[i] == users[i];
      }
    }
  }

  /** The id `create_default_data` gives the demo office: the existing one's,
      or the fresh id of the one it inserts. */
  function DemoOfficeId(offices: seq<FamilyOffice>, freshId: string): (id: string)
    ensures (forall i :: 0 <= i < |offices| ==> !IsDemoOffice(offices[i])) ==> id == freshId
    ensures forall i | 0 <= i < |offices| && IsDemoOffice(offices[i]) &&
                       (forall j :: 0 <= j < i ==> !IsDemoOffice(offices[j])) :: id == offices[i].id
  {
    assert forall i | 0 <= i < |offices| && IsDemoOffice(offices[i]) &&
                      (forall j :: 0 <= j < i ==> !IsDemoOffice(offices[j])) ::
             Find(IsDemoOffice, offices) == Some(offices[i]) by {
      forall i | 0 <= i < |offices| && IsDemoOffice(offices[i]) &&
                 (forall j :: 0 <= j < i ==> !IsDemoOffice(offices[j]))
        ensures Find(IsDemoOffice, offices) == Some(offices[i])
      {
        FindFirst(IsDemoOffice, offices, i);
      }
    }
    match Find(IsDemoOffice, offices)
    case None => freshId
    case Some(o) => o.id
  }

  /** The id it gives the demo family, likewise. */
  function DemoFamilyId(families: seq<Family>, freshId: string): (id: string)
    ensures (forall i :: 0 <= i < |families| ==> !IsDemoFamily(families[i])) ==> id == freshId
    ensures forall i | 0 <= i < |families| && IsDemoFamily(families[i]) &&
                       (forall j :: 0 <= j < i ==> !IsDemoFamily(families[j])) :: id == families[i].id
  {
    assert forall i | 0 <= i < |families| && IsDemoFamily(families[i]) &&
                      (forall j :: 0 <= j < i ==> !IsDemoFamily(families[j])) ::
             Find(IsDemoFamily, families) == Some(families[i]) by {
      forall i | 0 <= i < |families| && IsDemoFamily(families[i]) &&
                 (forall j :: 0 <= j < i ==> !IsDemoFamily(families[j]))
        ensures Find(IsDemoFamily, families) == Some(families[i])
      {
        FindFirst(IsDemoFamily, families, i);
      }
    }
    match Find(IsDemoFamily, families)
    case None => freshId
    case Some(f) => f.id
  }

  // ----- Seeding -----

  const DEMO_ADMIN_PASSWORD := "admin123"
  const DEMO_MEMBER_PASSWORD := "member123"

  /** The demo office is present exactly once afterwards (when it was at most
      once before), and an office list that has it is left as it was. */
  function SeedOffices(offices: seq<FamilyOffice>, officeId: string, now: int): (r: seq<FamilyOffice>)
    ensures exists i :: 0 <= i < |r| && IsDemoOffice(r[i])
    ensures (exists i :: 0 <= i < |offices| && IsDemoOffice(offices[i])) ==> r == offices
    ensures Count(IsDemoOffice, offices) <= 1 ==> Count(IsDemoOffice, r) == 1
    ensures |offices| <= |r| && r[..|offices|] == offices
  {
    CountPositive(IsDemoOffice, offices);
    if Find(IsDemoOffice, offices).Some? then offices
    else
      var office := NewFamilyOffice(officeId, DEMO_OFFICE_NAME, Some(DEMO_OFFICE_DESCRIPTION), now);
      CountAppend(IsDemoOffice, offices, office);
      assert (offices + [office])[|offices|] == office;
      offices + [office]
  }

  /** The demo family, attached to `officeId` when it is created. */
  function SeedFamilies(families: seq<Family>, officeId: string, familyId: string, now: int): (r: seq<Family>)
    ensures exists i :: 0 <= i < |r| && IsDemoFamily(r[i])
    ensures (exists i :: 0 <= i < |families| && IsDemoFamily(families[i])) ==> r == families
    ensures Count(IsDemoFamily, families) <= 1 ==> Count(IsDemoFamily, r) == 1
    ensures |families| <= |r| && r[..|families|] == families
    ensures |r| > |families| ==> r[|families|].familyOfficeId == officeId && r[|families|].id == familyId
  {
    CountPositive(IsDemoFamily, families);
    if Find(IsDemoFamily, families).Some? then families
    else
      var family := NewFamily(familyId, DEMO_FAMILY_NAME, officeId, now);
      CountAppend(IsDemoFamily, families, family);
      assert (families + [family])[|families|] == family;
      families + [family]
  }

  /** The demo admin `create_default_data` inserts: an active admin of the
      demo office with no family, stored with the given hash. */
  function DemoAdmin(adminId: string, officeId: string, now: int, hash: string): (d: UserDoc)
    ensures d.email == DEMO_ADMIN_EMAIL && d.id == adminId && d.password == hash
    ensures LoadUser(d).role == Admin && LoadUser(d).isActive
    ensures d.familyOfficeId == officeId && d.familyId.None?
  {
    StoreUser(NewUser(adminId, DEMO_ADMIN_EMAIL, "Admin", "User", Admin, officeId, None, now), hash)
  }

  /** The demo family member: an active member of the demo family in the
      demo office, stored with the given hash. */
  function DemoMember(memberId: string, officeId: string, familyId: string, now: int, hash: string): (d: UserDoc)
    ensures d.email == DEMO_MEMBER_EMAIL && d.id == memberId && d.password == hash
    ensures LoadUser(d).role == FamilyMember && LoadUser(d).isActive
    ensures d.familyOfficeId == officeId && d.familyId == Some(familyId)
  {
    StoreUser(NewUser(memberId, DEMO_MEMBER_EMAIL, "Family", "Member", FamilyMember, officeId, Some(familyId), now), hash)
  }

  /** Insert-if-missing by email (`find_one({"email": ...})`, then
      `insert_one`): the email index stays unique, the email is then taken,
      every email taken before still is, and earlier users keep their place. */
  function AddIfMissing(users: seq<UserDoc>, d: UserDoc): (r: seq<UserDoc>)
    requires UniqueEmails(users)
    ensures UniqueEmails(r) && EmailTaken(r, d.email)
    ensures EmailTaken(users, d.email) ==> r == users
    ensures !EmailTaken(users, d.email) ==> r == users + [d]
    ensures forall e :: EmailTaken(users, e) ==> EmailTaken(r, e)
  {
    if EmailTaken(users, d.email) then users
    else
      AppendFreshEmail(users, d);
      assert forall e :: EmailTaken(users, e) ==> EmailTaken(users + [d], e) by {
        forall e | EmailTaken(users, e) ensures EmailTaken(users + [d], e) {
          var i :| 0 <= i < |users| && users[i].email == e;
          assert (users + [d])[i] == users[i];
        }
      }
      users + [d]
  }

  /** The demo users: each email is then held by exactly one user, and a
      user list that has both is left as it was. */
  function SeedUsers(users: seq<UserDoc>, officeId: string, familyId: string, adminId: string, memberId: string,
                     now: int, adminHash: string, memberHash: string): (r: seq<UserDoc>)
    requires UniqueEmails(users)
    ensures UniqueEmails(r) && EmailTaken(r, DEMO_ADMIN_EMAIL) && EmailTaken(r, DEMO_MEMBER_EMAIL)
    ensures EmailTaken(users, DEMO_ADMIN_EMAIL) && EmailTaken(users, DEMO_MEMBER_EMAIL) ==> r == users
    ensures Count((u: UserDoc) => u.email == DEMO_ADMIN_EMAIL, r) == 1
    ensures Count((u: UserDoc) => u.email == DEMO_MEMBER_EMAIL, r) == 1
    ensures forall e :: EmailTaken(users, e) ==> EmailTaken(r, e)
  {
    var withAdmin := AddIfMissing(users, DemoAdmin(adminId, officeId, now, adminHash));
    var withMember := AddIfMissing(withAdmin, DemoMember(memberId, officeId, familyId, now, memberHash));
    AtMostOneUserPerEmail(withMember, DEMO_ADMIN_EMAIL);
    AtMostOneUserPerEmail(withMember, DEMO_MEMBER_EMAIL);
    CountPositive((u: UserDoc) => u.email == DEMO_ADMIN_EMAIL, withMember);
    CountPositive((u: UserDoc) => u.email == DEMO_MEMBER_EMAIL, withMember);
    withMember
  }

  /** The demo records are present in these collections. */
  predicate SeededState(offices: seq<FamilyOffice>, families: seq<Family>, users: seq<UserDoc>) {
    (exists i :: 0 <= i < |offices| && IsDemoOffice(offices[i])) &&
    (exists i :: 0 <= i < |families| && IsDemoFamily(families[i])) &&
    EmailTaken(users, DEMO_ADMIN_EMAIL) && EmailTaken(users, DEMO_MEMBER_EMAIL)
  }

  /** Seeding leaves every demo record present, and seeding collections that
      already hold them changes nothing. */
  lemma SeedingSeeds(offices: seq<FamilyOffice>, families: seq<Family>, users: seq<UserDoc>,
                     officeId: string, familyId: string, adminId: string, memberId: string,
                     now: int, adminHash: string, memberHash: string)
    requires UniqueEmails(users)
    ensures var foId := DemoOfficeId(offices, officeId);
            SeededState(SeedOffices(offices, officeId, now), SeedFamilies(families, foId, familyId, now),
                        SeedUsers(users, foId, DemoFamilyId(families, familyId), adminId, memberId, now,
                                  adminHash, memberHash))
    ensures SeededState(offices, families, users) ==>
              var foId := DemoOfficeId(offices, officeId);
              SeedOffices(offices, officeId, now) == offices &&
              SeedFamilies(families, foId, familyId, now) == families &&
              SeedUsers(users, foId, DemoFamilyId(families, familyId), adminId, memberId, now,
                        adminHash, memberHash) == users
  {
  }

  /** On a store without the demo users, seeding makes both demo accounts
      usable with their documented passwords, whenever the stored hashes
      verify those passwords. */
  lemma SeededUsersCanLogIn(users: seq<UserDoc>, officeId: string, familyId: string, adminId: string,
                            memberId: string, now: int, adminHash: string, memberHash: string,
                            verify: (string, string) -> bool)
    requires UniqueEmails(users)
    requires !EmailTaken(users, DEMO_ADMIN_EMAIL) && !EmailTaken(users, DEMO_MEMBER_EMAIL)
    requires verify(DEMO_ADMIN_PASSWORD, adminHash) && verify(DEMO_MEMBER_PASSWORD, memberHash)
    ensures var r := SeedUsers(users, officeId, familyId, adminId, memberId, now, adminHash, memberHash);
            var admin := AuthenticateUser(r, DEMO_ADMIN_EMAIL, DEMO_ADMIN_PASSWORD, verify);
            var member := AuthenticateUser(r, DEMO_MEMBER_EMAIL, DEMO_MEMBER_PASSWORD, verify);
            admin.Some? && admin.value.role == Admin && admin.value.familyOfficeId == officeId &&
            member.Some? && member.value.role == FamilyMember && member.value.familyId == Some(familyId)
  {
    var admin := DemoAdmin(adminId, officeId, now, adminHash);
    var member := DemoMember(memberId, officeId, familyId, now, memberHash);
    var withAdmin := AddIfMissing(users, admin);
    assert withAdmin == users + [admin];
    assert !EmailTaken(withAdmin, DEMO_MEMBER_EMAIL) by {
      forall i | 0 <= i < |withAdmin| ensures withAdmin[i].email != DEMO_MEMBER_EMAIL {
        if i < |users| { assert withAdmin[i] == users[i]; }
      }
    }
    var r := withAdmin + [member];
    assert r == SeedUsers(users, officeId, familyId, adminId, memberId, now, adminHash, memberHash);
    assert r[|users|] == admin && r[|users| + 1] == member;
    forall j | 0 <= j < |users| ensures r[j].email != DEMO_ADMIN_EMAIL && r[j].email != DEMO_MEMBER_EMAIL {
      assert r[j] == users[j];
    }
    AuthenticateIsFirstMatch(r, DEMO_ADMIN_EMAIL, DEMO_ADMIN_PASSWORD, verify, |users|);
    AuthenticateIsFirstMatch(r, DEMO_MEMBER_EMAIL, DEMO_MEMBER_PASSWORD, verify, |users| + 1);
  }

  /** The loop of `get_documents`: the responses of the fetched documents
      that pass the document access check, in order. */
  method KeepAccessible(caller: User, found: seq<StoredDocument>, meetings: seq<Meeting>, messages: seq<Message>)
    returns (accessible: seq<Document>)
    ensures accessible == Responses(Filter((d: StoredDocument) => DocumentAccess(caller, d.meta, meetings, messages), found))
  {
    var access := (d: StoredDocument) => DocumentAccess(caller, d.meta, meetings, messages);
    accessible := [];
    var i := 0;
    while i < |found|
      invariant 0 <= i <= |found|
      invariant accessible == Responses(Filter(access, found[..i]))
    {
      assert found[..i + 1] == found[..i] + [found[i]];
      ResponsesFilterAppend(access, found[..i], found[i]);
      if access(found[i]) {
        accessible := accessible + [found[i].meta];
      }
      i := i + 1;
    }
    assert found[..i] == found;
  }

  class Store {
    var users: seq<UserDoc>
    var familyOffices: seq<FamilyOffice>
    var families: seq<Family>
    var documents: seq<StoredDocument>
    var meetings: seq<Meeting>
    var messages: seq<Message>

    /** The store's invariant: the unique email index. */
    ghost predicate Valid()
      reads this`users
    {
      UniqueEmails(users)
    }

    constructor ()
      ensures Valid()
      ensures users == [] && familyOffices == [] && families == []
      ensures documents == [] && meetings == [] && messages == []
    {
      users, familyOffices, families := [], [], [];
      documents, meetings, messages := [], [], [];
    }

    // ----- Authentication -----

    /** `register`: 400 when the email is taken, the family office does not
        exist, or a family id is given whose family does not exist; otherwise
        the new user, with the password hash, is appended. */
    method Register(req: UserCreate, id: string, now: int, passwordHash: string) returns (r: Result<UserResponse>)
      requires Valid()
      modifies this`users
      ensures Valid()
      ensures r.Err? <==> EmailTaken(old(users), req.email) || !OfficeExists(familyOffices, req.familyOfficeId) ||
                          (Given(req.familyId) && !FamilyExists(families, req.familyId.value))
      ensures r.Err? ==> r.status == BAD_REQUEST && users == old(users)
      ensures r.Ok? ==>
                var u := NewUser(id, req.email, req.firstName, req.lastName, req.role,
                                 req.familyOfficeId, req.familyId, now);
                users == old(users) + [StoreUser(u, passwordHash)] && r.value == ToResponse(u)
      ensures r.Ok? ==> |users| == |old(users)| + 1 && r.value.email == req.email && r.value.isActive
      ensures r.Ok? ==> forall verify: (string, string) -> bool | verify(req.password, passwordHash) ::
                          Login(req.email, req.password, verify).Ok? &&
                          Login(req.email, req.password, verify).value.user == r.value
    {
      if EmailTaken(users, req.email) {
        return Err(BAD_REQUEST);
      }
      if !OfficeExists(familyOffices, req.familyOfficeId) {
        return Err(BAD_REQUEST);
      }
      if Given(req.familyId) && !FamilyExists(families, req.familyId.value) {
        return Err(BAD_REQUEST);
      }
      var u := NewUser(id, req.email, req.firstName, req.lastName, req.role,
                       req.familyOfficeId, req.familyId, now);
      var d := StoreUser(u, passwordHash);
      AppendFreshEmail(users, d);
      users := users + [d];
      r := Ok(ToResponse(u));
      forall verify: (string, string) -> bool | verify(req.password, passwordHash)
        ensures Login(req.email, req.password, verify).Ok? &&
                Login(req.email, req.password, verify).value.user == r.value
      {
        AuthenticateIsFirstMatch(users, req.email, req.password, verify, |users| - 1);
      }
    }

    /** `login`: 401 on bad credentials; otherwise a bearer token for 86400
        seconds whose claims carry the user's id and email, and the user's
        details without the password. The active flag is not consulted. */
    function Login(email: string, password: string, verify: (string, string) -> bool): (r: Result<Token>)
      reads this`users
      ensures r.Err? <==> AuthenticateUser(users, email, password, verify).None?
      ensures r.Err? ==> r.status == UNAUTHORIZED
      ensures r.Ok? ==> r.value.expiresIn == TOKEN_LIFETIME_SECONDS && r.value.tokenType == "bearer"
      ensures r.Ok? ==> r.value.user.email == email &&
                        r.value.claims == map["sub" := r.value.user.id, "email" := email]
      ensures r.Ok? ==> exists i :: 0 <= i < |users| && users[i].email == email &&
                                    verify(password, users[i].password) &&
                                    r.value.user == ToResponse(LoadUser(users[i]))
    {
      match AuthenticateUser(users, email, password, verify)
      case None => Err(UNAUTHORIZED)
      case Some(u) =>
        Ok(Token(map["sub" := u.id, "email" := u.email], "bearer", TOKEN_LIFETIME_SECONDS, ToResponse(u)))
    }

    // ----- Family offices and families -----

    /** `create_family_office`: admins only; anyone else gets 403. */
    method CreateFamilyOffice(caller: User, req: FamilyOfficeCreate, id: string, now: int)
      returns (r: Result<FamilyOffice>)
      modifies this`familyOffices
      ensures caller.role != Admin ==> r == Err(FORBIDDEN) && familyOffices == old(familyOffices)
      ensures caller.role == Admin ==>
                r == Ok(NewFamilyOffice(id, req.name, req.description, now)) &&
                familyOffices == old(familyOffices) + [r.value]
    {
      if caller.role != Admin {
        return Err(FORBIDDEN);
      }
      var office := NewFamilyOffice(id, req.name, req.description, now);
      familyOffices := familyOffices + [office];
      r := Ok(office);
    }

    /** `get_family_offices`: exactly the visible offices, in store order. */
    function GetFamilyOffices(caller: User): (r: seq<FamilyOffice>)
      reads this`familyOffices
      ensures r == Filter((o: FamilyOffice) => OfficeVisible(caller, o), familyOffices)
      ensures caller.role == Admin ==> r == familyOffices
      ensures caller.role != Admin ==> forall i :: 0 <= i < |r| ==> r[i].id == caller.familyOfficeId
    {
      var q := OfficesFilter(caller);
      var found := Filter((o: FamilyOffice) => OfficeMatches(q, o), familyOffices);
      assert found == Filter((o: FamilyOffice) => OfficeVisible(caller, o), familyOffices) by {
        FilterExt((o: FamilyOffice) => OfficeMatches(q, o), (o: FamilyOffice) => OfficeVisible(caller, o), familyOffices);
      }
      if caller.role == Admin then
        FilterAll((o: FamilyOffice) => OfficeVisible(caller, o), familyOffices);
        found
      else found
    }

    /** `create_family`: admins and family-office admins only; anyone else
        gets 403. The office id is stored as given. */
    method CreateFamily(caller: User, req: FamilyCreate, id: string, now: int) returns (r: Result<Family>)
      modifies this`families
      ensures caller.role != Admin && caller.role != FamilyOfficeAdmin ==>
                r == Err(FORBIDDEN) && families == old(families)
      ensures caller.role == Admin || caller.role == FamilyOfficeAdmin ==>
                r == Ok(NewFamily(id, req.name, req.familyOfficeId, now)) &&
                families == old(families) + [r.value]
    {
      if caller.role != Admin && caller.role != FamilyOfficeAdmin {
        return Err(FORBIDDEN);
      }
      var family := NewFamily(id, req.name, req.familyOfficeId, now);
      families := families + [family];
      r := Ok(family);
    }

    /** `get_families`: exactly the visible families, in store order. */
    function GetFamilies(caller: User): (r: seq<Family>)
      reads this`families
      ensures r == Filter((f: Family) => FamilyVisible(caller, f), families)
      ensures caller.role == Admin ==> r == families
      ensures caller.role == FamilyOfficeAdmin ==>
                forall i :: 0 <= i < |r| ==> r[i].familyOfficeId == caller.familyOfficeId
      ensures caller.role == Advisor || caller.role == FamilyMember ==>
                forall i :: 0 <= i < |r| ==> caller.familyId == Some(r[i].id)
    {
      var q := FamiliesFilter(caller);
      var found := Filter((f: Family) => FamilyMatches(q, f), families);
      assert found == Filter((f: Family) => FamilyVisible(caller, f), families) by {
        FilterExt((f: Family) => FamilyMatches(q, f), (f: Family) => FamilyVisible(caller, f), families);
      }
      if caller.role == Admin then
        FilterAll((f: Family) => FamilyVisible(caller, f), families);
        found
      else found
    }

    // ----- Documents -----

    /** `upload_document`. The checks run in this order: an empty family id
        gives 400, no family access 403, a file over 50 MiB 400 (exactly 50 MiB
        passes), and a document type outside the enum makes `DocumentType(...)`
        raise, which FastAPI answers with 500. `encode` stands for base64. */
    method UploadDocument(caller: User, file: UploadFile, documentType: string, familyId: string,
                          description: Option<string>, tags: string, id: string, now: int,
                          encode: seq<bv8> -> string)
      returns (r: Result<Document>)
      modifies this`documents
      ensures r.Err? ==> documents == old(documents)
      ensures familyId == "" ==> r == Err(BAD_REQUEST)
      ensures familyId != "" && !FamilyAccess(caller, familyId, meetings, messages) ==> r == Err(FORBIDDEN)
      ensures (familyId != "" && FamilyAccess(caller, familyId, meetings, messages) &&
               |file.content| > MAX_UPLOAD_SIZE) ==> r == Err(BAD_REQUEST)
      ensures (familyId != "" && FamilyAccess(caller, familyId, meetings, messages) &&
               |file.content| <= MAX_UPLOAD_SIZE && documentType !in DocumentTypeNames) ==>
                r == Err(INTERNAL_SERVER_ERROR)
      ensures r.Ok? <==> familyId != "" && FamilyAccess(caller, familyId, meetings, messages) &&
                         |file.content| <= MAX_UPLOAD_SIZE && documentType in DocumentTypeNames
      ensures r.Ok? ==> documents == old(documents) + [StoredDocument(r.value, encode(file.content))]
      ensures r.Ok? ==> r.value.id == id && r.value.fileSize == |file.content| && r.value.tags == Tags(tags) &&
                        r.value.uploadedBy == caller.id && r.value.familyId == familyId &&
                        DocumentTypeName(r.value.documentType) == documentType &&
                        r.value.filename == file.filename && r.value.originalFilename == file.filename &&
                        r.value.contentType == file.contentType && r.value.description == description &&
                        r.value.accessPermissions == [] && r.value.isActive && r.value.uploadedAt == now
      ensures r.Ok? && (forall i :: 0 <= i < |old(documents)| ==> old(documents)[i].meta.id != id) ==>
                DownloadDocument(caller, id) == Ok(Download(file.filename, file.contentType, encode(file.content)))
    {
      if familyId == "" {
        return Err(BAD_REQUEST);
      }
      if !FamilyAccess(caller, familyId, meetings, messages) {
        return Err(FORBIDDEN);
      }
      if |file.content| > MAX_UPLOAD_SIZE {
        return Err(BAD_REQUEST);
      }
      var content := encode(file.content);
      var kind := ParseDocumentType(documentType);
      if kind.None? {
        return Err(INTERNAL_SERVER_ERROR);
      }
      var doc := NewDocument(id, file.filename, file.filename, |file.content|, file.contentType,
                             kind.value, familyId, caller.id, now);
      doc := doc.(tags := Tags(tags), description := description);
      ghost var before := documents;
      documents := documents + [StoredDocument(doc, content)];
      r := Ok(doc);
      if forall i :: 0 <= i < |before| ==> before[i].meta.id != id {
        FindFirst((d: StoredDocument) => d.meta.id == id, documents, |before|);
      }
    }

    /** `get_documents`: 403 for a family filter the caller cannot access;
        otherwise the documents of the store that match the filters and pass
        the document access check, in store order. */
    method GetDocuments(caller: User, familyId: Option<string>, documentType: Option<string>)
      returns (r: Result<seq<Document>>)
      ensures Given(familyId) && !FamilyAccess(caller, familyId.value, meetings, messages) ==> r == Err(FORBIDDEN)
      ensures !(Given(familyId) && !FamilyAccess(caller, familyId.value, meetings, messages)) ==>
                r == Ok(ListedDocuments(documents, caller, familyId, documentType, meetings, messages))
    {
      var ms, msgs := meetings, messages;
      var query := DocumentQuery(None, None);
      if Given(familyId) {
        if !FamilyAccess(caller, familyId.value, ms, msgs) {
          return Err(FORBIDDEN);
        }
        query := query.(familyId := Some(familyId.value));
      }
      if Given(documentType) {
        query := query.(documentType := Some(documentType.value));
      }
      assert query == DocumentsQueryFor(familyId, documentType);
      var matchQuery := (d: StoredDocument) => DocumentMatches(query, d.meta);
      var access := (d: StoredDocument) => DocumentAccess(caller, d.meta, ms, msgs);
      var found := Filter(matchQuery, documents);
      var accessible := KeepAccessible(caller, found, ms, msgs);
      QueryThenAccessIsListed(documents, caller, familyId, documentType, ms, msgs, matchQuery, access);
      r := Ok(accessible);
    }

    /** `download_document`: 404 for an unknown id, 403 without document
        access; otherwise the stored filename, content type and content of the
        first document with that id, unchanged. */
    function DownloadDocument(caller: User, documentId: string): (r: Result<Download>)
      reads this`documents, this`meetings, this`messages
      ensures (forall i :: 0 <= i < |documents| ==> documents[i].meta.id != documentId) ==> r == Err(NOT_FOUND)
      ensures r.Err? ==> r.status == NOT_FOUND || r.status == FORBIDDEN
      ensures r.Ok? ==> exists i :: 0 <= i < |documents| && documents[i].meta.id == documentId &&
                                    DocumentAccess(caller, documents[i].meta, meetings, messages) &&
                                    r.value == Download(documents[i].meta.originalFilename,
                                                        documents[i].meta.contentType,
                                                        documents[i].fileContent)
      ensures forall i | 0 <= i < |documents| && documents[i].meta.id == documentId &&
                         (forall j :: 0 <= j < i ==> documents[j].meta.id != documentId) ::
                r == (if DocumentAccess(caller, documents[i].meta, meetings, messages)
                      then Ok(Download(documents[i].meta.originalFilename, documents[i].meta.contentType,
                                       documents[i].fileContent))
                      else Err(FORBIDDEN))
    {
      var isDocument := (d: StoredDocument) => d.meta.id == documentId;
      assert forall i | 0 <= i < |documents| && documents[i].meta.id == documentId &&
                        (forall j :: 0 <= j < i ==> documents[j].meta.id != documentId) ::
               Find(isDocument, documents) == Some(documents[i]) by {
        forall i | 0 <= i < |documents| && documents[i].meta.id == documentId &&
                   (forall j :: 0 <= j < i ==> documents[j].meta.id != documentId)
          ensures Find(isDocument, documents) == Some(documents[i])
        {
          FindFirst(isDocument, documents, i);
        }
      }
      match Find(isDocument, documents)
      case None => Err(NOT_FOUND)
      case Some(d) =>
        if !DocumentAccess(caller, d.meta, meetings, messages) then Err(FORBIDDEN)
        else Ok(Download(d.meta.originalFilename, d.meta.contentType, d.fileContent))
    }

    // ----- Meetings -----

    /** `create_meeting`: 403 without access to the meeting's family;
        otherwise a scheduled meeting created by the caller is appended. */
    method CreateMeeting(caller: User, req: MeetingCreate, id: string, now: int) returns (r: Result<Meeting>)
      modifies this`meetings
      ensures !FamilyAccess(caller, req.familyId, old(meetings), messages) ==>
                r == Err(FORBIDDEN) && meetings == old(meetings)
      ensures FamilyAccess(caller, req.familyId, old(meetings), messages) ==>
                r.Ok? && meetings == old(meetings) + [r.value]
      ensures r.Ok? ==> r.value == NewMeeting(id, req.title, req.startTime, req.endTime, req.familyId,
                                              req.advisorId, caller.id, now)
                                     .(description := req.description, attendees := req.attendees,
                                       meetingLink := req.meetingLink)
      ensures r.Ok? ==> r.value.createdBy == caller.id && r.value.status == Scheduled &&
                        r.value.actionItems == [] && r.value.notes.None?
    {
      if !FamilyAccess(caller, req.familyId, meetings, messages) {
        return Err(FORBIDDEN);
      }
      var meeting := NewMeeting(id, req.title, req.startTime, req.endTime, req.familyId,
                                req.advisorId, caller.id, now);
      meeting := meeting.(description := req.description, attendees := req.attendees,
                          meetingLink := req.meetingLink);
      meetings := meetings + [meeting];
      r := Ok(meeting);
    }

    /** `get_meetings`: for a family filter the caller cannot access, the
        code means to answer 403, but its query parameter `status` shadows
        FastAPI's `status` module, so building that exception raises and the
        answer is 500; no meeting is returned either way. Otherwise the
        meetings matching the filters, restricted to the caller's own for an
        advisor and to the caller's family for a family member, in store
        order. */
    method GetMeetings(caller: User, familyId: Option<string>, status: Option<string>)
      returns (r: Result<seq<Meeting>>)
      ensures Given(familyId) && !FamilyAccess(caller, familyId.value, meetings, messages) ==>
                r == Err(INTERNAL_SERVER_ERROR)
      ensures !(Given(familyId) && !FamilyAccess(caller, familyId.value, meetings, messages)) ==>
                r == Ok(Filter((m: Meeting) => MeetingVisible(caller, familyId, status, m), meetings))
      ensures r.Ok? && caller.role == Advisor ==> forall i :: 0 <= i < |r.value| ==> r.value[i].advisorId == caller.id
      ensures r.Ok? && caller.role == FamilyMember ==>
                forall i :: 0 <= i < |r.value| ==> caller.familyId == Some(r.value[i].familyId)
    {
      var query := MeetingQuery(None, None, None);
      if Given(familyId) {
        if !FamilyAccess(caller, familyId.value, meetings, messages) {
          return Err(INTERNAL_SERVER_ERROR);
        }
        query := query.(familyId := Some(Some(familyId.value)));
      }
      if Given(status) {
        query := query.(status := Some(status.value));
      }
      if caller.role == Advisor {
        query := query.(advisorId := Some(caller.id));
      } else if caller.role == FamilyMember {
        query := query.(familyId := Some(caller.familyId));
      }
      ghost var visible := (m: Meeting) => MeetingVisible(caller, familyId, status, m);
      if Given(familyId) {
        FamilyAccessByRole(caller, familyId.value, meetings, messages);
      }
      forall i | 0 <= i < |meetings| ensures MeetingMatches(query, meetings[i]) == visible(meetings[i]) {
      }
      FilterExt((m: Meeting) => MeetingMatches(query, m), visible, meetings);
      r := Ok(Filter((m: Meeting) => MeetingMatches(query, m), meetings));
    }

    // ----- Messages -----

    /** `send_message`: 403 without access to the message's family; otherwise
        an unread message from the caller is appended. */
    method SendMessage(caller: User, req: MessageCreate, id: string, now: int) returns (r: Result<Message>)
      modifies this`messages
      ensures !FamilyAccess(caller, req.familyId, meetings, old(messages)) ==>
                r == Err(FORBIDDEN) && messages == old(messages)
      ensures FamilyAccess(caller, req.familyId, meetings, old(messages)) ==>
                r.Ok? && messages == old(messages) + [r.value]
      ensures r.Ok? ==> r.value.senderId == caller.id && !r.value.isRead && r.value.id == id &&
                        r.value.recipientId == req.recipientId && r.value.familyId == req.familyId &&
                        r.value.content == req.content && r.value.messageType == req.messageType &&
                        r.value.attachmentId == req.attachmentId && r.value.createdAt == now
    {
      if !FamilyAccess(caller, req.familyId, meetings, messages) {
        return Err(FORBIDDEN);
      }
      var message := NewMessage(id, req.content, caller.id, req.recipientId, req.familyId, now);
      message := message.(messageType := req.messageType, attachmentId := req.attachmentId);
      messages := messages + [message];
      r := Ok(message);
    }

    /** `get_messages`: 403 for a family filter the caller cannot access;
        otherwise, newest first, exactly the messages the caller sent or
        received (with `recipientId`: exchanged with that user), within the
        family filter when given. */
    method GetMessages(caller: User, familyId: Option<string>, recipientId: Option<string>)
      returns (r: Result<seq<Message>>)
      ensures Given(familyId) && !FamilyAccess(caller, familyId.value, meetings, messages) ==> r == Err(FORBIDDEN)
      ensures !(Given(familyId) && !FamilyAccess(caller, familyId.value, meetings, messages)) ==>
                r == Ok(ListedMessages(messages, caller, familyId, recipientId))
    {
      var query := MessageQuery([PartyClause(Some(caller.id), None), PartyClause(None, Some(caller.id))], None);
      if Given(familyId) {
        if !FamilyAccess(caller, familyId.value, meetings, messages) {
          return Err(FORBIDDEN);
        }
        query := query.(familyId := Some(familyId.value));
      }
      if Given(recipientId) {
        query := query.(anyOf := [PartyClause(Some(caller.id), Some(recipientId.value)),
                                  PartyClause(Some(recipientId.value), Some(caller.id))]);
      }
      var found := Filter((m: Message) => MessageMatches(query, m), messages);
      MessagesQueryFilter(caller, familyId, recipientId, query, messages);
      r := Ok(SortNewestFirst(found));
    }

    // ----- Seeding -----

    /** The demo office step: insert it unless an office of that name exists,
        and answer the id of the office found or inserted. */
    method SeedOffice(officeId: string, now: int) returns (foId: string)
      modifies this`familyOffices
      ensures familyOffices == SeedOffices(old(familyOffices), officeId, now)
      ensures foId == DemoOfficeId(old(familyOffices), officeId)
    {
      var existingOffice := Find(IsDemoOffice, familyOffices);
      if existingOffice.None? {
        var demoOffice := NewFamilyOffice(officeId, DEMO_OFFICE_NAME, Some(DEMO_OFFICE_DESCRIPTION), now);
        familyOffices := familyOffices + [demoOffice];
        foId := demoOffice.id;
      } else {
        foId := existingOffice.value.id;
      }
    }

    /** The demo family step, attaching a new family to office `foId`. */
    method SeedFamily(foId: string, familyId: string, now: int) returns (famId: string)
      modifies this`families
      ensures families == SeedFamilies(old(families), foId, familyId, now)
      ensures famId == DemoFamilyId(old(families), familyId)
    {
      var existingFamily := Find(IsDemoFamily, families);
      if existingFamily.None? {
        var demoFamily := NewFamily(familyId, DEMO_FAMILY_NAME, foId, now);
        families := families + [demoFamily];
        famId := demoFamily.id;
      } else {
        famId := existingFamily.value.id;
      }
    }

    /** The demo user steps: the admin, then the member, each inserted only
        when its email is free. */
    method SeedDemoUsers(foId: string, famId: string, adminId: string, memberId: string, now: int,
                         adminHash: string, memberHash: string)
      requires Valid()
      modifies this`users
      ensures Valid()
      ensures users == SeedUsers(old(users), foId, famId, adminId, memberId, now, adminHash, memberHash)
    {
      var admin := DemoAdmin(adminId, foId, now, adminHash);
      if !EmailTaken(users, DEMO_ADMIN_EMAIL) {
        users := users + [admin];
      }
      assert users == AddIfMissing(old(users), admin);
      ghost var withAdmin := users;
      var member := DemoMember(memberId, foId, famId, now, memberHash);
      if !EmailTaken(users, DEMO_MEMBER_EMAIL) {
        users := users + [member];
      }
      assert users == AddIfMissing(withAdmin, member);
    }

    /** The demo records are present. */
    ghost predicate Seeded()
      reads this`familyOffices, this`families, this`users
    {
      SeededState(familyOffices, families, users)
    }

    /** `create_default_data`, one insert-if-missing after the other; the
        family is attached to the office found or created first, and the
        member to that family. Afterwards the demo records are present, and a
        seeded store is left as it was. */
    method CreateDefaultData(officeId: string, familyId: string, adminId: string, memberId: string,
                             now: int, adminHash: string, memberHash: string)
      requires Valid()
      modifies this`familyOffices, this`families, this`users
      ensures Valid() && Seeded()
      ensures familyOffices == SeedOffices(old(familyOffices), officeId, now)
      ensures families == SeedFamilies(old(families), DemoOfficeId(old(familyOffices), officeId), familyId, now)
      ensures users == SeedUsers(old(users), DemoOfficeId(old(familyOffices), officeId),
                                 DemoFamilyId(old(families), familyId), adminId, memberId, now,
                                 adminHash, memberHash)
      ensures old(Seeded()) ==>
                familyOffices == old(familyOffices) && families == old(families) && users == old(users)
    {
      ghost var offices0, families0, users0 := familyOffices, families, users;
      var foId := SeedOffice(officeId, now);
      var famId := SeedFamily(foId, familyId, now);
      SeedDemoUsers(foId, famId, adminId, memberId, now, adminHash, memberHash);
      SeedingSeeds(offices0, families0, users0, officeId, familyId, adminId, memberId, now, adminHash, memberHash);
    }
  }

  /** A token issued by `login` passes the claim check and names the user
      who logged in. When ids are unique, `get_current_user` then resolves it
      to that same user, unless the user is deactivated: login itself does not
      look at the flag, but every authenticated endpoint refuses the token. */
  lemma LoginThenCurrentUser(s: Store, email: string, password: string, verify: (string, string) -> bool)
    requires UniqueIds(s.users)
    requires s.Login(email, password, verify).Ok?
    ensures VerifyClaims(s.Login(email, password, verify).value.claims) ==
              Ok(TokenData(s.Login(email, password, verify).value.user.id, email))
    ensures var token := s.Login(email, password, verify).value;
            var current := GetCurrentUser(s.users, token.claims);
            (current.Ok? <==> token.user.isActive) && (current.Ok? ==> ToResponse(current.value) == token.user)
  {
    var token := s.Login(email, password, verify).value;
    var i :| 0 <= i < |s.users| && s.users[i].email == email && verify(password, s.users[i].password) &&
             token.user == ToResponse(LoadUser(s.users[i]));
    assert forall j :: 0 <= j < i ==> s.users[j].id != s.users[i].id;
    CurrentUserIsFirstMatch(s.users, token.claims, i);
  }
}
