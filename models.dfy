/** The enums and records of the family-office backend, with the default
    field values that a new record receives. Identifiers, timestamps and
    password hashes are produced outside the model and passed in; a timestamp
    is an integer that orders instants. */
module Models {
  import opened Common

  // ----- Enumerations (each a `str` enum: a tag and its string value) -----

  datatype Role = Admin | FamilyOfficeAdmin | Advisor | FamilyMember

  function RoleName(r: Role): string {
    match r
    case Admin => "admin"
    case FamilyOfficeAdmin => "family_office_admin"
    case Advisor => "advisor"
    case FamilyMember => "family_member"
  }

  const RoleNames: seq<string> := ["admin", "family_office_admin", "advisor", "family_member"]

  /** The role whose string value is `s`, and none for any other string. */
  function ParseRole(s: string): (r: Option<Role>)
    ensures r.Some? <==> s in RoleNames
    ensures r.Some? ==> RoleName(r.value) == s
  {
    if s == "admin" then Some(Admin)
    else if s == "family_office_admin" then Some(FamilyOfficeAdmin)
    else if s == "advisor" then Some(Advisor)
    else if s == "family_member" then Some(FamilyMember)
    else None
  }

  /** The four roles have four distinct string values, each naming its role. */
  lemma RoleRoundTrip(r: Role)
    ensures ParseRole(RoleName(r)) == Some(r)
    ensures RoleName(r) in RoleNames && |RoleNames| == 4
  {
  }

  datatype DocumentType = Contract | Report | TaxReturn | InvestmentDocument | MeetingNotes | OtherDocument

  function DocumentTypeName(t: DocumentType): string {
    match t
    case Contract => "contract"
    case Report => "report"
    case TaxReturn => "tax_return"
    case InvestmentDocument => "investment_document"
    case MeetingNotes => "meeting_notes"
    case OtherDocument => "other"
  }

  const DocumentTypeNames: seq<string> :=
    ["contract", "report", "tax_return", "investment_document", "meeting_notes", "other"]

  /** `DocumentType(s)`: the document type whose value is `s`; any other
      string matches no variant (Python raises ValueError). */
  function ParseDocumentType(s: string): (r: Option<DocumentType>)
    ensures r.Some? <==> s in DocumentTypeNames
    ensures r.Some? ==> DocumentTypeName(r.value) == s
  {
    if s == "contract" then Some(Contract)
    else if s == "report" then Some(Report)
    else if s == "tax_return" then Some(TaxReturn)
    else if s == "investment_document" then Some(InvestmentDocument)
    else if s == "meeting_notes" then Some(MeetingNotes)
    else if s == "other" then Some(OtherDocument)
    else None
  }

  lemma DocumentTypeRoundTrip(t: DocumentType)
    ensures ParseDocumentType(DocumentTypeName(t)) == Some(t)
    ensures DocumentTypeName(t) in DocumentTypeNames && |DocumentTypeNames| == 6
  {
  }

  datatype MeetingStatus = Scheduled | Confirmed | Completed | Cancelled

  function MeetingStatusName(s: MeetingStatus): string {
    match s
    case Scheduled => "scheduled"
    case Confirmed => "confirmed"
    case Completed => "completed"
    case Cancelled => "cancelled"
  }

  const MeetingStatusNames: seq<string> := ["scheduled", "confirmed", "completed", "cancelled"]

  function ParseMeetingStatus(s: string): (r: Option<MeetingStatus>)
    ensures r.Some? <==> s in MeetingStatusNames
    ensures r.Some? ==> MeetingStatusName(r.value) == s
  {
    if s == "scheduled" then Some(Scheduled)
    else if s == "confirmed" then Some(Confirmed)
    else if s == "completed" then Some(Completed)
    else if s == "cancelled" then Some(Cancelled)
    else None
  }

  lemma MeetingStatusRoundTrip(t: MeetingStatus)
    ensures ParseMeetingStatus(MeetingStatusName(t)) == Some(t)
    ensures MeetingStatusName(t) in MeetingStatusNames && |MeetingStatusNames| == 4
  {
  }

  datatype MessageType = Text | DocumentMessage | MeetingRequest

  function MessageTypeName(t: MessageType): string {
    match t
    case Text => "text"
    case DocumentMessage => "document"
    case MeetingRequest => "meeting_request"
  }

  const MessageTypeNames: seq<string> := ["text", "document", "meeting_request"]

  function ParseMessageType(s: string): (r: Option<MessageType>)
    ensures r.Some? <==> s in MessageTypeNames
    ensures r.Some? ==> MessageTypeName(r.value) == s
  {
    if s == "text" then Some(Text)
    else if s == "document" then Some(DocumentMessage)
    else if s == "meeting_request" then Some(MeetingRequest)
    else None
  }

  lemma MessageTypeRoundTrip(t: MessageType)
    ensures ParseMessageType(MessageTypeName(t)) == Some(t)
    ensures MessageTypeName(t) in MessageTypeNames && |MessageTypeNames| == 3
  {
  }

  // ----- Users -----

  datatype User = User(
    id: string,
    email: string,
    firstName: string,
    lastName: string,
    role: Role,
    familyOfficeId: string,
    familyId: Option<string>,
    isActive: bool,
    createdAt: int,
    updatedAt: int)

  /** A new `User`: active, created and updated at `now`. */
  function NewUser(id: string, email: string, firstName: string, lastName: string,
                   role: Role, familyOfficeId: string, familyId: Option<string>, now: int): (u: User)
    ensures u.isActive
    ensures u.createdAt == now && u.updatedAt == now
    ensures u.id == id && u.email == email && u.role == role
    ensures u.familyOfficeId == familyOfficeId && u.familyId == familyId
  {
    User(id, email, firstName, lastName, role, familyOfficeId, familyId, true, now, now)
  }

  /** A user as the `users` collection stores it: the user's fields plus the
      password hash. The collection has no schema, so `is_active` may be
      missing from a stored record. */
  datatype UserDoc = UserDoc(
    id: string,
    email: string,
    firstName: string,
    lastName: string,
    role: Role,
    familyOfficeId: string,
    familyId: Option<string>,
    isActive: Option<bool>,
    createdAt: int,
    updatedAt: int,
    password: string)

  /** `user.dict()` with the hash added under "password". */
  function StoreUser(u: User, passwordHash: string): (d: UserDoc)
    ensures d.password == passwordHash && d.isActive == Some(u.isActive)
    ensures d.id == u.id && d.email == u.email && d.role == u.role &&
            d.familyOfficeId == u.familyOfficeId && d.familyId == u.familyId
    ensures d.firstName == u.firstName && d.lastName == u.lastName &&
            d.createdAt == u.createdAt && d.updatedAt == u.updatedAt
  {
    UserDoc(u.id, u.email, u.firstName, u.lastName, u.role, u.familyOfficeId,
            u.familyId, Some(u.isActive), u.createdAt, u.updatedAt, passwordHash)
  }

  /** `User(**user_doc)`: a missing `is_active` takes the default, true. */
  function LoadUser(d: UserDoc): (u: User)
    ensures u.isActive <==> d.isActive != Some(false)
    ensures u.id == d.id && u.email == d.email && u.role == d.role && u.familyId == d.familyId
    ensures u.firstName == d.firstName && u.lastName == d.lastName && u.familyOfficeId == d.familyOfficeId
    ensures u.createdAt == d.createdAt && u.updatedAt == d.updatedAt
  {
    User(d.id, d.email, d.firstName, d.lastName, d.role, d.familyOfficeId, d.familyId,
         if d.isActive.Some? then d.isActive.value else true, d.createdAt, d.updatedAt)
  }

  /** Storing a user and loading it back gives the same user. */
  lemma StoreLoadRoundTrip(u: User, passwordHash: string)
    ensures LoadUser(StoreUser(u, passwordHash)) == u
  {
  }

  /** What the API returns for a user. It has no password field. */
  datatype UserResponse = UserResponse(
    id: string,
    email: string,
    firstName: string,
    lastName: string,
    role: Role,
    familyOfficeId: string,
    familyId: Option<string>,
    isActive: bool,
    createdAt: int)

  function ToResponse(u: User): (r: UserResponse)
    ensures r.id == u.id && r.email == u.email && r.role == u.role
    ensures r.familyOfficeId == u.familyOfficeId && r.familyId == u.familyId && r.isActive == u.isActive
    ensures r.firstName == u.firstName && r.lastName == u.lastName && r.createdAt == u.createdAt
  {
    UserResponse(u.id, u.email, u.firstName, u.lastName, u.role, u.familyOfficeId,
                 u.familyId, u.isActive, u.createdAt)
  }

  /** The response built from a stored user does not depend on the stored
      password hash: two records that differ only in the hash give the same
      response. */
  lemma ResponseHidesPassword(d: UserDoc, otherHash: string)
    ensures ToResponse(LoadUser(d)) == ToResponse(LoadUser(d.(password := otherHash)))
  {
  }

  datatype UserCreate = UserCreate(
    email: string,
    password: string,
    firstName: string,
    lastName: string,
    role: Role,
    familyOfficeId: string,
    familyId: Option<string>)

  // ----- Family offices and families -----

  datatype FamilyOffice = FamilyOffice(
    id: string,
    name: string,
    description: Option<string>,
    createdAt: int,
    updatedAt: int)

  function NewFamilyOffice(id: string, name: string, description: Option<string>, now: int): (o: FamilyOffice)
    ensures o.id == id && o.name == name && o.description == description
    ensures o.createdAt == now && o.updatedAt == now
  {
    FamilyOffice(id, name, description, now, now)
  }

  datatype FamilyOfficeCreate = FamilyOfficeCreate(name: string, description: Option<string>)

  datatype Family = Family(
    id: string,
    name: string,
    familyOfficeId: string,
    createdAt: int,
    updatedAt: int)

  function NewFamily(id: string, name: string, familyOfficeId: string, now: int): (f: Family)
    ensures f.id == id && f.name == name && f.familyOfficeId == familyOfficeId
    ensures f.createdAt == now && f.updatedAt == now
  {
    Family(id, name, familyOfficeId, now, now)
  }

  datatype FamilyCreate = FamilyCreate(name: string, familyOfficeId: string)

  // ----- Documents -----

  /** A document's metadata; `DocumentResponse` has exactly these fields. */
  datatype Document = Document(
    id: string,
    filename: string,
    originalFilename: string,
    fileSize: int,
    contentType: string,
    documentType: DocumentType,
    familyId: string,
    uploadedBy: string,
    uploadedAt: int,
    tags: seq<string>,
    description: Option<string>,
    accessPermissions: seq<string>,
    isActive: bool)

  /** A new `Document`: no tags, no access list (family access decides), active. */
  function NewDocument(id: string, filename: string, originalFilename: string, fileSize: int,
                       contentType: string, documentType: DocumentType, familyId: string,
                       uploadedBy: string, now: int): (d: Document)
    ensures d.accessPermissions == [] && d.tags == [] && d.isActive && d.description.None?
    ensures d.id == id && d.fileSize == fileSize && d.familyId == familyId && d.uploadedBy == uploadedBy
    ensures d.documentType == documentType && d.uploadedAt == now
  {
    Document(id, filename, originalFilename, fileSize, contentType, documentType, familyId,
             uploadedBy, now, [], None, [], true)
  }

  /** A document as the `documents` collection stores it: the metadata plus the
      base64 text of the file's content. */
  datatype StoredDocument = StoredDocument(meta: Document, fileContent: string)

  /** The `DocumentResponse`s of a list of stored documents. */
  function Responses(docs: seq<StoredDocument>): (r: seq<Document>)
    ensures |r| == |docs|
    ensures forall i :: 0 <= i < |docs| ==> r[i] == docs[i].meta
  {
    seq(|docs|, i requires 0 <= i < |docs| => docs[i].meta)
  }

  lemma ResponsesAppend(docs: seq<StoredDocument>, d: StoredDocument)
    ensures Responses(docs + [d]) == Responses(docs) + [d.meta]
  {
  }

  // ----- Meetings -----

  datatype Meeting = Meeting(
    id: string,
    title: string,
    description: Option<string>,
    startTime: int,
    endTime: int,
    familyId: string,
    advisorId: string,
    attendees: seq<string>,
    status: MeetingStatus,
    meetingLink: Option<string>,
    notes: Option<string>,
    actionItems: seq<string>,
    createdBy: string,
    createdAt: int,
    updatedAt: int)

  /** A new `Meeting`: scheduled, no attendees, no action items, no link and no notes. */
  function NewMeeting(id: string, title: string, startTime: int, endTime: int, familyId: string,
                      advisorId: string, createdBy: string, now: int): (m: Meeting)
    ensures m.status == Scheduled && m.attendees == [] && m.actionItems == []
    ensures m.meetingLink.None? && m.notes.None? && m.description.None?
    ensures m.id == id && m.familyId == familyId && m.advisorId == advisorId && m.createdBy == createdBy
    ensures m.startTime == startTime && m.endTime == endTime && m.createdAt == now
  {
    Meeting(id, title, None, startTime, endTime, familyId, advisorId, [], Scheduled,
            None, None, [], createdBy, now, now)
  }

  datatype MeetingCreate = MeetingCreate(
    title: string,
    description: Option<string>,
    startTime: int,
    endTime: int,
    familyId: string,
    advisorId: string,
    attendees: seq<string>,
    meetingLink: Option<string>)

  // ----- Messages -----

  /** A message; `MessageResponse` has exactly these fields. */
  datatype Message = Message(
    id: string,
    content: string,
    messageType: MessageType,
    senderId: string,
    recipientId: string,
    familyId: string,
    attachmentId: Option<string>,
    isRead: bool,
    createdAt: int)

  /** A new `Message`: plain text, no attachment, unread. */
  function NewMessage(id: string, content: string, senderId: string, recipientId: string,
                      familyId: string, now: int): (m: Message)
    ensures m.messageType == Text && m.attachmentId.None? && !m.isRead
    ensures m.id == id && m.content == content && m.senderId == senderId
    ensures m.recipientId == recipientId && m.familyId == familyId && m.createdAt == now
  {
    Message(id, content, Text, senderId, recipientId, familyId, None, false, now)
  }

  datatype MessageCreate = MessageCreate(
    content: string,
    messageType: MessageType,
    recipientId: string,
    familyId: string,
    attachmentId: Option<string>)

  // ----- Tokens -----

  /** The login answer. The access token is represented by the claims its JWT
      carries; signing, encoding and the expiry claim are not modelled. */
  datatype Token = Token(claims: map<string, string>, tokenType: string, expiresIn: int, user: UserResponse)

  datatype TokenData = TokenData(userId: string, email: string)
}
