/** The pure parts of the endpoints: splitting the tags string of an upload,
    the role-dependent filter of the family and family-office listings, the
    query records that the document, meeting and message listings build and
    the records each query matches, and the newest-first order of messages.
    Beside each query sits a reference predicate that states, without the
    query, which records the caller is meant to see. */
module Queries {
  import opened Common
  import opened Models
  import opened Auth

  /** The upload size limit: 50 MiB. */
  const MAX_UPLOAD_SIZE := 50 * 1024 * 1024

  // ----- Tags -----

  /** Python's `sep.join(parts)`. */
  function Join(parts: seq<string>, sep: char): string {
    if |parts| == 0 then ""
    else if |parts| == 1 then parts[0]
    else parts[0] + [sep] + Join(parts[1..], sep)
  }

  /** Python's `s.split(sep)` with an explicit separator: the pieces between
      separators, empty pieces included, and always at least one piece. */
  function Split(s: string, sep: char): (r: seq<string>)
    ensures |r| >= 1
    ensures forall i :: 0 <= i < |r| ==> sep !in r[i]
    ensures Join(r, sep) == s
  {
    if |s| == 0 then [""]
    else
      var rest := Split(s[1..], sep);
      if s[0] == sep then
        assert Join([""] + rest, sep) == "" + [sep] + Join(rest, sep) by {
          assert ([""] + rest)[1..] == rest;
        }
        assert [s[0]] + s[1..] == s;
        [""] + rest
      else
        var r := [[s[0]] + rest[0]] + rest[1..];
        assert Join(r, sep) == s by {
          assert r[1..] == rest[1..];
          if |rest| > 1 {
            assert Join(rest, sep) == rest[0] + [sep] + Join(rest[1..], sep);
          }
          assert [s[0]] + s[1..] == s;
        }
        assert forall i :: 1 <= i < |r| ==> r[i] == rest[i];
        r
  }

  /** Splitting a piece without separators followed by more text. */
  lemma {:induction false} SplitPrefix(a: string, t: string, sep: char)
    requires sep !in a
    ensures Split(a + t, sep) == [a + Split(t, sep)[0]] + Split(t, sep)[1..]
  {
    if |a| > 0 {
      assert (a + t)[0] == a[0] && (a + t)[1..] == a[1..] + t;
      SplitPrefix(a[1..], t, sep);
      assert [a[0]] + (a[1..] + Split(t, sep)[0]) == a + Split(t, sep)[0];
    } else {
      assert a + t == t;
      assert a + Split(t, sep)[0] == Split(t, sep)[0];
      assert [Split(t, sep)[0]] + Split(t, sep)[1..] == Split(t, sep);
    }
  }

  /** Splitting undoes joining pieces that contain no separator. */
  lemma {:induction false} SplitJoin(parts: seq<string>, sep: char)
    requires |parts| >= 1
    requires forall i :: 0 <= i < |parts| ==> sep !in parts[i]
    ensures Split(Join(parts, sep), sep) == parts
  {
    if |parts| == 1 {
      SplitPrefix(parts[0], "", sep);
      assert parts[0] + "" == parts[0];
    } else {
      var rest := Join(parts[1..], sep);
      SplitJoin(parts[1..], sep);
      assert parts[0] + [sep] + rest == parts[0] + ([sep] + rest);
      SplitPrefix(parts[0], [sep] + rest, sep);
      assert ([sep] + rest)[1..] == rest;
      assert Split([sep] + rest, sep) == [""] + parts[1..];
      assert parts[0] + "" == parts[0];
      assert [parts[0]] + parts[1..] == parts;
    }
  }

  /** `tags.split(",") if tags else []`: no tags for the empty string;
      otherwise comma-free pieces that join back to the string. */
  function Tags(tags: string): (r: seq<string>)
    ensures tags == "" ==> r == []
    ensures tags != "" ==> |r| >= 1 && Join(r, ',') == tags
    ensures forall i :: 0 <= i < |r| ==> ',' !in r[i]
  {
    if tags == "" then [] else Split(tags, ',')
  }

  // ----- Family offices and families -----

  /** A Mongo query on one field of a family or family office:
      `{}`, `{"family_office_id": x}` or `{"id": x}`. A family office has no
      `family_office_id` field, so that query matches no office. */
  datatype RecordFilter = AllRecords | ByOfficeId(officeId: string) | ById(id: Option<string>)

  /** The query of `get_family_offices`: it matches exactly the offices the
      caller is meant to see. */
  function OfficesFilter(caller: User): (q: RecordFilter)
    ensures forall o :: OfficeMatches(q, o) <==> OfficeVisible(caller, o)
  {
    if caller.role == Admin then AllRecords else ById(Some(caller.familyOfficeId))
  }

  /** The query of `get_families`: it matches exactly the families the
      caller is meant to see. */
  function FamiliesFilter(caller: User): (q: RecordFilter)
    ensures forall f :: FamilyMatches(q, f) <==> FamilyVisible(caller, f)
  {
    if caller.role == Admin then AllRecords
    else if caller.role == FamilyOfficeAdmin then ByOfficeId(caller.familyOfficeId)
    else ById(caller.familyId)
  }

  predicate OfficeMatches(q: RecordFilter, o: FamilyOffice) {
    match q
    case AllRecords => true
    case ByOfficeId(_) => false
    case ById(id) => id == Some(o.id)
  }

  predicate FamilyMatches(q: RecordFilter, f: Family) {
    match q
    case AllRecords => true
    case ByOfficeId(officeId) => f.familyOfficeId == officeId
    case ById(id) => id == Some(f.id)
  }

  /** Which family offices a caller is meant to see: all for an admin, its own
      office for everyone else. */
  predicate OfficeVisible(caller: User, o: FamilyOffice) {
    caller.role == Admin || o.id == caller.familyOfficeId
  }

  /** Which families a caller is meant to see: all for an admin, those of its
      office for a family-office admin, its own family for everyone else. */
  predicate FamilyVisible(caller: User, f: Family) {
    if caller.role == Admin then true
    else if caller.role == FamilyOfficeAdmin then f.familyOfficeId == caller.familyOfficeId
    else caller.familyId == Some(f.id)
  }

  // ----- Documents -----

  /** The query of `get_documents`: optional `family_id` and `document_type`. */
  datatype DocumentQuery = DocumentQuery(familyId: Option<string>, documentType: Option<string>)

  predicate DocumentMatches(q: DocumentQuery, d: Document) {
    (q.familyId.Some? ==> d.familyId == q.familyId.value) &&
    (q.documentType.Some? ==> DocumentTypeName(d.documentType) == q.documentType.value)
  }

  /** Which documents the listing is meant to return: those matching the
      given filters that the caller may access. */
  predicate DocumentListed(caller: User, familyId: Option<string>, documentType: Option<string>,
                           meetings: seq<Meeting>, messages: seq<Message>, d: Document) {
    (Given(familyId) ==> d.familyId == familyId.value) &&
    (Given(documentType) ==> DocumentTypeName(d.documentType) == documentType.value) &&
    DocumentAccess(caller, d, meetings, messages)
  }

  /** The documents listed for the caller, in store order. Each passes the
      document access check and the given filters, and every stored document
      that does so is listed. */
  function ListedDocuments(docs: seq<StoredDocument>, caller: User, familyId: Option<string>,
                           documentType: Option<string>, meetings: seq<Meeting>,
                           messages: seq<Message>): (r: seq<Document>)
    ensures |r| <= |docs|
    ensures forall i :: 0 <= i < |r| ==>
              DocumentAccess(caller, r[i], meetings, messages) &&
              FamilyAccess(caller, r[i].familyId, meetings, messages) &&
              (Given(familyId) ==> r[i].familyId == familyId.value) &&
              (Given(documentType) ==> DocumentTypeName(r[i].documentType) == documentType.value)
    ensures forall d :: d in docs && DocumentListed(caller, familyId, documentType, meetings, messages, d.meta) ==>
              d.meta in r
    ensures forall i :: 0 <= i < |r| ==> exists d :: d in docs && d.meta == r[i]
  {
    var kept := Filter((d: StoredDocument) => DocumentListed(caller, familyId, documentType, meetings, messages, d.meta), docs);
    assert forall i :: 0 <= i < |kept| ==> kept[i] in docs && Responses(kept)[i] == kept[i].meta;
    assert forall d :: d in docs && DocumentListed(caller, familyId, documentType, meetings, messages, d.meta) ==>
             d.meta in Responses(kept) by {
      forall d | d in docs && DocumentListed(caller, familyId, documentType, meetings, messages, d.meta)
        ensures d.meta in Responses(kept)
      {
        var i :| 0 <= i < |kept| && kept[i] == d;
        assert Responses(kept)[i] == d.meta;
      }
    }
    Responses(kept)
  }

  /** One more accessible-or-not document at the end of the scanned prefix. */
  lemma ResponsesFilterAppend(p: StoredDocument -> bool, s: seq<StoredDocument>, x: StoredDocument)
    ensures Responses(Filter(p, s + [x])) == Responses(Filter(p, s)) + (if p(x) then [x.meta] else [])
  {
    FilterAppend(p, s, x);
    if p(x) {
      ResponsesAppend(Filter(p, s), x);
    }
  }

  /** The query `get_documents` builds from its parameters: it matches a
      document exactly when the document is in the given family and of the
      given type, each filter applying only when it is given. */
  function DocumentsQueryFor(familyId: Option<string>, documentType: Option<string>): (q: DocumentQuery)
    ensures forall d :: DocumentMatches(q, d) <==>
              (Given(familyId) ==> d.familyId == familyId.value) &&
              (Given(documentType) ==> DocumentTypeName(d.documentType) == documentType.value)
  {
    DocumentQuery(if Given(familyId) then Some(familyId.value) else None,
                  if Given(documentType) then Some(documentType.value) else None)
  }

  /** Running the query and then keeping the accessible documents lists
      exactly the documents meant to be listed. */
  lemma QueryThenAccessIsListed(docs: seq<StoredDocument>, caller: User, familyId: Option<string>,
                                documentType: Option<string>, meetings: seq<Meeting>, messages: seq<Message>,
                                matchQuery: StoredDocument -> bool, access: StoredDocument -> bool)
    requires forall d :: matchQuery(d) == DocumentMatches(DocumentsQueryFor(familyId, documentType), d.meta)
    requires forall d :: access(d) == DocumentAccess(caller, d.meta, meetings, messages)
    ensures Responses(Filter(access, Filter(matchQuery, docs))) ==
            ListedDocuments(docs, caller, familyId, documentType, meetings, messages)
  {
    var listed := (d: StoredDocument) => DocumentListed(caller, familyId, documentType, meetings, messages, d.meta);
    FilterFilter(matchQuery, access, listed, docs);
  }

  // ----- Meetings -----

  /** The query of `get_meetings`. The family field holds an optional value
      because a family member's query is given its own `family_id`, which may
      be None and then matches no meeting. */
  datatype MeetingQuery = MeetingQuery(familyId: Option<Option<string>>, status: Option<string>,
                                       advisorId: Option<string>)

  predicate MeetingMatches(q: MeetingQuery, m: Meeting) {
    (q.familyId.Some? ==> q.familyId.value == Some(m.familyId)) &&
    (q.status.Some? ==> MeetingStatusName(m.status) == q.status.value) &&
    (q.advisorId.Some? ==> m.advisorId == q.advisorId.value)
  }

  /** Which meetings the listing is meant to return: those matching the given
      filters, and, for an advisor, those it advises; for a family member,
      those of its own family. */
  predicate MeetingVisible(caller: User, familyId: Option<string>, status: Option<string>, m: Meeting) {
    (Given(familyId) ==> m.familyId == familyId.value) &&
    (Given(status) ==> MeetingStatusName(m.status) == status.value) &&
    (caller.role == Advisor ==> m.advisorId == caller.id) &&
    (caller.role == FamilyMember ==> caller.familyId == Some(m.familyId))
  }

  // ----- Messages -----

  /** One alternative of the `$or` of a messages query: optional sender and
      recipient ids, both to be matched. */
  datatype PartyClause = PartyClause(senderId: Option<string>, recipientId: Option<string>)

  /** The query of `get_messages`: at least one alternative of `anyOf` holds,
      and the family, when given, matches. */
  datatype MessageQuery = MessageQuery(anyOf: seq<PartyClause>, familyId: Option<string>)

  predicate ClauseMatches(c: PartyClause, m: Message) {
    (c.senderId.Some? ==> m.senderId == c.senderId.value) &&
    (c.recipientId.Some? ==> m.recipientId == c.recipientId.value)
  }

  predicate MessageMatches(q: MessageQuery, m: Message) {
    (exists i :: 0 <= i < |q.anyOf| && ClauseMatches(q.anyOf[i], m)) &&
    (q.familyId.Some? ==> m.familyId == q.familyId.value)
  }

  /** Which messages the listing is meant to return: those the caller sent
      or received, only those exchanged with `recipientId` when it is given,
      and only those of `familyId` when it is given. */
  predicate MessageVisible(caller: User, familyId: Option<string>, recipientId: Option<string>, m: Message) {
    (if Given(recipientId) then
       (m.senderId == caller.id && m.recipientId == recipientId.value) ||
       (m.senderId == recipientId.value && m.recipientId == caller.id)
     else m.senderId == caller.id || m.recipientId == caller.id) &&
    (Given(familyId) ==> m.familyId == familyId.value)
  }

  /** The query `get_messages` builds from its parameters: two alternatives,
      each naming the caller as sender or as recipient, and a family clause
      exactly when a family is given. */
  function MessagesQueryFor(caller: User, familyId: Option<string>, recipientId: Option<string>): (q: MessageQuery)
    ensures |q.anyOf| == 2
    ensures forall i :: 0 <= i < |q.anyOf| ==>
              q.anyOf[i].senderId == Some(caller.id) || q.anyOf[i].recipientId == Some(caller.id)
    ensures q.familyId.Some? <==> Given(familyId)
    ensures q.familyId.Some? ==> q.familyId == familyId
  {
    MessageQuery(if Given(recipientId) then [PartyClause(Some(caller.id), Some(recipientId.value)),
                                             PartyClause(Some(recipientId.value), Some(caller.id))]
                 else [PartyClause(Some(caller.id), None), PartyClause(None, Some(caller.id))],
                 if Given(familyId) then Some(familyId.value) else None)
  }

  /** The built query selects exactly the messages meant to be listed. */
  lemma MessagesQuerySelectsVisible(caller: User, familyId: Option<string>, recipientId: Option<string>, m: Message)
    ensures MessageMatches(MessagesQueryFor(caller, familyId, recipientId), m) ==
            MessageVisible(caller, familyId, recipientId, m)
  {
    var q := MessagesQueryFor(caller, familyId, recipientId);
    assert (exists i :: 0 <= i < |q.anyOf| && ClauseMatches(q.anyOf[i], m)) <==>
           ClauseMatches(q.anyOf[0], m) || ClauseMatches(q.anyOf[1], m) by {
      if ClauseMatches(q.anyOf[0], m) {
        assert 0 < |q.anyOf|;
      } else if ClauseMatches(q.anyOf[1], m) {
        assert 1 < |q.anyOf|;
      }
    }
  }

  /** `sort("created_at", -1)`: every message is at least as recent as the
      ones after it. */
  predicate NewestFirst(s: seq<Message>) {
    forall i, j :: 0 <= i < j < |s| ==> s[i].createdAt >= s[j].createdAt
  }

  function InsertNewestFirst(m: Message, s: seq<Message>): (r: seq<Message>)
    requires NewestFirst(s)
    ensures NewestFirst(r)
    ensures multiset(r) == multiset(s) + multiset{m}
  {
    if s == [] then [m]
    else if m.createdAt >= s[0].createdAt then [m] + s
    else
      var rest := InsertNewestFirst(m, s[1..]);
      assert s == [s[0]] + s[1..];
      assert multiset([s[0]] + rest) == multiset{s[0]} + multiset(rest);
      HeadIsNewest(m, s, rest);
      PrependNewest(s[0], rest);
      [s[0]] + rest
  }

  /** The head of a newest-first list is at least as recent as every message
      of its tail with an older message inserted. */
  lemma HeadIsNewest(m: Message, s: seq<Message>, rest: seq<Message>)
    requires NewestFirst(s) && |s| > 0 && m.createdAt < s[0].createdAt
    requires multiset(rest) == multiset(s[1..]) + multiset{m}
    ensures forall k :: 0 <= k < |rest| ==> s[0].createdAt >= rest[k].createdAt
  {
    forall k | 0 <= k < |rest| ensures s[0].createdAt >= rest[k].createdAt {
      assert rest[k] in multiset(rest);
      if rest[k] != m {
        assert rest[k] in s[1..];
        var j :| 0 <= j < |s[1..]| && s[1..][j] == rest[k];
        assert s[j + 1] == rest[k];
      }
    }
  }

  lemma PrependNewest(x: Message, rest: seq<Message>)
    requires NewestFirst(rest)
    requires forall k :: 0 <= k < |rest| ==> x.createdAt >= rest[k].createdAt
    ensures NewestFirst([x] + rest)
  {
    var r := [x] + rest;
    forall i, j | 0 <= i < j < |r| ensures r[i].createdAt >= r[j].createdAt {
      assert r[j] == rest[j - 1];
      if i > 0 { assert r[i] == rest[i - 1]; }
    }
  }

  /** The newest-first order of a list of messages. Messages with equal
      timestamps keep no particular order in the store's sort; this one is a
      permitted choice. */
  function SortNewestFirst(s: seq<Message>): (r: seq<Message>)
    ensures NewestFirst(r)
    ensures multiset(r) == multiset(s)
  {
    if s == [] then []
    else
      assert s == [s[0]] + s[1..];
      InsertNewestFirst(s[0], SortNewestFirst(s[1..]))
  }

  /** Filtering by the built query is filtering by visibility. */
  lemma MessagesQueryFilter(caller: User, familyId: Option<string>, recipientId: Option<string>,
                            q: MessageQuery, messages: seq<Message>)
    requires q == MessagesQueryFor(caller, familyId, recipientId)
    ensures Filter((m: Message) => MessageMatches(q, m), messages) ==
            Filter((m: Message) => MessageVisible(caller, familyId, recipientId, m), messages)
  {
    forall i | 0 <= i < |messages|
      ensures MessageMatches(q, messages[i]) == MessageVisible(caller, familyId, recipientId, messages[i])
    {
      MessagesQuerySelectsVisible(caller, familyId, recipientId, messages[i]);
    }
    FilterExt((m: Message) => MessageMatches(q, m),
              (m: Message) => MessageVisible(caller, familyId, recipientId, m), messages);
  }

  /** The messages listed for the caller: newest first, exactly the visible
      messages (with multiplicity), so each has the caller as sender or
      recipient, is exchanged with `recipientId` when one is given, and
      belongs to `familyId` when one is given. */
  function ListedMessages(messages: seq<Message>, caller: User, familyId: Option<string>,
                          recipientId: Option<string>): (r: seq<Message>)
    ensures NewestFirst(r)
    ensures multiset(r) == multiset(Filter((m: Message) => MessageVisible(caller, familyId, recipientId, m), messages))
    ensures forall i :: 0 <= i < |r| ==> r[i].senderId == caller.id || r[i].recipientId == caller.id
    ensures Given(recipientId) ==> forall i :: 0 <= i < |r| ==>
              (r[i].senderId == caller.id && r[i].recipientId == recipientId.value) ||
              (r[i].senderId == recipientId.value && r[i].recipientId == caller.id)
    ensures Given(familyId) ==> forall i :: 0 <= i < |r| ==> r[i].familyId == familyId.value
  {
    var visible := (m: Message) => MessageVisible(caller, familyId, recipientId, m);
    var r := SortNewestFirst(Filter(visible, messages));
    FilterRearranged(visible, messages, r);
    r
  }
}
