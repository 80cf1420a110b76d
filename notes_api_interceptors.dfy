/**
 * The request router that answers intercepted notes-API requests from the
 * entry store (mocks/notesApiInterceptors.ts).
 *
 * Each handler is given twice: as a function from the store's contents and a
 * request to the new contents and an outcome (the specification the lemmas
 * talk about), and as a method that performs the same steps on a shared
 * `NotesStore`, proved to agree with that function.
 */
module NotesApiInterceptors {

  import opened Wrappers
  import opened NotesMockData

  /**
   * The JSON request body. A missing body reads as `{}`; a field that is
   * absent (or `null`) is `None`.
   */
  datatype Body = Body(id: Option<string>, name: Option<string>, createdDate: Option<string>)

  /**
   * An intercepted request: its HTTP method (`verb`), its full URL, the `id` and
   * `date` query parameters read from that URL, and its body.
   */
  datatype Request = Request(verb: string, url: string, idParam: Option<string>, dateParam: Option<string>, body: Body)

  /** The JSON value a fulfilled response carries. */
  datatype ResponseBody =
    | ErrorBody(error: string)
    | SuccessBody
    | EntryBody(entry: NoteEntry)
    | ListBody(entries: seq<NoteEntry>)

  /**
   * What a handler does with a request: answer it, let it through to the
   * network unchanged, or throw (date canonicalisation failed), in which case
   * the handler's promise rejects and the request gets no answer from it.
   */
  datatype Outcome = Fulfill(status: int, body: ResponseBody) | Continue | Rejected

  /** The store's contents after a request, and the request's outcome. */
  datatype Reply = Reply(store: seq<NoteEntry>, outcome: Outcome)

  const EntryNotFound: string := "Entry not found"
  const NameAndDateRequired: string := "Name and date are required"
  const IdRequired: string := "ID is required"
  const InvalidDateFormat: string := "Invalid date format"

  const TestEntryId: string := "test-id"
  const SpecialContentEntryId: string := "special-content-id"
  /** The date the special-content mock uses when the caller gives none. */
  const DefaultSpecialContentDate: string := "2024-01-01"

  // The note texts of the special-content mock.
  const MultilineNote: string := "Line 1\nLine 2\nLine 3"
  const UnicodeNote: string := "Unicode test: 你好, こんにちは, Привет"
  const HtmlNote: string := "<script>alert('test')</script><p>Test</p>"
  const EmojiNote: string := "Test with emojis \U{1F600} \U{1F389} \U{1F31F}"

  // ---------------------------------------------------------------------
  // Specification: each handler as a function of the store's contents
  // ---------------------------------------------------------------------

  /** `handleGetRequest`: by id first, then by date, else the whole store. */
  function GetReply(s: seq<NoteEntry>, req: Request, canon: Canonicalizer): (o: Outcome)
    ensures !o.Continue?
    ensures o.Rejected? <==> !Truthy(req.idParam) && Truthy(req.dateParam) && canon(req.dateParam.value).None?
    ensures o == Fulfill(404, ErrorBody(EntryNotFound))
            <==> Truthy(req.idParam) && forall k :: 0 <= k < |s| ==> s[k].id != req.idParam.value
    ensures o.Fulfill? && o.body.EntryBody? ==> o.status == 200 && o.body.entry in s && Truthy(req.idParam) && o.body.entry.id == req.idParam.value
    ensures o.Fulfill? && o.body.ListBody? ==> o.status == 200 && !Truthy(req.idParam) && |o.body.entries| <= |s|
  {
    if Truthy(req.idParam) then
      match FindIndex(s, req.idParam.value)
      case Some(i) => Fulfill(200, EntryBody(s[i]))
      case None => Fulfill(404, ErrorBody(EntryNotFound))
    else if Truthy(req.dateParam) then
      match canon(req.dateParam.value)
      case None => Rejected
      case Some(iso) => Fulfill(200, ListBody(WithDate(s, iso)))
    else
      Fulfill(200, ListBody(s))
  }

  /** `handlePostRequest`: append the posted name and date, both required. */
  function PostReply(s: seq<NoteEntry>, req: Request): (r: Reply)
    ensures r.outcome in {Fulfill(201, SuccessBody), Fulfill(400, ErrorBody(NameAndDateRequired))}
    ensures r.outcome.status == 201 <==> Truthy(req.body.name) && Truthy(req.body.createdDate)
    ensures r.outcome.status == 400 ==> r.store == s
    ensures r.outcome.status == 201 ==> |r.store| == |s| + 1 && r.store[..|s|] == s
  {
    if !Truthy(req.body.name) || !Truthy(req.body.createdDate) then
      Reply(s, Fulfill(400, ErrorBody(NameAndDateRequired)))
    else
      Reply(Appended(s, req.body.name, req.body.createdDate, None), Fulfill(201, SuccessBody))
  }

  /** The updates object PUT builds: only the truthy name and date. */
  function PutUpdates(b: Body): (p: Patch)
    ensures p.id.None?
    ensures p.name.Some? <==> Truthy(b.name)
    ensures p.createdDate.Some? <==> Truthy(b.createdDate)
    ensures p.name.Some? ==> p.name == b.name
    ensures p.createdDate.Some? ==> p.createdDate == b.createdDate
  {
    Patch(if Truthy(b.name) then b.name else None,
          if Truthy(b.createdDate) then b.createdDate else None,
          None)
  }

  /** `handlePutRequest`: merge into the entry whose id the body names. */
  function PutReply(s: seq<NoteEntry>, req: Request): (r: Reply)
    ensures r.outcome in {Fulfill(200, SuccessBody), Fulfill(400, ErrorBody(IdRequired)), Fulfill(404, ErrorBody(EntryNotFound))}
    ensures r.outcome.status == 400 <==> !Truthy(req.body.id)
    ensures r.outcome.status == 200 <==> Truthy(req.body.id) && exists k :: 0 <= k < |s| && s[k].id == req.body.id.value
    ensures r.outcome.status != 200 ==> r.store == s
    ensures |r.store| == |s|
  {
    if !Truthy(req.body.id) then
      Reply(s, Fulfill(400, ErrorBody(IdRequired)))
    else if FindIndex(s, req.body.id.value).Some? then
      Reply(Updated(s, req.body.id.value, PutUpdates(req.body)), Fulfill(200, SuccessBody))
    else
      Reply(s, Fulfill(404, ErrorBody(EntryNotFound)))
  }

  /** `handleDeleteRequest`: remove the entry the `id` query names. */
  function DeleteReply(s: seq<NoteEntry>, req: Request): (r: Reply)
    ensures r.outcome in {Fulfill(200, SuccessBody), Fulfill(400, ErrorBody(IdRequired)), Fulfill(404, ErrorBody(EntryNotFound))}
    ensures r.outcome.status == 400 <==> !Truthy(req.idParam)
    ensures r.outcome.status == 200 <==> Truthy(req.idParam) && exists k :: 0 <= k < |s| && s[k].id == req.idParam.value
    ensures r.outcome.status != 200 ==> r.store == s
    ensures r.outcome.status == 200 ==> |r.store| == |s| - 1
  {
    if !Truthy(req.idParam) then
      Reply(s, Fulfill(400, ErrorBody(IdRequired)))
    else if FindIndex(s, req.idParam.value).Some? then
      Reply(Removed(s, req.idParam.value), Fulfill(200, SuccessBody))
    else
      Reply(s, Fulfill(404, ErrorBody(EntryNotFound)))
  }

  /**
   * `setupNotesApiInterceptors`: one handler per method; any other method
   * passes through untouched.
   */
  function Route(s: seq<NoteEntry>, req: Request, canon: Canonicalizer): (r: Reply)
    ensures r.outcome.Continue? <==> req.verb !in {"GET", "POST", "PUT", "DELETE"}
    ensures r.outcome.Continue? ==> r.store == s
    ensures r.outcome.Rejected? ==> req.verb == "GET" && r.store == s
  {
    if req.verb == "GET" then Reply(s, GetReply(s, req, canon))
    else if req.verb == "POST" then PostReply(s, req)
    else if req.verb == "PUT" then PutReply(s, req)
    else if req.verb == "DELETE" then DeleteReply(s, req)
    else Reply(s, Continue)
  }

  /**
   * The shared behaviour of the two fixed-answer mocks: the date is
   * canonicalised before anything else; POST appends without validation;
   * GET answers one synthetic entry and ignores the store.
   */
  function FixedEntryReply(s: seq<NoteEntry>, req: Request, content: string, testDate: string,
                           entryId: string, canon: Canonicalizer): (r: Reply)
    ensures r.outcome.Rejected? <==> canon(testDate).None?
    ensures r.outcome.Continue? <==> canon(testDate).Some? && req.verb !in {"POST", "GET"}
    ensures req.verb != "POST" || canon(testDate).None? ==> r.store == s
    ensures req.verb == "POST" && canon(testDate).Some? ==>
              r.outcome == Fulfill(201, SuccessBody) && |r.store| == |s| + 1 && r.store[..|s|] == s
              && r.store[|s|].name == req.body.name && r.store[|s|].createdDate == req.body.createdDate
    ensures req.verb == "GET" && canon(testDate).Some? ==>
              r.outcome == Fulfill(200, ListBody([NoteEntry(Some(content), canon(testDate), entryId)]))
  {
    match canon(testDate)
    case None => Reply(s, Rejected)
    case Some(iso) =>
      if req.verb == "POST" then
        Reply(Appended(s, req.body.name, req.body.createdDate, None), Fulfill(201, SuccessBody))
      else if req.verb == "GET" then
        Reply(s, Fulfill(200, ListBody([NoteEntry(Some(content), Some(iso), entryId)])))
      else
        Reply(s, Continue)
  }

  /** `setupTestSpecificMock`. */
  function TestSpecificReply(s: seq<NoteEntry>, req: Request, testContent: string, testDate: string,
                             canon: Canonicalizer): (r: Reply)
    ensures r.outcome.Rejected? <==> canon(testDate).None?
    ensures req.verb == "GET" && canon(testDate).Some? ==>
              r.outcome == Fulfill(200, ListBody([NoteEntry(Some(testContent), canon(testDate), TestEntryId)]))
    ensures req.verb == "POST" && canon(testDate).Some? ==>
              r.outcome == Fulfill(201, SuccessBody) && r.store == Appended(s, req.body.name, req.body.createdDate, None)
    ensures req.verb !in {"GET", "POST"} ==> r.store == s
  {
    FixedEntryReply(s, req, testContent, testDate, TestEntryId, canon)
  }

  /** The `contentType` switch of `setupSpecialContentMock`. */
  function SpecialContent(contentType: string): (content: string)
    ensures content in {MultilineNote, UnicodeNote, HtmlNote, EmojiNote, MediumNote}
    ensures contentType == "multiline" ==> content == MultilineNote
    ensures contentType == "unicode" ==> content == UnicodeNote
    ensures contentType == "html" ==> content == HtmlNote
    ensures contentType == "emoji" ==> content == EmojiNote
    ensures contentType !in {"multiline", "unicode", "html", "emoji"} ==> content == MediumNote
  {
    match contentType
    case "multiline" => MultilineNote
    case "unicode" => UnicodeNote
    case "html" => HtmlNote
    case "emoji" => EmojiNote
    case _ => MediumNote
  }

  /** `setupSpecialContentMock`. */
  function SpecialContentReply(s: seq<NoteEntry>, req: Request, canon: Canonicalizer, contentType: string,
                               testDate: string := DefaultSpecialContentDate): (r: Reply)
    ensures r.outcome.Rejected? <==> canon(testDate).None?
    ensures req.verb == "GET" && canon(testDate).Some? ==>
              r.outcome == Fulfill(200, ListBody([NoteEntry(Some(SpecialContent(contentType)), canon(testDate), SpecialContentEntryId)]))
    ensures req.verb == "POST" && canon(testDate).Some? ==>
              r.outcome == Fulfill(201, SuccessBody) && r.store == Appended(s, req.body.name, req.body.createdDate, None)
    ensures req.verb !in {"GET", "POST"} ==> r.store == s
  {
    FixedEntryReply(s, req, SpecialContent(contentType), testDate, SpecialContentEntryId, canon)
  }

  /** `pattern` occurs in `text` starting at index `i`. */
  predicate OccursAt(text: string, pattern: string, i: nat) {
    i + |pattern| <= |text| && text[i..i + |pattern|] == pattern
  }

  /** `text.includes(pattern)`. */
  function Contains(text: string, pattern: string): (r: bool)
    ensures r <==> exists i: nat :: OccursAt(text, pattern, i)
    decreases |text|
  {
    if |pattern| > |text| then false
    else if text[..|pattern|] == pattern then
      assert OccursAt(text, pattern, 0);
      true
    else
      var r := Contains(text[1..], pattern);
      assert forall i: nat :: OccursAt(text[1..], pattern, i) <==> OccursAt(text, pattern, i + 1) by {
        forall i: nat ensures OccursAt(text[1..], pattern, i) <==> OccursAt(text, pattern, i + 1) {
          if i + 1 + |pattern| <= |text| {
            assert text[1..][i..i + |pattern|] == text[i + 1..i + 1 + |pattern|];
          }
        }
      }
      assert text[0..|pattern|] == text[..|pattern|];
      assert !OccursAt(text, pattern, 0);
      assert r ==> exists i: nat :: OccursAt(text, pattern, i) by {
        if r {
          var i: nat :| OccursAt(text[1..], pattern, i);
          assert OccursAt(text, pattern, i + 1);
        }
      }
      assert (exists i: nat :: OccursAt(text, pattern, i)) ==> r by {
        if exists i: nat :: OccursAt(text, pattern, i) {
          var i: nat :| OccursAt(text, pattern, i);
          assert i != 0;
          assert OccursAt(text[1..], pattern, i - 1);
        }
      }
      r
  }

  /**
   * `setupInvalidDateMock`: 400 exactly when the raw URL contains
   * `date=<invalidDate>`, otherwise pass through.
   */
  function InvalidDateReply(req: Request, invalidDate: string): (o: Outcome)
    ensures (exists i: nat :: OccursAt(req.url, "date=" + invalidDate, i)) ==> o == Fulfill(400, ErrorBody(InvalidDateFormat))
    ensures !(exists i: nat :: OccursAt(req.url, "date=" + invalidDate, i)) ==> o == Continue
  {
    if Contains(req.url, "date=" + invalidDate) then Fulfill(400, ErrorBody(InvalidDateFormat)) else Continue
  }

  // ---------------------------------------------------------------------
  // The handlers, acting on the shared store
  // ---------------------------------------------------------------------

  method HandleGetRequest(store: NotesStore, req: Request, canon: Canonicalizer) returns (o: Outcome)
    ensures o == GetReply(store.entries, req, canon)
  {
    if Truthy(req.idParam) {
      var entry := store.GetEntryById(req.idParam.value);
      if entry.Some? {
        o := Fulfill(200, EntryBody(entry.value));
      } else {
        o := Fulfill(404, ErrorBody(EntryNotFound));
      }
      return;
    }
    if Truthy(req.dateParam) {
      var entries := store.GetMockEntriesForDate(canon, req.dateParam.value);
      if entries.None? {
        return Rejected;
      }
      return Fulfill(200, ListBody(entries.value));
    }
    var entries := store.GetAllEntries();
    o := Fulfill(200, ListBody(entries));
  }

  method HandlePostRequest(store: NotesStore, req: Request) returns (o: Outcome)
    modifies store
    ensures Reply(store.entries, o) == PostReply(old(store.entries), req)
  {
    var name, createdDate := req.body.name, req.body.createdDate;
    if !Truthy(name) || !Truthy(createdDate) {
      return Fulfill(400, ErrorBody(NameAndDateRequired));
    }
    store.AddMockEntry(name, createdDate, None);
    o := Fulfill(201, SuccessBody);
  }

  method HandlePutRequest(store: NotesStore, req: Request) returns (o: Outcome)
    modifies store
    ensures Reply(store.entries, o) == PutReply(old(store.entries), req)
  {
    var id := req.body.id;
    if !Truthy(id) {
      return Fulfill(400, ErrorBody(IdRequired));
    }
    var updates := Patch(None, None, None);
    if Truthy(req.body.name) {
      updates := updates.(name := req.body.name);
    }
    if Truthy(req.body.createdDate) {
      updates := updates.(createdDate := req.body.createdDate);
    }
    var success := store.UpdateEntry(id.value, updates);
    if success {
      o := Fulfill(200, SuccessBody);
    } else {
      o := Fulfill(404, ErrorBody(EntryNotFound));
    }
  }

  method HandleDeleteRequest(store: NotesStore, req: Request) returns (o: Outcome)
    modifies store
    ensures Reply(store.entries, o) == DeleteReply(old(store.entries), req)
  {
    var id := req.idParam;
    if !Truthy(id) {
      return Fulfill(400, ErrorBody(IdRequired));
    }
    var success := store.DeleteEntry(id.value);
    if success {
      o := Fulfill(200, SuccessBody);
    } else {
      o := Fulfill(404, ErrorBody(EntryNotFound));
    }
  }

  method SetupNotesApiInterceptors(store: NotesStore, req: Request, canon: Canonicalizer) returns (o: Outcome)
    modifies store
    ensures Reply(store.entries, o) == Route(old(store.entries), req, canon)
  {
    if req.verb == "GET" {
      o := HandleGetRequest(store, req, canon);
      return;
    }
    if req.verb == "POST" {
      o := HandlePostRequest(store, req);
      return;
    }
    if req.verb == "PUT" {
      o := HandlePutRequest(store, req);
      return;
    }
    if req.verb == "DELETE" {
      o := HandleDeleteRequest(store, req);
      return;
    }
    o := Continue;
  }

  method SetupFixedEntryMock(store: NotesStore, req: Request, content: string, testDate: string,
                             entryId: string, canon: Canonicalizer) returns (o: Outcome)
    modifies store
    ensures Reply(store.entries, o) == FixedEntryReply(old(store.entries), req, content, testDate, entryId, canon)
  {
    var testDateIso := canon(testDate);
    if testDateIso.None? {
      return Rejected;
    }
    if req.verb == "POST" {
      store.AddMockEntry(req.body.name, req.body.createdDate, None);
      return Fulfill(201, SuccessBody);
    }
    if req.verb == "GET" {
      return Fulfill(200, ListBody([NoteEntry(Some(content), testDateIso, entryId)]));
    }
    o := Continue;
  }

  method SetupTestSpecificMock(store: NotesStore, req: Request, testContent: string, testDate: string,
                               canon: Canonicalizer) returns (o: Outcome)
    modifies store
    ensures Reply(store.entries, o) == TestSpecificReply(old(store.entries), req, testContent, testDate, canon)
  {
    o := SetupFixedEntryMock(store, req, testContent, testDate, TestEntryId, canon);
  }

  method SetupSpecialContentMock(store: NotesStore, req: Request, canon: Canonicalizer, contentType: string,
                                 testDate: string := DefaultSpecialContentDate) returns (o: Outcome)
    modifies store
    ensures Reply(store.entries, o) == SpecialContentReply(old(store.entries), req, canon, contentType, testDate)
  {
    var content := SpecialContent(contentType);
    o := SetupFixedEntryMock(store, req, content, testDate, SpecialContentEntryId, canon);
  }
}
