/**
 * Properties of the request router, stated on the functions that specify its
 * handlers: status codes and messages per branch, how the store's size and
 * contents change, and the consequences of ids not being unique and dates
 * being stored as posted.
 */
module NotesApiInterceptorsLemmas {

  import opened Wrappers
  import opened NotesMockData
  import opened NotesApiInterceptors
  import NotesMockDataLemmas
  import Decimal

  /** A GET request with only the given query parameters. */
  function GetRequest(url: string, idParam: Option<string>, dateParam: Option<string>): Request {
    Request("GET", url, idParam, dateParam, Body(None, None, None))
  }

  /** Every answer of the main router carries one of four statuses. */
  lemma RouteStatuses(s: seq<NoteEntry>, req: Request, canon: Canonicalizer)
    ensures var o := Route(s, req, canon).outcome;
            o.Fulfill? ==> o.status in {200, 201, 400, 404}
  {
  }

  // ----- GET -----

  /** GET never changes the store. */
  lemma GetLeavesStore(s: seq<NoteEntry>, req: Request, canon: Canonicalizer)
    requires req.verb == "GET"
    ensures Route(s, req, canon).store == s
  {
  }

  /** With a truthy id, GET answers the first entry carrying it, whatever the date parameter says. */
  lemma GetByIdFindsFirst(s: seq<NoteEntry>, req: Request, canon: Canonicalizer, k: nat)
    requires Truthy(req.idParam)
    requires k < |s| && s[k].id == req.idParam.value
    requires forall j :: 0 <= j < k ==> s[j].id != req.idParam.value
    ensures GetReply(s, req, canon) == Fulfill(200, EntryBody(s[k]))
  {
    var i := FindIndex(s, req.idParam.value);
    assert i.Some? && i.value <= k;
  }

  /** GET answers 404 "Entry not found" exactly when a truthy id matches no entry. */
  lemma GetNotFoundIff(s: seq<NoteEntry>, req: Request, canon: Canonicalizer)
    ensures GetReply(s, req, canon) == Fulfill(404, ErrorBody(EntryNotFound))
            <==> Truthy(req.idParam) && forall k :: 0 <= k < |s| ==> s[k].id != req.idParam.value
  {
  }

  /**
   * Without an id but with a truthy date, GET answers 200 with the entries
   * dated exactly `canon(date)`, even when there are none; it rejects when
   * the date does not canonicalise.
   */
  lemma GetByDate(s: seq<NoteEntry>, req: Request, canon: Canonicalizer)
    requires !Truthy(req.idParam) && Truthy(req.dateParam)
    ensures canon(req.dateParam.value).None? ==> GetReply(s, req, canon) == Rejected
    ensures canon(req.dateParam.value).Some? ==>
              var o := GetReply(s, req, canon);
              o.Fulfill? && o.status == 200 && o.body.ListBody?
              && (forall k :: 0 <= k < |o.body.entries| ==> o.body.entries[k].createdDate == canon(req.dateParam.value))
              && (forall e :: multiset(o.body.entries)[e] == if e.createdDate == canon(req.dateParam.value) then multiset(s)[e] else 0)
    ensures canon(req.dateParam.value).Some?
            && (forall k :: 0 <= k < |s| ==> s[k].createdDate != canon(req.dateParam.value))
            ==> GetReply(s, req, canon) == Fulfill(200, ListBody([]))
  {
    if canon(req.dateParam.value).Some? {
      var iso := canon(req.dateParam.value).value;
      forall e ensures multiset(WithDate(s, iso))[e] == if e.createdDate == Some(iso) then multiset(s)[e] else 0 {
        WithDateCount(s, iso, e);
      }
      if forall k :: 0 <= k < |s| ==> s[k].createdDate != Some(iso) {
        NotesMockDataLemmas.WithDateEmpty(s, iso);
      }
    }
  }

  /** With neither id nor date, GET lists the whole store: as many entries as it holds, in order. */
  lemma GetAllListsStore(s: seq<NoteEntry>, req: Request, canon: Canonicalizer)
    requires !Truthy(req.idParam) && !Truthy(req.dateParam)
    ensures GetReply(s, req, canon).Fulfill? && GetReply(s, req, canon).status == 200
    ensures GetReply(s, req, canon).body == ListBody(s)
    ensures |GetReply(s, req, canon).body.entries| == |s|
  {
  }

  // ----- POST -----

  /**
   * POST appends exactly when name and date are both truthy, answering 201;
   * otherwise it answers 400 "Name and date are required" and the store is
   * as it was.
   */
  lemma PostAppendsIffValid(s: seq<NoteEntry>, req: Request, canon: Canonicalizer)
    requires req.verb == "POST"
    ensures |Route(s, req, canon).store| == |s| + 1 <==> Truthy(req.body.name) && Truthy(req.body.createdDate)
    ensures !(Truthy(req.body.name) && Truthy(req.body.createdDate)) ==>
              Route(s, req, canon) == Reply(s, Fulfill(400, ErrorBody(NameAndDateRequired)))
    ensures Truthy(req.body.name) && Truthy(req.body.createdDate) ==>
              Route(s, req, canon).outcome == Fulfill(201, SuccessBody)
  {
  }

  /**
   * A valid POST keeps every earlier entry and adds, last, one whose name
   * and date are the posted strings verbatim and whose id is the decimal
   * string of the old size plus one.
   */
  lemma PostStoresVerbatim(s: seq<NoteEntry>, req: Request, canon: Canonicalizer)
    requires req.verb == "POST" && Truthy(req.body.name) && Truthy(req.body.createdDate)
    ensures var t := Route(s, req, canon).store;
            |t| == |s| + 1 && t[..|s|] == s
            && t[|s|].name == req.body.name && t[|s|].createdDate == req.body.createdDate
            && t[|s|].id == Decimal.DecimalString(|s| + 1)
            && Decimal.IsDigits(t[|s|].id) && Decimal.DigitsValue(t[|s|].id) == |s| + 1
  {
    var t := Route(s, req, canon).store;
    assert t == s + [NoteEntry(req.body.name, req.body.createdDate, NextId(s, None))];
  }

  /**
   * Posting and then reading by the new entry's id gives back the posted
   * name and date, provided no entry already carries that id.
   */
  lemma PostThenGetById(s: seq<NoteEntry>, post: Request, url: string, canon: Canonicalizer)
    requires post.verb == "POST" && Truthy(post.body.name) && Truthy(post.body.createdDate)
    requires forall k :: 0 <= k < |s| ==> s[k].id != Decimal.DecimalString(|s| + 1)
    ensures var id := Decimal.DecimalString(|s| + 1);
            var t := Route(s, post, canon).store;
            Route(t, GetRequest(url, Some(id), None), canon).outcome
              == Fulfill(200, EntryBody(NoteEntry(post.body.name, post.body.createdDate, id)))
  {
    var id := Decimal.DecimalString(|s| + 1);
    var t := Appended(s, post.body.name, post.body.createdDate, None);
    assert Route(s, post, canon).store == t;
    assert NextId(s, None) == id;
    forall j | 0 <= j < |s| ensures t[j].id != id {
      assert t[j] == s[j];
    }
    var get := GetRequest(url, Some(id), None);
    GetByIdFindsFirst(t, get, canon, |s|);
    assert Route(t, get, canon).outcome == GetReply(t, get, canon);
  }

  /**
   * When the new id is already in use, reading it back finds the older entry:
   * after deleting "2" from the seed, a posted entry gets id "4" and GET ?id=4
   * still answers the seed's fourth entry.
   */
  lemma PostThenGetByIdShadowed(post: Request, url: string, canon: Canonicalizer)
    requires post.verb == "POST" && Truthy(post.body.name) && Truthy(post.body.createdDate)
    ensures var s := Removed(SeedEntries, "2");
            var t := Route(s, post, canon).store;
            t[3].id == "4"
            && Route(t, GetRequest(url, Some("4"), None), canon).outcome == Fulfill(200, EntryBody(SeedEntries[3]))
  {
    NotesMockDataLemmas.SeedDeleteThenAddRepeatsId(post.body.name, post.body.createdDate);
    var s := Removed(SeedEntries, "2");
    assert s == [SeedEntries[0], SeedEntries[2], SeedEntries[3]];
    var t := Route(s, post, canon).store;
    assert t[2] == SeedEntries[3];
    assert FindIndex(t, "4") == Some(2);
  }

  /**
   * POST stores the date as written: when the posted date is not already the
   * canonical form of the queried date, a date query answers exactly what it
   * answered before the POST (so "2024-02-29" posted is not found by
   * ?date=2024-02-29).
   */
  lemma PostedDateNotCanonicalised(s: seq<NoteEntry>, post: Request, query: Request, canon: Canonicalizer)
    requires post.verb == "POST" && Truthy(post.body.name) && Truthy(post.body.createdDate)
    requires !Truthy(query.idParam) && Truthy(query.dateParam)
    requires canon(query.dateParam.value).Some?
    requires post.body.createdDate != canon(query.dateParam.value)
    ensures GetReply(Route(s, post, canon).store, query, canon) == GetReply(s, query, canon)
  {
    var iso := canon(query.dateParam.value).value;
    var t := Route(s, post, canon).store;
    assert t == Appended(s, post.body.name, post.body.createdDate, None);
    NotesMockDataLemmas.WithDateOfAppended(s, post.body.name, post.body.createdDate, None, iso);
    assert WithDate(t, iso) == WithDate(s, iso);
  }

  // ----- PUT -----

  /** PUT never changes the number of entries. */
  lemma PutKeepsSize(s: seq<NoteEntry>, req: Request, canon: Canonicalizer)
    requires req.verb == "PUT"
    ensures |Route(s, req, canon).store| == |s|
  {
  }

  /**
   * PUT without a truthy body id answers 400 "ID is required"; with an
   * unknown id, 404 "Entry not found"; in both cases the store is as it was.
   */
  lemma PutRejections(s: seq<NoteEntry>, req: Request, canon: Canonicalizer)
    requires req.verb == "PUT"
    ensures !Truthy(req.body.id) ==> Route(s, req, canon) == Reply(s, Fulfill(400, ErrorBody(IdRequired)))
    ensures Truthy(req.body.id) && (forall k :: 0 <= k < |s| ==> s[k].id != req.body.id.value) ==>
              Route(s, req, canon) == Reply(s, Fulfill(404, ErrorBody(EntryNotFound)))
  {
  }

  /**
   * PUT on a known id answers 200 and changes only the first entry with that
   * id: its name and date become the truthy ones sent, the rest is kept.
   */
  lemma PutMergesFirstMatch(s: seq<NoteEntry>, req: Request, canon: Canonicalizer, k: nat)
    requires req.verb == "PUT" && Truthy(req.body.id)
    requires k < |s| && s[k].id == req.body.id.value
    requires forall j :: 0 <= j < k ==> s[j].id != req.body.id.value
    ensures var r := Route(s, req, canon);
            r.outcome == Fulfill(200, SuccessBody)
            && |r.store| == |s|
            && (forall j :: 0 <= j < |s| && j != k ==> r.store[j] == s[j])
            && r.store[k].id == s[k].id
            && r.store[k].name == (if Truthy(req.body.name) then req.body.name else s[k].name)
            && r.store[k].createdDate == (if Truthy(req.body.createdDate) then req.body.createdDate else s[k].createdDate)
  {
    var i := FindIndex(s, req.body.id.value);
    assert i.Some? && i.value <= k;
  }

  /**
   * PUT on a known id with neither a truthy name nor a truthy date still
   * answers 200, and the store is as it was (an empty updates object).
   */
  lemma PutNothingToMerge(s: seq<NoteEntry>, req: Request, canon: Canonicalizer)
    requires req.verb == "PUT" && Truthy(req.body.id)
    requires exists k :: 0 <= k < |s| && s[k].id == req.body.id.value
    requires !Truthy(req.body.name) && !Truthy(req.body.createdDate)
    ensures Route(s, req, canon) == Reply(s, Fulfill(200, SuccessBody))
  {
    var i := FindIndex(s, req.body.id.value).value;
    NotesMockDataLemmas.MergeEmpty(s[i]);
    assert s[i := s[i]] == s;
  }

  // ----- DELETE -----

  /**
   * DELETE shrinks the store by one exactly when the `id` query is truthy
   * and matches an entry, answering 200; otherwise the store is as it was and
   * the answer is 400 "ID is required" or 404 "Entry not found".
   */
  lemma DeleteShrinksIffFound(s: seq<NoteEntry>, req: Request, canon: Canonicalizer)
    requires req.verb == "DELETE"
    ensures |Route(s, req, canon).store| == |s| - 1
            <==> Truthy(req.idParam) && exists k :: 0 <= k < |s| && s[k].id == req.idParam.value
    ensures !Truthy(req.idParam) ==> Route(s, req, canon) == Reply(s, Fulfill(400, ErrorBody(IdRequired)))
    ensures Truthy(req.idParam) && (forall k :: 0 <= k < |s| ==> s[k].id != req.idParam.value) ==>
              Route(s, req, canon) == Reply(s, Fulfill(404, ErrorBody(EntryNotFound)))
    ensures Truthy(req.idParam) && (exists k :: 0 <= k < |s| && s[k].id == req.idParam.value) ==>
              Route(s, req, canon).outcome == Fulfill(200, SuccessBody)
  {
  }

  /** With unique ids, a successful DELETE makes a later GET of that id answer 404. */
  lemma DeleteThenGetNotFound(s: seq<NoteEntry>, del: Request, url: string, canon: Canonicalizer)
    requires del.verb == "DELETE" && Truthy(del.idParam)
    requires NotesMockDataLemmas.IdsUnique(s)
    ensures var t := Route(s, del, canon).store;
            Route(t, GetRequest(url, del.idParam, None), canon).outcome == Fulfill(404, ErrorBody(EntryNotFound))
  {
    NotesMockDataLemmas.RemovedUniqueIdGone(s, del.idParam.value);
  }

  // ----- The whole router -----

  /**
   * The store's size moves by at most one per request: up exactly for a
   * valid POST, down exactly for a DELETE of a present id.
   */
  lemma RouteSizeDelta(s: seq<NoteEntry>, req: Request, canon: Canonicalizer)
    ensures var n := |Route(s, req, canon).store|;
            (n == |s| + 1 <==> req.verb == "POST" && Truthy(req.body.name) && Truthy(req.body.createdDate))
            && (n == |s| - 1 <==> req.verb == "DELETE" && Truthy(req.idParam)
                                  && exists k :: 0 <= k < |s| && s[k].id == req.idParam.value)
            && |s| - 1 <= n <= |s| + 1
  {
    if req.verb == "DELETE" {
      DeleteShrinksIffFound(s, req, canon);
    }
  }

  // ----- Fixed-answer mocks -----

  /**
   * Both fixed-answer mocks throw for every request, leaving the store, when
   * their date does not canonicalise: the conversion runs before dispatch.
   */
  lemma FixedMocksRejectBadDate(s: seq<NoteEntry>, req: Request, content: string, contentType: string,
                                testDate: string, canon: Canonicalizer)
    requires canon(testDate).None?
    ensures TestSpecificReply(s, req, content, testDate, canon) == Reply(s, Rejected)
    ensures SpecialContentReply(s, req, canon, contentType, testDate) == Reply(s, Rejected)
  {
  }

  /**
   * The fixed-answer mocks' GET ignores the store: any two stores get the
   * same one-entry list, carrying the fixed content, the canonical date and
   * the fixed id.
   */
  lemma FixedMocksGetIgnoresStore(s1: seq<NoteEntry>, s2: seq<NoteEntry>, req: Request, content: string,
                                  contentType: string, testDate: string, canon: Canonicalizer)
    requires req.verb == "GET" && canon(testDate).Some?
    ensures TestSpecificReply(s1, req, content, testDate, canon) == TestSpecificReply(s2, req, content, testDate, canon)
                                                                          .(store := s1)
    ensures TestSpecificReply(s1, req, content, testDate, canon).outcome
            == Fulfill(200, ListBody([NoteEntry(Some(content), canon(testDate), TestEntryId)]))
    ensures SpecialContentReply(s1, req, canon, contentType, testDate).outcome
            == Fulfill(200, ListBody([NoteEntry(Some(SpecialContent(contentType)), canon(testDate), SpecialContentEntryId)]))
    ensures SpecialContentReply(s1, req, canon, contentType, testDate).store == s1
  {
  }

  /**
   * The fixed-answer mocks' POST appends whatever the body holds, even an
   * absent or empty name, and always answers 201; methods other than GET
   * and POST pass through with the store unchanged.
   */
  lemma FixedMocksPostUnvalidated(s: seq<NoteEntry>, req: Request, content: string, contentType: string,
                                  testDate: string, canon: Canonicalizer)
    requires canon(testDate).Some?
    ensures req.verb == "POST" ==>
              TestSpecificReply(s, req, content, testDate, canon)
                == Reply(s + [NoteEntry(req.body.name, req.body.createdDate, Decimal.DecimalString(|s| + 1))], Fulfill(201, SuccessBody))
    ensures req.verb == "POST" ==>
              SpecialContentReply(s, req, canon, contentType, testDate)
                == Reply(s + [NoteEntry(req.body.name, req.body.createdDate, Decimal.DecimalString(|s| + 1))], Fulfill(201, SuccessBody))
    ensures req.verb != "POST" && req.verb != "GET" ==>
              TestSpecificReply(s, req, content, testDate, canon) == Reply(s, Continue)
    ensures req.verb != "POST" && req.verb != "GET" ==>
              SpecialContentReply(s, req, canon, contentType, testDate) == Reply(s, Continue)
  {
  }
}
