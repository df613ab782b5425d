/**
 * The file API's three handlers: searching the caller's files by name,
 * listing one page of a category (or of "all" or "shared" files), and
 * admitting an upload, recording the new file and charging its size to the
 * caller's storage. The session, the clock and the upload service's answer
 * are inputs; the two collections the handlers touch are a sequence of file
 * records and a map from subscriber id to subscription.
 */
module FileRoute {
  import opened Options
  import opened JsString
  import opened Utils
  import opened Documents

  /** Records per listing page (the route's FILE_SIZE). */
  const PageSize: nat := 9

  /** The signed-in user, as the session provider reports it. */
  datatype Session = Session(id: string, name: string, email: string)

  /** The handlers' refusals, each with its HTTP status. */
  datatype Failure = Unauthorized | SearchTermRequired | SubscriptionIssue | StorageLimitExceeded
  {
    function Status(): int
    {
      match this
      case Unauthorized => 401
      case SubscriptionIssue => 401
      case SearchTermRequired => 400
      case StorageLimitExceeded => 400
    }
  }

  /** A handler's answer: 200 with data, or a refusal. */
  datatype Response<T> = Ok(data: T) | Fail(failure: Failure)

  // ---------------------------------------------------------------- GET /

  /** The filter of a search: the caller's own files whose name matches the term. */
  function SearchFilter(userId: string, term: string): Filter
  {
    Filter(Some(userId), None, None, Some(term))
  }

  /**
   * GET /?search=term. Without a session the answer is 401 whatever the term;
   * a missing, empty or white-space-only term is 400; otherwise the answer is
   * exactly the caller's files whose name matches the term.
   */
  function SearchFiles(session: Option<Session>, search: Option<string>, files: seq<FileRecord>)
    : (r: Response<seq<FileRecord>>)
    ensures session.None? ==> r == Fail(Unauthorized)
    ensures session.Some? && (search.None? || IsBlank(search.value)) ==> r == Fail(SearchTermRequired)
    ensures r.Ok? <==> session.Some? && search.Some? && !IsBlank(search.value)
    ensures r.Ok? ==> forall f :: f in r.data <==>
      f in files && f.userInfo.id == session.value.id && ContainsIgnoreCase(f.name, search.value)
  {
    if session.None? then Fail(Unauthorized)
    else if search.None? then Fail(SearchTermRequired)
    else
      TrimEmptyIffBlank(search.value);
      if search.value == "" || Trim(search.value) == "" then Fail(SearchTermRequired)
      else Ok(Find(files, SearchFilter(session.value.id, search.value)))
  }

  // ------------------------------------------------------- GET /:category

  /** What `Number(...)` gives for the page parameter; non-integral numbers are not modelled. */
  datatype JsNumber = NaN | Num(value: int)

  /** `Number(page) || 1`: a falsy number (NaN or 0) becomes page 1. */
  function PageOrDefault(n: JsNumber): (page: int)
    ensures n.NaN? ==> page == 1
    ensures n.Num? && n.value == 0 ==> page == 1
    ensures n.Num? && n.value != 0 ==> page == n.value
    ensures (n.NaN? || n.value >= 0) ==> page >= 1
  {
    if n.NaN? || n.value == 0 then 1 else n.value
  }

  /** `Math.ceil(total / FILE_SIZE)`: the fewest pages that hold `total` records. */
  function TotalPages(total: nat): (pages: nat)
    ensures pages * PageSize >= total
    ensures pages == 0 || (pages - 1) * PageSize < total
    ensures pages == 0 <==> total == 0
  {
    (total + PageSize - 1) / PageSize
  }

  /** `skip((page - 1) * FILE_SIZE).limit(FILE_SIZE)` over an already sorted sequence. */
  function PageOf(s: seq<FileRecord>, page: int): (r: seq<FileRecord>)
    requires page >= 1
    ensures |r| <= PageSize
    ensures |r| == if (page - 1) * PageSize >= |s| then 0 else Min(PageSize, |s| - (page - 1) * PageSize)
    ensures r == [] || (page - 1) * PageSize + |r| <= |s|
    ensures forall k :: 0 <= k < |r| ==> r[k] == s[(page - 1) * PageSize + k]
  {
    SkipLimit(s, (page - 1) * PageSize, PageSize)
  }

  /** Record number i (from 0) is on page i / FILE_SIZE + 1, at position i % FILE_SIZE, and that page exists. */
  lemma RecordOnItsPage(s: seq<FileRecord>, i: int)
    requires 0 <= i < |s|
    ensures 1 <= i / PageSize + 1 <= TotalPages(|s|)
    ensures i % PageSize < |PageOf(s, i / PageSize + 1)|
    ensures PageOf(s, i / PageSize + 1)[i % PageSize] == s[i]
  {
  }

  /** A page is empty exactly when it lies past the last page. */
  lemma PageEmptyIffPastLast(s: seq<FileRecord>, page: int)
    requires page >= 1
    ensures PageOf(s, page) == [] <==> page > TotalPages(|s|)
  {
  }

  /**
   * Which records a category listing selects: "shared" selects the records
   * shared with the caller's email, whoever owns them; "all" selects the
   * caller's own records; any other value selects the caller's records whose
   * category is that value, verbatim.
   */
  predicate InCategoryScope(f: FileRecord, categoryParam: string, userId: string, userEmail: string)
  {
    if categoryParam == "shared" then SharedWith(f, userEmail)
    else f.userInfo.id == userId && (categoryParam == "all" || f.category == categoryParam)
  }

  /** The records a category listing selects, in collection order. */
  function InScope(files: seq<FileRecord>, categoryParam: string, userId: string, userEmail: string)
    : (r: seq<FileRecord>)
  {
    if files == [] then []
    else if InCategoryScope(files[0], categoryParam, userId, userEmail)
    then [files[0]] + InScope(files[1..], categoryParam, userId, userEmail)
    else InScope(files[1..], categoryParam, userId, userEmail)
  }

  /** A `find` with a filter that agrees with the scope on every record selects the scope. */
  lemma {:induction false} FindSelectsScope(
    files: seq<FileRecord>, q: Filter, categoryParam: string, userId: string, userEmail: string)
    requires forall f :: Matches(q, f) <==> InCategoryScope(f, categoryParam, userId, userEmail)
    ensures Find(files, q) == InScope(files, categoryParam, userId, userEmail)
  {
    if files != [] {
      FindSelectsScope(files[1..], q, categoryParam, userId, userEmail);
    }
  }

  /** Every record of the scope is a stored record inside the scope, and every such record is in it. */
  lemma {:induction false} InScopeMembers(
    files: seq<FileRecord>, categoryParam: string, userId: string, userEmail: string)
    ensures forall f :: f in InScope(files, categoryParam, userId, userEmail) <==>
      f in files && InCategoryScope(f, categoryParam, userId, userEmail)
  {
    if files != [] {
      InScopeMembers(files[1..], categoryParam, userId, userEmail);
      assert files == [files[0]] + files[1..];
    }
  }

  /**
   * Builds the listing's filter as the handler does: start from the caller's
   * own files, then either replace the filter by the sharing condition or add
   * the category condition.
   */
  method BuildCategoryQuery(categoryParam: string, userId: string, userEmail: string) returns (query: Filter)
    ensures forall f :: Matches(query, f) <==> InCategoryScope(f, categoryParam, userId, userEmail)
    ensures query.namePattern.None?
  {
    query := Filter(Some(userId), None, None, None);
    if categoryParam == "shared" {
      query := Filter(None, None, Some(userEmail), None);
    } else if categoryParam != "all" {
      query := query.(category := Some(categoryParam));
    }
  }

  /** The data of a listing answer. */
  datatype PageData = PageData(files: seq<FileRecord>, total: nat, currentPage: int, totalPages: nat)

  /**
   * GET /:category?page=n. Without a session the answer is 401. Otherwise
   * `total` counts every record in the scope, whatever the page; the records
   * returned are the requested page of the scope sorted newest first, at most
   * FILE_SIZE of them, each inside the scope; `totalPages` is the ceiling of
   * total / FILE_SIZE, and `currentPage` is the page used.
   */
  method ListByCategory(session: Option<Session>, categoryParam: string, pageParam: JsNumber, files: seq<FileRecord>)
    returns (r: Response<PageData>)
    requires session.Some? ==> pageParam.NaN? || pageParam.value >= 0
    ensures r.Fail? <==> session.None?
    ensures r.Fail? ==> r.failure == Unauthorized
    ensures r.Ok? ==>
      var matching := InScope(files, categoryParam, session.value.id, session.value.email);
      && r.data.total == |matching|
      && r.data.currentPage == PageOrDefault(pageParam)
      && r.data.totalPages == TotalPages(r.data.total)
      && r.data.files == PageOf(SortByCreatedDesc(matching), r.data.currentPage)
    ensures r.Ok? ==> |r.data.files| <= PageSize
    ensures r.Ok? ==> forall f :: f in r.data.files ==>
      f in files && InCategoryScope(f, categoryParam, session.value.id, session.value.email)
  {
    var page := PageOrDefault(pageParam);
    if session.None? {
      return Fail(Unauthorized);
    }
    var userId, userEmail := session.value.id, session.value.email;
    var query := BuildCategoryQuery(categoryParam, userId, userEmail);
    FindSelectsScope(files, query, categoryParam, userId, userEmail);
    InScopeMembers(files, categoryParam, userId, userEmail);
    var totalFiles := CountDocuments(files, query);
    var sorted := SortByCreatedDesc(Find(files, query));
    var found := PageOf(sorted, page);
    assert forall f :: f in found ==> f in multiset(sorted);
    r := Ok(PageData(found, totalFiles, page, TotalPages(totalFiles)));
  }

  // ------------------------------------------------------- POST /upload

  /** A subscriber's plan: its type, its status, the storage chosen and the storage used. */
  datatype Subscription = Subscription(subscriptionType: string, status: string, selectedStorage: int, usedStorage: int)

  /** What the upload service answers for a stored file. */
  datatype UploadData = UploadData(id: string, name: string, mimeType: string, cid: string, size: nat)

  /** The data of a successful upload answer. */
  datatype Uploaded = Uploaded(category: string, file: FileRecord)

  /** The plan kind an upload needs: a free plan that is activated. */
  predicate IsActiveFreePlan(sub: Subscription)
  {
    sub.subscriptionType == "free" && sub.status == "activated"
  }

  /**
   * The checks made before the file is sent to the upload service, in the
   * handler's order: the session, then the plan, then the storage left. The
   * size of the incoming file takes no part in them.
   */
  function UploadAdmission(session: Option<Session>, subscriptions: map<string, Subscription>)
    : (refusal: Option<Failure>)
    ensures session.None? ==> refusal == Some(Unauthorized)
    ensures refusal.None? <==>
      && session.Some?
      && session.value.id in subscriptions
      && IsActiveFreePlan(subscriptions[session.value.id])
      && subscriptions[session.value.id].usedStorage < subscriptions[session.value.id].selectedStorage
    ensures session.Some? && (session.value.id !in subscriptions || !IsActiveFreePlan(subscriptions[session.value.id]))
      ==> refusal == Some(SubscriptionIssue)
    ensures session.Some? && session.value.id in subscriptions && IsActiveFreePlan(subscriptions[session.value.id])
      && subscriptions[session.value.id].selectedStorage <= subscriptions[session.value.id].usedStorage
      ==> refusal == Some(StorageLimitExceeded)
    ensures refusal == Some(StorageLimitExceeded) ==>
      session.Some? && session.value.id in subscriptions && IsActiveFreePlan(subscriptions[session.value.id])
    ensures refusal.Some? ==> refusal.value.Status() in {400, 401}
  {
    if session.None? then Some(Unauthorized)
    else if session.value.id !in subscriptions
      || subscriptions[session.value.id].subscriptionType != "free"
      || subscriptions[session.value.id].status != "activated"
    then Some(SubscriptionIssue)
    else if subscriptions[session.value.id].selectedStorage <= subscriptions[session.value.id].usedStorage
    then Some(StorageLimitExceeded)
    else None
  }

  /** The record created for an upload: owned by the caller, filed under its MIME type's category, shared with nobody. */
  function NewFileRecord(session: Session, upload: UploadData, now: int): (f: FileRecord)
    ensures f.userInfo.id == session.id && f.size == upload.size && f.sharedWith == []
    ensures f.category == GetCategoryFromMimeType(upload.mimeType) && f.category in FileCategories
  {
    FileRecord(upload.id, upload.name, upload.mimeType, upload.cid, upload.size,
               UserInfo(session.id, session.name), GetCategoryFromMimeType(upload.mimeType), now, [])
  }

  /** `$inc: { usedStorage: size }`. */
  function ChargeUpload(sub: Subscription, size: nat): (charged: Subscription)
    ensures charged.usedStorage == sub.usedStorage + size
    ensures charged.(usedStorage := sub.usedStorage) == sub
  {
    sub.(usedStorage := sub.usedStorage + size)
  }

  /** The total size of the records a user owns. */
  function TotalSizeOwnedBy(files: seq<FileRecord>, userId: string): nat
  {
    if files == [] then 0
    else (if files[0].userInfo.id == userId then files[0].size else 0) + TotalSizeOwnedBy(files[1..], userId)
  }

  /** Appending one record adds its size to its owner's total and leaves every other total alone. */
  lemma {:induction false} TotalSizeAppend(files: seq<FileRecord>, f: FileRecord, userId: string)
    ensures TotalSizeOwnedBy(files + [f], userId)
         == TotalSizeOwnedBy(files, userId) + (if f.userInfo.id == userId then f.size else 0)
  {
    if files != [] {
      assert (files + [f])[1..] == files[1..] + [f];
      TotalSizeAppend(files[1..], f, userId);
    }
  }

  /**
   * An admitted upload keeps every subscriber's usedStorage equal to the total
   * size of the files that subscriber owns, if it was equal before.
   */
  lemma UploadKeepsUsageInSync(
    files: seq<FileRecord>, subscriptions: map<string, Subscription>,
    session: Session, upload: UploadData, now: int, userId: string)
    requires UploadAdmission(Some(session), subscriptions).None?
    requires userId in subscriptions ==> subscriptions[userId].usedStorage == TotalSizeOwnedBy(files, userId)
    ensures var subscriptions' := subscriptions[session.id := ChargeUpload(subscriptions[session.id], upload.size)];
            var files' := files + [NewFileRecord(session, upload, now)];
            userId in subscriptions' ==> subscriptions'[userId].usedStorage == TotalSizeOwnedBy(files', userId)
  {
    TotalSizeAppend(files, NewFileRecord(session, upload, now), userId);
  }

  /**
   * Admission looks only at the storage already used, not at the incoming
   * size: a plan with one byte left admits a five-byte file and ends above its
   * chosen storage.
   */
  lemma AdmissionIgnoresUploadSize()
    ensures var subscriptions := map["u" := Subscription("free", "activated", 10, 9)];
            && UploadAdmission(Some(Session("u", "U", "u@example.com")), subscriptions).None?
            && ChargeUpload(subscriptions["u"], 5).usedStorage > subscriptions["u"].selectedStorage
  {
  }

  /** An uploaded record is listed under "all" and under its own category for its owner, and under nobody's "shared". */
  lemma UploadedRecordListings(session: Session, upload: UploadData, now: int, email: string)
    ensures var f := NewFileRecord(session, upload, now);
            && InCategoryScope(f, "all", session.id, email)
            && InCategoryScope(f, f.category, session.id, email)
            && !InCategoryScope(f, "shared", session.id, email)
  {
  }

  /** The stored state the upload handler reads and changes. */
  class Database {
    var files: seq<FileRecord>
    var subscriptions: map<string, Subscription>

    constructor (files: seq<FileRecord>, subscriptions: map<string, Subscription>)
      ensures this.files == files && this.subscriptions == subscriptions
    {
      this.files := files;
      this.subscriptions := subscriptions;
    }

    /** Every subscriber's usedStorage equals the total size of the files it owns. */
    ghost predicate UsageInSync()
      reads this
    {
      forall u :: u in subscriptions ==> subscriptions[u].usedStorage == TotalSizeOwnedBy(files, u)
    }

    /**
     * POST /upload. A refused upload changes nothing. An admitted one appends
     * exactly one record, owned by the caller and filed under the category of
     * the uploaded MIME type, and adds the uploaded size to the caller's
     * usedStorage, leaving the rest of every subscription as it was.
     */
    method Upload(session: Option<Session>, upload: UploadData, now: int) returns (r: Response<Uploaded>)
      modifies this
      ensures r.Ok? <==> UploadAdmission(session, old(subscriptions)).None?
      ensures r.Fail? ==> Some(r.failure) == UploadAdmission(session, old(subscriptions))
      ensures r.Fail? ==> files == old(files) && subscriptions == old(subscriptions)
      ensures r.Ok? ==>
        var f := NewFileRecord(session.value, upload, now);
        && r.data == Uploaded(f.category, f)
        && files == old(files) + [f]
        && subscriptions == old(subscriptions)[session.value.id :=
             ChargeUpload(old(subscriptions)[session.value.id], upload.size)]
      ensures old(UsageInSync()) ==> UsageInSync()
    {
      if session.None? {
        return Fail(Unauthorized);
      }
      var userId, name := session.value.id, session.value.name;
      if userId !in subscriptions
        || subscriptions[userId].subscriptionType != "free"
        || subscriptions[userId].status != "activated"
      {
        return Fail(SubscriptionIssue);
      }
      var subs := subscriptions[userId];
      if subs.selectedStorage <= subs.usedStorage {
        return Fail(StorageLimitExceeded);
      }
      // The file goes to the upload service here; `upload` is its answer.
      var category := GetCategoryFromMimeType(upload.mimeType);
      var uploadedFile := FileRecord(upload.id, upload.name, upload.mimeType, upload.cid, upload.size,
                                     UserInfo(userId, name), category, now, []);
      ghost var oldFiles, oldSubscriptions := files, subscriptions;
      files := files + [uploadedFile];
      subscriptions := subscriptions[userId := subs.(usedStorage := subs.usedStorage + upload.size)];
      forall u | u in subscriptions && u in oldSubscriptions
        && oldSubscriptions[u].usedStorage == TotalSizeOwnedBy(oldFiles, u)
        ensures subscriptions[u].usedStorage == TotalSizeOwnedBy(files, u)
      {
        UploadKeepsUsageInSync(oldFiles, oldSubscriptions, session.value, upload, now, u);
      }
      r := Ok(Uploaded(category, uploadedFile));
    }
  }
}
