/**
 * The file records the route reads and writes, and the part of the document
 * store's query semantics the route relies on: a filter document with the
 * fields the route sets, `find` and `countDocuments` over it, and the
 * sort-by-createdAt-descending, skip and limit applied to a `find`.
 */
module Documents {
  import opened Options
  import opened JsString

  /** One recipient a file is shared with (an entry of `sharedWith`). */
  datatype ShareEntry = ShareEntry(email: string, permissions: seq<string>)

  /** The owner recorded on a file (`userInfo`). */
  datatype UserInfo = UserInfo(id: string, name: string)

  /** A stored file record. */
  datatype FileRecord = FileRecord(
    pinataId: string,
    name: string,
    mimeType: string,
    cid: string,
    size: nat,
    userInfo: UserInfo,
    category: string,
    createdAt: int,
    sharedWith: seq<ShareEntry>)

  /**
   * A filter document: each present field constrains the record, an absent one does not.
   * ownerId is `"userInfo.id"`, sharedWithEmail is `"sharedWith.email"`, and
   * namePattern is `name: { $regex, $options: "i" }`.
   */
  datatype Filter = Filter(
    ownerId: Option<string>,
    category: Option<string>,
    sharedWithEmail: Option<string>,
    namePattern: Option<string>)

  /** Some entry of the record's `sharedWith` list carries this email. */
  predicate SharedWith(f: FileRecord, email: string)
  {
    exists k :: 0 <= k < |f.sharedWith| && f.sharedWith[k].email == email
  }

  /** The record satisfies every field the filter sets. */
  predicate Matches(q: Filter, f: FileRecord)
  {
    && (q.ownerId.Some? ==> f.userInfo.id == q.ownerId.value)
    && (q.category.Some? ==> f.category == q.category.value)
    && (q.sharedWithEmail.Some? ==> SharedWith(f, q.sharedWithEmail.value))
    && (q.namePattern.Some? ==> ContainsIgnoreCase(f.name, q.namePattern.value))
  }

  /** `find(q)`: the matching records, in collection order. */
  function Find(files: seq<FileRecord>, q: Filter): (r: seq<FileRecord>)
    ensures |r| <= |files|
    ensures forall f :: f in r <==> f in files && Matches(q, f)
  {
    if files == [] then []
    else if Matches(q, files[0]) then [files[0]] + Find(files[1..], q)
    else Find(files[1..], q)
  }

  /** `countDocuments(q)`. */
  function CountDocuments(files: seq<FileRecord>, q: Filter): nat
  {
    |Find(files, q)|
  }

  /** Newest first: `sort({ createdAt: -1 })` holds of the sequence. */
  predicate SortedByCreatedDesc(s: seq<FileRecord>)
  {
    forall i, j :: 0 <= i < j < |s| ==> s[i].createdAt >= s[j].createdAt
  }

  /** Places one record into a newest-first sequence, before any record of the same age. */
  function InsertByCreatedDesc(x: FileRecord, s: seq<FileRecord>): (r: seq<FileRecord>)
    requires SortedByCreatedDesc(s)
    ensures SortedByCreatedDesc(r)
    ensures multiset(r) == multiset(s) + multiset{x}
    ensures r[0] == x || (s != [] && r[0] == s[0])
  {
    if s == [] || x.createdAt >= s[0].createdAt then [x] + s
    else
      var rest := InsertByCreatedDesc(x, s[1..]);
      assert s == [s[0]] + s[1..];
      assert rest[0].createdAt <= s[0].createdAt;
      assert forall k :: 0 <= k < |rest| ==> rest[k].createdAt <= rest[0].createdAt;
      [s[0]] + rest
  }

  /** `sort({ createdAt: -1 })`: a newest-first permutation of the records. */
  function SortByCreatedDesc(s: seq<FileRecord>): (r: seq<FileRecord>)
    ensures SortedByCreatedDesc(r)
    ensures multiset(r) == multiset(s)
  {
    if s == [] then []
    else
      assert s == [s[0]] + s[1..];
      InsertByCreatedDesc(s[0], SortByCreatedDesc(s[1..]))
  }

  function Min(a: int, b: int): int
  {
    if a <= b then a else b
  }

  /** `skip(skip).limit(limit)`: the records at positions skip .. skip + limit - 1 that exist. */
  function SkipLimit(s: seq<FileRecord>, skip: nat, limit: nat): (r: seq<FileRecord>)
    ensures |r| <= limit
    ensures |r| == if skip >= |s| then 0 else Min(limit, |s| - skip)
    ensures forall k :: 0 <= k < |r| ==> r[k] == s[skip + k]
  {
    s[Min(skip, |s|)..Min(skip + limit, |s|)]
  }
}
