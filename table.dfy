/** The submission table of the form-submissions backend: the records, the
    responses the handlers produce, and the lookups that only read the loaded
    collection (read by position, search by email, first match by id). */
module Table {

  datatype Option<T> = None | Some(value: T)

  /** One stored form submission. */
  datatype Submission = Submission(
    id: int,
    name: string,
    email: string,
    phone: string,
    githubLink: string,
    stopwatchTime: string)

  /** The five fields a request body carries for /submit and /edit/:id;
      a missing or falsy body value is the empty string. */
  datatype Fields = Fields(
    name: string,
    email: string,
    phone: string,
    githubLink: string,
    stopwatchTime: string)

  /** A query parameter as the handler sees it: not given at all, or given
      and run through parseInt (None is NaN). */
  datatype Param = Absent | Present(parsed: Option<int>)

  datatype Error =
    | FieldsRequired   // 400 'All fields are required'
    | IndexRequired    // 400 'Index query parameter is required'
    | InvalidId        // 400 'Invalid ID'
    | EmailRequired    // 400 'Email query parameter is required'
    | NotFound         // 404 'Submission not found'
    | NoMatches        // 404 'No submissions found for the provided email'

  /** What a handler answers; the message strings are left out. */
  datatype Response =
    | Created(id: int)
    | Found(submission: Submission)
    | Deleted
    | Updated
    | Matches(submissions: seq<Submission>)
    | Failed(error: Error)

  /** The HTTP status code sent with a response. */
  function Status(r: Response): (code: int)
    ensures code == 201 <==> r.Created?
    ensures code == 200 <==> r.Found? || r.Deleted? || r.Updated? || r.Matches?
    ensures code == 400 <==> r.Failed? && !r.error.NotFound? && !r.error.NoMatches?
    ensures code == 404 <==> r == Failed(NotFound) || r == Failed(NoMatches)
  {
    match r
    case Created(_) => 201
    case Failed(e) => if e == NotFound || e == NoMatches then 404 else 400
    case _ => 200
  }

  /** Every field present and non-empty: the handlers' `!name || !email || ...` check fails. */
  predicate Complete(f: Fields): (ok: bool)
    ensures !ok <==> f.name == [] || f.email == [] || f.phone == [] || f.githubLink == [] || f.stopwatchTime == []
  {
    f.name != [] && f.email != [] && f.phone != [] && f.githubLink != [] && f.stopwatchTime != []
  }

  /** The body fields a stored record carries. */
  function FieldsOf(s: Submission): Fields {
    Fields(s.name, s.email, s.phone, s.githubLink, s.stopwatchTime)
  }

  /** The record a handler builds from an id and the body fields: it carries
      that id and exactly those fields, nothing merged from elsewhere. */
  function WithId(id: int, f: Fields): (r: Submission)
    ensures r.id == id && FieldsOf(r) == f
  {
    Submission(id, f.name, f.email, f.phone, f.githubLink, f.stopwatchTime)
  }

  /** The id rule of /submit: the LAST record's id plus one, or 1 on an empty collection. */
  function NextId(s: seq<Submission>): (id: int)
    ensures s == [] ==> id == 1
    ensures s != [] ==> id > s[|s| - 1].id
    ensures StrictlyIncreasing(s) ==> forall k :: 0 <= k < |s| ==> s[k].id < id
  {
    if |s| > 0 then s[|s| - 1].id + 1 else 1
  }

  /** The ids, in collection order, only ever go up; under this the ids are
      pairwise distinct. */
  ghost predicate StrictlyIncreasing(s: seq<Submission>) {
    forall i, j :: 0 <= i < j < |s| ==> s[i].id < s[j].id
  }

  /** r keeps some of the elements of s, in the order s has them. */
  ghost predicate IsSubsequence<T>(r: seq<T>, s: seq<T>)
    decreases |s|
  {
    if r == [] then true
    else if s == [] then false
    else (r[0] == s[0] && IsSubsequence(r[1..], s[1..])) || IsSubsequence(r, s[1..])
  }

  /** Array.prototype.findIndex with `sub.id === id`: the first position
      carrying the id, or -1. */
  function FindIndex(s: seq<Submission>, id: int): (i: int)
    ensures -1 <= i < |s|
    ensures i == -1 <==> forall k :: 0 <= k < |s| ==> s[k].id != id
    ensures 0 <= i ==> s[i].id == id && forall k :: 0 <= k < i ==> s[k].id != id
  {
    if s == [] then -1
    else if s[0].id == id then 0
    else
      var j := FindIndex(s[1..], id);
      if j == -1 then -1 else j + 1
  }

  /** Array.prototype.filter with `sub.email === email`. */
  function Matching(s: seq<Submission>, email: string): (r: seq<Submission>)
    ensures |r| <= |s|
    ensures forall x :: x in r <==> x in s && x.email == email
    ensures forall x :: multiset(r)[x] == if x.email == email then multiset(s)[x] else 0
  {
    if s == [] then []
    else
      assert s == [s[0]] + s[1..];
      var rest := Matching(s[1..], email);
      if s[0].email == email then [s[0]] + rest else rest
  }

  /** GET /read?index=...: a zero-based position into the collection. */
  function ReadAt(s: seq<Submission>, index: Param): (r: Response)
    ensures r == Failed(IndexRequired) <==> index.Absent?
    ensures r.Found? <==> index.Present? && index.parsed.Some? && 0 <= index.parsed.value < |s|
    ensures r.Found? ==> r.submission == s[index.parsed.value]
    ensures index.Present? && !r.Found? ==> r == Failed(NotFound)
  {
    match index
    case Absent => Failed(IndexRequired)
    case Present(p) =>
      if p.None? || p.value < 0 || p.value >= |s| then Failed(NotFound)
      else Found(s[p.value])
  }

  /** GET /search?email=...: every record with exactly that email, in
      collection order; the empty string stands for a missing parameter. */
  function Search(s: seq<Submission>, email: string): (r: Response)
    ensures r == Failed(EmailRequired) <==> email == []
    ensures r == Failed(NoMatches) <==> email != [] && forall x :: x in s ==> x.email != email
    ensures r.Matches? || r == Failed(EmailRequired) || r == Failed(NoMatches)
    ensures r.Matches? ==> r.submissions != [] && r.submissions == Matching(s, email)
    ensures r.Matches? ==> IsSubsequence(r.submissions, s)
  {
    MatchingIsSubsequence(s, email);
    if email == [] then Failed(EmailRequired)
    else
      var result := Matching(s, email);
      if result == [] then Failed(NoMatches) else Matches(result)
  }

  /** The search result keeps collection order. */
  lemma {:induction false} MatchingIsSubsequence(s: seq<Submission>, email: string)
    ensures IsSubsequence(Matching(s, email), s)
  {
    if s != [] {
      MatchingIsSubsequence(s[1..], email);
      if s[0].email != email {
        var r := Matching(s, email);
        if r != [] {
          assert IsSubsequence(r, s[1..]);
        }
      }
    }
  }

  /** Dropping one element (Array.prototype.splice(i, 1)) keeps the order of
      the others. */
  lemma {:induction false} RemoveIsSubsequence<T>(s: seq<T>, i: nat)
    requires i < |s|
    ensures IsSubsequence(s[..i] + s[i + 1..], s)
  {
    var r := s[..i] + s[i + 1..];
    if i == 0 {
      assert r == s[1..];
      SubsequenceOfSelf(s[1..]);
    } else {
      RemoveIsSubsequence(s[1..], i - 1);
      assert r[1..] == s[1..][..i - 1] + s[1..][i..];
    }
  }

  lemma {:induction false} SubsequenceOfSelf<T>(s: seq<T>)
    ensures IsSubsequence(s, s)
  {
    if s != [] {
      SubsequenceOfSelf(s[1..]);
    }
  }

  /** Under increasing ids the generated id is above every id present, and
      appending the new record keeps the ids increasing. */
  lemma NextIdFresh(s: seq<Submission>, f: Fields)
    requires StrictlyIncreasing(s)
    ensures forall k :: 0 <= k < |s| ==> s[k].id < NextId(s)
    ensures StrictlyIncreasing(s + [WithId(NextId(s), f)])
  {
  }

  /** Removing a record keeps the ids increasing. */
  lemma RemoveKeepsIncreasing(s: seq<Submission>, i: nat)
    requires i < |s|
    requires StrictlyIncreasing(s)
    ensures StrictlyIncreasing(s[..i] + s[i + 1..])
  {
  }

  /** Replacing a record by one with the same id keeps the ids increasing. */
  lemma ReplaceKeepsIncreasing(s: seq<Submission>, i: nat, x: Submission)
    requires i < |s|
    requires x.id == s[i].id
    requires StrictlyIncreasing(s)
    ensures StrictlyIncreasing(s[i := x])
  {
  }

  /** Under increasing ids an id names one record: the first match is the only one. */
  lemma IncreasingIdsIdentify(s: seq<Submission>, k: nat)
    requires k < |s|
    requires StrictlyIncreasing(s)
    ensures FindIndex(s, s[k].id) == k
    ensures forall j :: 0 <= j < |s| && j != k ==> s[j].id != s[k].id
  {
  }

  /** Round trip: after an append, reading the last position gives the new record back. */
  lemma ReadAfterAppend(s: seq<Submission>, x: Submission)
    ensures ReadAt(s + [x], Present(Some(|s|))) == Found(x)
  {
  }

  /** Replacing the first record with an id by a record with the same id
      leaves it the first match, now carrying the new fields. */
  lemma FindAfterReplace(s: seq<Submission>, i: nat, x: Submission)
    requires i < |s|
    requires FindIndex(s, x.id) == i
    ensures FindIndex(s[i := x], x.id) == i
    ensures s[i := x][i] == x
  {
  }

  /** The id rule reuses ids: delete the last record and the next create
      hands out that record's id again. */
  lemma IdReusedAfterDeletingLast(f: Fields)
    ensures var s := [WithId(1, f), WithId(2, f)];
      var i := FindIndex(s, 2);
      i == 1 && NextId(s) == 3 && NextId(s[..i] + s[i + 1..]) == 2
  {
  }
}
