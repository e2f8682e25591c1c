/** The job controller (Freelance/controllers/jobController.js).

    The listing (`getJobs`) is pure: a filter over the job collection and
    integer pagination arithmetic. The lifecycle actions (`createJob`,
    `updateJob`, `deleteJob`, `claimJob`) change the stored jobs and
    notifications; each is specified by a step function from the old board to
    an outcome and a new board, and the `JobBoard` class performs the same
    steps in place. Each request runs as one atomic step. */
module JobController {
  import opened Base
  import opened JobModel
  import NotificationModel
  import Schemas

  // ============================================================== listing

  /** The query's filter keys. A category or status given as the empty
      string counts as absent (it is falsy); a budget bound is already a
      number, None when the query does not give it. */
  datatype Filter = Filter(category: Option<string>, status: Option<string>,
                           minBudget: Option<int>, maxBudget: Option<int>)

  predicate Given(o: Option<string>) { o.Some? && o.value != "" }

  /** The query document: exact category and status, and both budget bounds
      compared with `budget.max` only; a job without `budget.max` fails any
      budget bound. */
  predicate Matches(j: Job, f: Filter) {
    && (Given(f.category) ==> j.category == f.category.value)
    && (Given(f.status) ==> j.status == f.status.value)
    && (f.minBudget.Some? ==> j.budget.max.Some? && j.budget.max.value >= f.minBudget.value)
    && (f.maxBudget.Some? ==> j.budget.max.Some? && j.budget.max.value <= f.maxBudget.value)
  }

  /** The jobs the query selects, in the collection's order. */
  function Filtered(jobs: seq<Job>, f: Filter): (r: seq<Job>)
    ensures |r| <= |jobs|
    ensures forall j :: j in r <==> j in jobs && Matches(j, f)
  {
    if jobs == [] then []
    else
      var n := |jobs| - 1;
      assert jobs == jobs[..n] + [jobs[n]];
      Filtered(jobs[..n], f) + if Matches(jobs[n], f) then [jobs[n]] else []
  }

  /** The positions of the collection that the query matches. */
  ghost function MatchIndices(jobs: seq<Job>, f: Filter): set<nat> {
    set i: nat | i < |jobs| && Matches(jobs[i], f)
  }

  /** `countDocuments(query)`: the selection has one entry per matching
      document. */
  lemma {:induction false} FilteredCountsMatches(jobs: seq<Job>, f: Filter)
    ensures |Filtered(jobs, f)| == |MatchIndices(jobs, f)|
  {
    if jobs != [] {
      var n := |jobs| - 1;
      var init := jobs[..n];
      FilteredCountsMatches(init, f);
      FilteredLast(jobs, f);
      MatchIndicesLast(jobs, f);
    }
  }

  lemma MatchIndicesLast(jobs: seq<Job>, f: Filter)
    requires jobs != []
    ensures var n := |jobs| - 1;
      |MatchIndices(jobs, f)| == |MatchIndices(jobs[..n], f)| + if Matches(jobs[n], f) then 1 else 0
  {
    var n := |jobs| - 1;
    var before := MatchIndices(jobs[..n], f);
    var added: set<nat> := if Matches(jobs[n], f) then {n} else {};
    forall i: nat ensures i in MatchIndices(jobs, f) <==> i in before + added {
      if i < n {
        assert jobs[..n][i] == jobs[i];
      }
    }
    assert MatchIndices(jobs, f) == before + added;
    assert n !in before;
  }

  lemma FilteredLast(jobs: seq<Job>, f: Filter)
    requires jobs != []
    ensures var n := |jobs| - 1;
      Filtered(jobs, f) == Filtered(jobs[..n], f) + if Matches(jobs[n], f) then [jobs[n]] else []
  {
  }

  /** The matching positions in increasing order. */
  ghost function MatchPositions(jobs: seq<Job>, f: Filter): (ps: seq<nat>)
    ensures forall k :: 0 <= k < |ps| ==> ps[k] < |jobs| && Matches(jobs[ps[k]], f)
    ensures forall k, l :: 0 <= k < l < |ps| ==> ps[k] < ps[l]
    ensures forall i :: 0 <= i < |jobs| && Matches(jobs[i], f) ==> i in ps
  {
    if jobs == [] then []
    else
      var n := |jobs| - 1;
      MatchPositions(jobs[..n], f) + if Matches(jobs[n], f) then [n] else []
  }

  /** The selection keeps the collection's (listing) order: its k-th job is
      the job at the k-th matching position. */
  lemma {:induction false} FilteredKeepsOrder(jobs: seq<Job>, f: Filter)
    ensures var ps := MatchPositions(jobs, f);
      && |Filtered(jobs, f)| == |ps|
      && forall k :: 0 <= k < |ps| ==> Filtered(jobs, f)[k] == jobs[ps[k]]
  {
    if jobs != [] {
      var n := |jobs| - 1;
      FilteredKeepsOrder(jobs[..n], f);
      FilteredLast(jobs, f);
      var ps := MatchPositions(jobs[..n], f);
      assert MatchPositions(jobs, f) == ps + if Matches(jobs[n], f) then [n] else [];
      forall k | 0 <= k < |ps| ensures Filtered(jobs, f)[k] == jobs[ps[k]] {
        assert Filtered(jobs, f)[k] == Filtered(jobs[..n], f)[k];
        assert jobs[..n][ps[k]] == jobs[ps[k]];
      }
    }
  }

  const DefaultPage := 1
  const DefaultLimit := 10
  const MaxPageSize := 50

  /** The page size the listing is meant to use: the requested limit, at
      most 50, and at least 1. */
  function PageSize(limit: int): (n: int)
    ensures 1 <= n <= MaxPageSize
    ensures limit >= 1 ==> n <= limit && (n == limit || n == MaxPageSize)
    ensures limit < 1 ==> n == 1
  {
    if limit < 1 then 1 else if limit < MaxPageSize then limit else MaxPageSize
  }

  /** `Math.min(parseInt(limit), 50)` as written: nothing keeps it above 0. */
  function RawPageSize(limit: int): (n: int)
    ensures n <= limit && n <= MaxPageSize
    ensures n == limit || n == MaxPageSize
  {
    if limit < MaxPageSize then limit else MaxPageSize
  }

  /** MongoDB's `limit(n)` on a cursor: 0 means no limit, and a negative n
      returns at most -n documents in one batch. */
  function CursorLimit(docs: seq<Job>, n: int): (r: seq<Job>)
    ensures r <= docs
    ensures n == 0 ==> r == docs
    ensures n != 0 ==> |r| == if |docs| < Abs(n) then |docs| else Abs(n)
  {
    if n == 0 || |docs| < Abs(n) then docs else docs[..Abs(n)]
  }

  function Abs(n: int): nat { if n < 0 then -n else n }

  /** As written, `?limit=0` lists every match on one page and `?limit=-1000`
      lists up to 1000, past the cap of 50 items per page. */
  lemma UncappedLimitAsWritten(matches: seq<Job>)
    ensures RawPageSize(0) == 0 && CursorLimit(matches, RawPageSize(0)) == matches
    ensures |matches| > MaxPageSize ==> |CursorLimit(matches, RawPageSize(0))| > MaxPageSize
    ensures |matches| >= 1000 ==> |CursorLimit(matches, RawPageSize(-1000))| == 1000
  {
  }

  /** With the corrected page size, the cursor limit never lets more than
      50 jobs through, whatever the requested limit. */
  lemma CappedLimitHolds(matches: seq<Job>, limit: int)
    ensures |CursorLimit(matches, PageSize(limit))| <= MaxPageSize
  {
  }

  /** `Math.ceil(a / b)` for whole numbers. */
  function CeilDiv(a: nat, b: nat): (q: nat)
    requires b > 0
    ensures (q - 1) * b < a <= q * b
  {
    if a % b == 0 then a / b else a / b + 1
  }

  datatype Pagination = Pagination(currentPage: int, totalPages: nat, totalJobs: nat, hasNext: bool, hasPrev: bool)

  /** The pagination block of the response. There is a next page exactly
      when the jobs do not all fit on the pages up to this one; there is a
      previous page exactly when this is not the first. */
  function Paginate(page: int, size: int, totalJobs: nat): (p: Pagination)
    requires page >= 1 && size >= 1
    ensures p.currentPage == page && p.totalJobs == totalJobs
    ensures (p.totalPages - 1) * size < totalJobs <= p.totalPages * size
    ensures p.hasNext <==> page * size < totalJobs
    ensures p.hasPrev <==> page > 1
  {
    var totalPages := CeilDiv(totalJobs, size);
    var hasNext := page < totalPages;
    assert hasNext <==> page * size < totalJobs by {
      if page < totalPages {
        MulMonotone(page, totalPages - 1, size);
      } else {
        MulMonotone(totalPages, page, size);
      }
    }
    Pagination(page, totalPages, totalJobs, hasNext, page > 1)
  }

  lemma MulMonotone(a: int, b: int, c: nat)
    requires a <= b
    ensures a * c <= b * c
  {
  }

  /** `(page - 1) * size`: how many selected jobs the earlier pages hold. */
  function Skip(page: int, size: int): nat
    requires page >= 1 && size >= 1
  {
    MulMonotone(0, page - 1, size);
    (page - 1) * size
  }

  /** The `skip(skip).limit(size)` window onto the selected jobs. */
  function Window(matches: seq<Job>, skip: nat, size: nat): (r: seq<Job>)
    ensures |r| <= size
    ensures skip < |matches| ==> |r| == if skip + size <= |matches| then size else |matches| - skip
    ensures skip >= |matches| ==> r == []
    ensures forall k :: 0 <= k < |r| ==> skip + k < |matches| && r[k] == matches[skip + k]
    ensures forall j :: j in r ==> j in matches
  {
    if skip >= |matches| then []
    else if skip + size <= |matches| then matches[skip..skip + size]
    else matches[skip..]
  }

  datatype Listing = Listing(jobs: seq<Job>, pagination: Pagination)

  /** `getJobs` over the collection, given in the listing's sort order.
      `page` and `limit` are the parsed query numbers, None when absent. */
  function GetJobs(collection: seq<Job>, f: Filter, page: Option<int>, limit: Option<int>): (r: Listing)
    requires page.None? || page.value >= 1
    ensures |r.jobs| <= MaxPageSize
    ensures forall j :: j in r.jobs ==> j in collection && Matches(j, f)
    ensures r.pagination.totalJobs == |Filtered(collection, f)|
    ensures r.pagination.currentPage == if page.Some? then page.value else DefaultPage
    ensures var size := PageSize(if limit.Some? then limit.value else DefaultLimit);
      && r.jobs == Window(Filtered(collection, f), Skip(r.pagination.currentPage, size), size)
      && r.pagination == Paginate(r.pagination.currentPage, size, |Filtered(collection, f)|)
  {
    var pageNumber := if page.Some? then page.value else DefaultPage;
    var size := PageSize(if limit.Some? then limit.value else DefaultLimit);
    var matches := Filtered(collection, f);
    var window := Window(matches, Skip(pageNumber, size), size);
    Listing(window, Paginate(pageNumber, size, |matches|))
  }

  /** The k-th job of a page is the selected job at position
      `(page - 1) * size + k`, and a page holding a selected job is within
      `totalPages`. */
  lemma PageHoldsMatch(collection: seq<Job>, f: Filter, limit: int, page: int, k: nat)
    requires page >= 1 && k < PageSize(limit)
    requires Skip(page, PageSize(limit)) + k < |Filtered(collection, f)|
    ensures var listing := GetJobs(collection, f, Some(page), Some(limit));
      && page <= listing.pagination.totalPages
      && k < |listing.jobs|
      && listing.jobs[k] == Filtered(collection, f)[Skip(page, PageSize(limit)) + k]
  {
    var size := PageSize(limit);
    var matches := Filtered(collection, f);
    var skip := Skip(page, size);
    WindowHit(matches, skip, size, k);
    var p := Paginate(page, size, |matches|);
    PageWithinTotal(page - 1, skip + k, size, |matches|, p.totalPages);
  }

  /** No selected job is unreachable: the job at position i of the selection
      is the (i % size)-th job of page i / size + 1. */
  lemma EveryMatchIsListed(collection: seq<Job>, f: Filter, limit: int, i: nat)
    requires i < |Filtered(collection, f)|
    ensures var size := PageSize(limit);
      var listing := GetJobs(collection, f, Some(i / size + 1), Some(limit));
      && i / size + 1 <= listing.pagination.totalPages
      && i % size < |listing.jobs|
      && listing.jobs[i % size] == Filtered(collection, f)[i]
  {
    var size := PageSize(limit);
    var q, k := PageOf(i, size);
    ListedAt(collection, f, limit, q + 1, k, i);
  }

  lemma ListedAt(collection: seq<Job>, f: Filter, limit: int, page: int, k: nat, i: nat)
    requires page >= 1 && k < PageSize(limit) && i < |Filtered(collection, f)|
    requires Skip(page, PageSize(limit)) + k == i
    ensures var listing := GetJobs(collection, f, Some(page), Some(limit));
      && page <= listing.pagination.totalPages
      && k < |listing.jobs|
      && listing.jobs[k] == Filtered(collection, f)[i]
  {
    PageHoldsMatch(collection, f, limit, page, k);
  }

  /** Position i lies at offset i % size of the page that starts at
      skip (i / size) * size. */
  lemma PageOf(i: nat, size: int) returns (q: nat, k: nat)
    requires size >= 1
    ensures q == i / size && k == i % size && k < size && Skip(q + 1, size) + k == i
  {
    q, k := i / size, i % size;
    DivMod(i, size);
    SkipOfNextPage(q, size);
  }

  lemma SkipOfNextPage(q: nat, size: int)
    requires size >= 1
    ensures Skip(q + 1, size) == q * size
  {
  }

  lemma DivMod(i: nat, size: int)
    requires size >= 1
    ensures i == (i / size) * size + i % size && 0 <= i % size < size
  {
  }

  lemma WindowHit(matches: seq<Job>, skip: nat, size: nat, rem: nat)
    requires rem < size && skip + rem < |matches|
    ensures rem < |Window(matches, skip, size)| && Window(matches, skip, size)[rem] == matches[skip + rem]
  {
  }

  lemma PageWithinTotal(q: nat, i: nat, size: int, n: nat, totalPages: nat)
    requires size >= 1 && q * size <= i < n && n <= totalPages * size
    ensures q < totalPages
  {
    if totalPages <= q {
      MulMonotone(totalPages, q, size);
    }
  }

  /** A budget range of [500, 1000] with a requested limit of 1000: at most
      50 jobs come back, each with a `budget.max` inside the range. */
  lemma BudgetRangeListing(collection: seq<Job>, page: int)
    requires page >= 1
    ensures var listing := GetJobs(collection, Filter(None, None, Some(500), Some(1000)), Some(page), Some(1000));
      && |listing.jobs| <= 50
      && forall j :: j in listing.jobs ==> j.budget.max.Some? && 500 <= j.budget.max.value <= 1000
  {
  }

  // ============================================================ lifecycle

  /** The authenticated requester (`req.user`). */
  datatype User = User(id: Id, role: string, name: string)

  /** The response of an action: 200, 201, 404, 403, 400, or an error handed
      to the error handler (`next(error)`), which is not part of this model. */
  datatype Outcome = Ok | Created | NotFound | Forbidden | BadRequest | Failed

  /** The stored jobs and notifications. */
  datatype Board = Board(jobs: map<Id, Job>, notifications: seq<NotificationModel.Notification>)

  datatype Step = Step(outcome: Outcome, board: Board)

  /** Every stored document passes its schema's validators. */
  ghost predicate BoardValid(b: Board) {
    && (forall id :: id in b.jobs ==> FieldsValid(b.jobs[id]))
    && (forall i :: 0 <= i < |b.notifications| ==> NotificationModel.FieldsValid(b.notifications[i]))
  }

  /** `createJob`: the body with `client` set to the requester; the new
      document gets the id the database assigns, `newId`. */
  function CreateStep(b: Board, user: User, body: JobDraft, newId: Id): (s: Step)
    requires newId !in b.jobs
    ensures s.outcome == Created <==> Create(body, user.id).Some?
    ensures s.outcome != Created ==> s.outcome == Failed && s.board == b
    ensures s.outcome == Created ==> s.board == b.(jobs := b.jobs[newId := Create(body, user.id).value])
    ensures s.outcome == Created ==> s.board.jobs[newId].client == user.id
    ensures s.outcome == Created && body.status.None? && body.freelancer.None? ==>
              s.board.jobs[newId].status == "open" && s.board.jobs[newId].freelancer == None
    ensures BoardValid(b) ==> BoardValid(s.board)
  {
    var j := Create(body, user.id);
    if j.None? then Step(Failed, b)
    else
      StoreKeepsBoardValid(b, newId, j.value);
      Step(Created, b.(jobs := b.jobs[newId := j.value]))
  }

  lemma StoreKeepsBoardValid(b: Board, id: Id, j: Job)
    requires FieldsValid(j)
    ensures BoardValid(b) ==> BoardValid(b.(jobs := b.jobs[id := j]))
  {
  }

  /** `updateJob`: not found, then not the owner, then not open; then the
      body, as it came, is written with the update validators on. Nothing in
      it is screened out, so it may rewrite status, client or freelancer. */
  function UpdateStep(b: Board, id: Id, user: User, body: JobPatch): (s: Step)
    ensures id !in b.jobs ==> s.outcome == NotFound
    ensures id in b.jobs && b.jobs[id].client != user.id ==> s.outcome == Forbidden
    ensures id in b.jobs && b.jobs[id].client == user.id && b.jobs[id].status != "open" ==> s.outcome == BadRequest
    ensures id in b.jobs && b.jobs[id].client == user.id && b.jobs[id].status == "open" && !PatchValid(body) ==> s.outcome == Failed
    ensures s.outcome == Ok <==> id in b.jobs && b.jobs[id].client == user.id && b.jobs[id].status == "open" && PatchValid(body)
    ensures s.outcome != Ok ==> s.board == b
    ensures s.outcome == Ok ==> s.board == b.(jobs := b.jobs[id := ApplyPatch(b.jobs[id], body)])
    ensures BoardValid(b) ==> BoardValid(s.board)
  {
    if id !in b.jobs then Step(NotFound, b)
    else
      var job := b.jobs[id];
      if job.client != user.id then Step(Forbidden, b)
      else if job.status != "open" then Step(BadRequest, b)
      else if !PatchValid(body) then Step(Failed, b)
      else
        PatchPreservesValidity(job, body);
        Step(Ok, b.(jobs := b.jobs[id := ApplyPatch(job, body)]))
  }

  /** `deleteJob`: not found, then not the owner, then bids present or not
      open; otherwise exactly that job is removed. */
  function DeleteStep(b: Board, id: Id, user: User): (s: Step)
    ensures id !in b.jobs ==> s.outcome == NotFound
    ensures id in b.jobs && b.jobs[id].client != user.id ==> s.outcome == Forbidden
    ensures (id in b.jobs && b.jobs[id].client == user.id && (BidCount(b.jobs[id]) > 0 || b.jobs[id].status != "open"))
              ==> s.outcome == BadRequest
    ensures s.outcome == Ok <==> id in b.jobs && b.jobs[id].client == user.id && BidCount(b.jobs[id]) == 0 && b.jobs[id].status == "open"
    ensures s.outcome == Ok ==> s.board == b.(jobs := b.jobs - {id}) && id !in s.board.jobs
    ensures s.outcome != Ok ==> s.board == b
    ensures BoardValid(b) ==> BoardValid(s.board)
  {
    if id !in b.jobs then Step(NotFound, b)
    else
      var job := b.jobs[id];
      if job.client != user.id then Step(Forbidden, b)
      else if |job.bids| > 0 || job.status != "open" then Step(BadRequest, b)
      else Step(Ok, b.(jobs := b.jobs - {id}))
  }

  const ClaimTitle := "Job Claimed"
  const ClaimedYourJob := " has claimed your job: "

  /** The notification `claimJob` asks to create for the job's client. */
  function ClaimNotice(job: Job, id: Id, user: User): (n: Option<NotificationModel.Notification>)
    ensures n.Some? ==> n.value.user == job.client && n.value.kind == "job_completed" && n.value.relatedJob == Some(id)
    ensures n.Some? ==> n.value.title == ClaimTitle && n.value.message == user.name + ClaimedYourJob + job.title
    ensures n.Some? ==> !n.value.isRead && NotificationModel.FieldsValid(n.value)
    ensures |user.name| <= 50 && |job.title| <= TitleMaxLength ==> n.Some?
  {
    NotificationModel.Create(job.client, "job_completed", ClaimTitle, user.name + ClaimedYourJob + job.title,
                             Some(id), None, None)
  }

  /** The four guards of `claimJob` pass: the job exists, the requester is
      a freelancer, the job is open and nobody has claimed it. */
  predicate Claimable(b: Board, id: Id, user: User) {
    id in b.jobs && user.role == "freelancer" && b.jobs[id].status == "open" && b.jobs[id].freelancer == None
  }

  function Claimed(job: Job, user: User): Job {
    job.(freelancer := Some(user.id), status := "in_progress")
  }

  /** `claimJob`: not found, then not a freelancer, then not open, then
      already assigned. Otherwise the job is saved with the requester as its
      freelancer and status "in_progress", and only then is the notification
      created. When that creation fails (its validators refuse it, or the
      store fails: `notifyFault`) the request ends in an error but the claim
      stays saved. */
  function ClaimStep(b: Board, id: Id, user: User, notifyFault: bool): (s: Step)
    ensures id !in b.jobs ==> s.outcome == NotFound
    ensures id in b.jobs && user.role != "freelancer" ==> s.outcome == Forbidden
    ensures id in b.jobs && user.role == "freelancer" && b.jobs[id].status != "open" ==> s.outcome == BadRequest
    ensures id in b.jobs && user.role == "freelancer" && b.jobs[id].freelancer.Some? ==> s.outcome == BadRequest
    ensures s.outcome in {NotFound, Forbidden, BadRequest} ==> s.board == b
    ensures s.outcome == Ok ==>
              && id in b.jobs && b.jobs[id].status == "open" && b.jobs[id].freelancer == None
              && s.board.jobs == b.jobs[id := Claimed(b.jobs[id], user)]
              && ClaimNotice(Claimed(b.jobs[id], user), id, user).Some?
              && s.board.notifications == b.notifications + [ClaimNotice(Claimed(b.jobs[id], user), id, user).value]
    ensures s.outcome == Ok <==> (Claimable(b, id, user) && FieldsValid(Claimed(b.jobs[id], user))
                                  && ClaimNotice(Claimed(b.jobs[id], user), id, user).Some? && !notifyFault)
    ensures Claimable(b, id, user) ==> s.outcome in {Ok, Failed}
    ensures s.outcome == Failed ==> s.board.notifications == b.notifications
    ensures s.outcome == Failed && id in b.jobs && !FieldsValid(Claimed(b.jobs[id], user)) ==> s.board == b
    ensures (s.outcome == Failed && id in b.jobs && FieldsValid(Claimed(b.jobs[id], user)))
              ==> s.board.jobs == b.jobs[id := Claimed(b.jobs[id], user)]
    ensures s.outcome == Failed && BoardValid(b) ==> s.board.jobs == b.jobs[id := Claimed(b.jobs[id], user)]
    ensures BoardValid(b) ==> BoardValid(s.board)
  {
    if id !in b.jobs then Step(NotFound, b)
    else
      var job := b.jobs[id];
      if user.role != "freelancer" then Step(Forbidden, b)
      else if job.status != "open" then Step(BadRequest, b)
      else if job.freelancer.Some? then Step(BadRequest, b)
      else
        var claimed := Claimed(job, user);
        if !FieldsValid(claimed) then Step(Failed, b)
        else
          var saved := b.(jobs := b.jobs[id := claimed]);
          var notice := ClaimNotice(claimed, id, user);
          if notifyFault || notice.None? then Step(Failed, saved)
          else Step(Ok, saved.(notifications := b.notifications + [notice.value]))
  }

  // ---------------------------------------------- properties of the steps

  /** A claim by a freelancer whose name has at most 50 characters (all a
      registration or profile update admits) always gets its notification
      through on a valid board, unless the store itself fails. */
  lemma ClaimNotifiesWhenNameFits(b: Board, id: Id, user: User)
    requires BoardValid(b)
    requires id in b.jobs && user.role == "freelancer"
    requires b.jobs[id].status == "open" && b.jobs[id].freelancer == None
    requires |user.name| <= 50
    ensures ClaimStep(b, id, user, false).outcome == Ok
  {
    assert FieldsValid(b.jobs[id]);
  }

  /** A registered name always fits the claim notification. */
  lemma RegisteredNameFitsClaim(r: Schemas.RegisterBody, lib: Schemas.Library, job: Job, id: Id)
    requires Schemas.RegisterValid(r, lib) && FieldsValid(job)
    ensures ClaimNotice(job, id, User(0, r.role.value, r.name.value)).Some?
  {
    Schemas.AcceptedNamesAreShort(r, Schemas.UpdateProfileBody(None, None), lib);
  }

  /** Two claims of one job, one after the other, never both succeed: once a
      claim went through, any further claim is refused and changes nothing. */
  lemma SecondClaimRefused(b: Board, id: Id, first: User, second: User, fault: bool, fault': bool)
    requires ClaimStep(b, id, first, fault).outcome == Ok
    ensures var after := ClaimStep(b, id, first, fault).board;
      && ClaimStep(after, id, second, fault').outcome in {Forbidden, BadRequest}
      && ClaimStep(after, id, second, fault').board == after
  {
  }

  /** Once a job is claimed, its owner can neither edit nor delete it. */
  lemma ClaimedJobIsLocked(b: Board, id: Id, claimant: User, fault: bool, owner: User, body: JobPatch)
    requires ClaimStep(b, id, claimant, fault).outcome == Ok
    ensures var after := ClaimStep(b, id, claimant, fault).board;
      && UpdateStep(after, id, owner, body).outcome in {Forbidden, BadRequest}
      && DeleteStep(after, id, owner).outcome in {Forbidden, BadRequest}
  {
  }

  /** A job that is not open (in progress, completed or cancelled) is left
      as it is by every update, delete and claim request. */
  lemma NonOpenJobIsFrozen(b: Board, id: Id, user: User, body: JobPatch, fault: bool)
    requires id in b.jobs && b.jobs[id].status != "open"
    ensures UpdateStep(b, id, user, body).board == b
    ensures DeleteStep(b, id, user).board == b
    ensures ClaimStep(b, id, user, fault).board == b
  {
  }

  /** The only status change a claim makes is open to in_progress, on the
      claimed job; every other job keeps its status. */
  lemma ClaimMovesOpenToInProgress(b: Board, id: Id, user: User, fault: bool, k: Id)
    requires BoardValid(b) && k in b.jobs
    ensures var after := ClaimStep(b, id, user, fault).board;
      && k in after.jobs
      && (after.jobs[k].status != b.jobs[k].status ==> k == id && b.jobs[k].status == "open" && after.jobs[k].status == "in_progress")
  {
  }

  /** The update schema does not stop a body from closing a job: an owner's
      body with a valid title and `status: "completed"` passes the schema and
      moves an open job straight to completed. */
  lemma UpdateCanCloseJob(b: Board, id: Id, user: User)
    requires id in b.jobs && b.jobs[id].client == user.id && b.jobs[id].status == "open"
    ensures var body := JobPatch(Some("Logo redesign"), None, None, None, None, None, None, Some("completed"), None, None);
      && Schemas.JobUpdateValid(body)
      && UpdateStep(b, id, user, body).outcome == Ok
      && UpdateStep(b, id, user, body).board.jobs[id].status == "completed"
  {
    var t := "Logo redesign";
    assert !IsSpace(t[0]);
    TrimEmptyIffBlank(t);
    assert Trim(t) == t by {
      assert TrimStart(t) == t;
      assert TrimEnd(t) == t;
    }
  }

  /** Nor does it stop a body from emptying `bids`: the owner of an open job
      that has bids, and so cannot be deleted, writes `bids: []` alongside a
      valid title, after which the delete goes through. */
  lemma UpdateCanClearBids(b: Board, id: Id, user: User)
    requires id in b.jobs && b.jobs[id].client == user.id && b.jobs[id].status == "open"
    requires BidCount(b.jobs[id]) > 0
    ensures DeleteStep(b, id, user).outcome == BadRequest
    ensures var body := JobPatch(Some("Logo redesign"), None, None, None, None, None, None, None, Some([]), None);
      var after := UpdateStep(b, id, user, body).board;
      && Schemas.JobUpdateValid(body)
      && UpdateStep(b, id, user, body).outcome == Ok
      && DeleteStep(after, id, user).outcome == Ok
  {
    var t := "Logo redesign";
    assert !IsSpace(t[0]);
    TrimEmptyIffBlank(t);
    assert Trim(t) == t by {
      assert TrimStart(t) == t;
      assert TrimEnd(t) == t;
    }
  }

  // ============================================================ the store

  /** The job and notification collections, updated in place by the
      controller actions. */
  class JobBoard {
    var jobs: map<Id, Job>
    var notifications: seq<NotificationModel.Notification>

    ghost function State(): Board
      reads this
    {
      Board(jobs, notifications)
    }

    ghost predicate Valid()
      reads this
    {
      BoardValid(State())
    }

    constructor ()
      ensures Valid() && jobs == map[] && notifications == []
    {
      jobs := map[];
      notifications := [];
    }

    method CreateJob(user: User, body: JobDraft, newId: Id) returns (outcome: Outcome)
      requires Valid() && newId !in jobs
      modifies this
      ensures Valid()
      ensures Step(outcome, State()) == CreateStep(old(State()), user, body, newId)
    {
      var job := Create(body, user.id);
      if job.None? {
        return Failed;
      }
      jobs := jobs[newId := job.value];
      outcome := Created;
    }

    method UpdateJob(id: Id, user: User, body: JobPatch) returns (outcome: Outcome)
      requires Valid()
      modifies this
      ensures Valid()
      ensures Step(outcome, State()) == UpdateStep(old(State()), id, user, body)
    {
      if id !in jobs {
        return NotFound;
      }
      var job := jobs[id];
      if job.client != user.id {
        return Forbidden;
      }
      if job.status != "open" {
        return BadRequest;
      }
      if !PatchValid(body) {
        return Failed;
      }
      jobs := jobs[id := ApplyPatch(job, body)];
      outcome := Ok;
    }

    method DeleteJob(id: Id, user: User) returns (outcome: Outcome)
      requires Valid()
      modifies this
      ensures Valid()
      ensures Step(outcome, State()) == DeleteStep(old(State()), id, user)
    {
      if id !in jobs {
        return NotFound;
      }
      var job := jobs[id];
      if job.client != user.id {
        return Forbidden;
      }
      if |job.bids| > 0 || job.status != "open" {
        return BadRequest;
      }
      jobs := jobs - {id};
      outcome := Ok;
    }

    /** The claim is written before the notification is attempted, so a
        failed notification leaves the claim in place. */
    method ClaimJob(id: Id, user: User, notifyFault: bool) returns (outcome: Outcome)
      requires Valid()
      modifies this
      ensures Valid()
      ensures Step(outcome, State()) == ClaimStep(old(State()), id, user, notifyFault)
    {
      if id !in jobs {
        return NotFound;
      }
      var job := jobs[id];
      if user.role != "freelancer" {
        return Forbidden;
      }
      if job.status != "open" {
        return BadRequest;
      }
      if job.freelancer.Some? {
        return BadRequest;
      }
      var claimed := Claimed(job, user);
      if !FieldsValid(claimed) {
        return Failed;
      }
      jobs := jobs[id := claimed];
      var notice := ClaimNotice(claimed, id, user);
      if notifyFault || notice.None? {
        return Failed;
      }
      notifications := notifications + [notice.value];
      outcome := Ok;
    }
  }
}
