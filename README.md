# Freelance marketplace: jobs, bids, ratings and notifications in Dafny

This project models the core of a freelance marketplace backend (an
Express/Mongoose service):

- the job controller, `Freelance/controllers/jobController.js`:
  - the public job listing, with its filters and page arithmetic;
  - the create, update, delete and claim actions, with their guards and
    their effects on the stored jobs and notifications;
- the four document schemas under `Freelance/models/`, with their
  validators, defaults, unique indexes and the rating aggregation;
- the request validators in `Freelance/validators/schemas.js`.

Modules:

- `Base`: `Option`, ids, and JavaScript's `String.prototype.trim`. Mongoose's
  `trim: true` setter applies it.
- `JobModel`: the Job document and its validators.
  - `Create` is `Job.create`: the trim setters, the defaults and validation.
  - `ApplyPatch` and `PatchValid` are `findByIdAndUpdate` with
    `runValidators`. Only the paths the update writes are validated.
- `BidModel`: the Bid document and the bid collection. The collection has the
  unique (job, freelancer) index. `BidCollection` is a class updated in place.
- `RatingModel`: the Rating document and the ratings collection, which has the
  unique job index. `calculateAverageRating` is a method of
  `RatingCollection`. It overwrites a freelancer's average and count with
  the `$match`/`$group` result. It writes 0 and 0 when the freelancer has no
  ratings.
- `NotificationModel`: the Notification document and `Notification.create`.
- `Schemas`: one predicate per Joi schema. Lemmas relate what each schema
  accepts to what the Mongoose model then stores or refuses.
- `JobController`:
  - `GetJobs` is a function over the collection.
  - Each of the four lifecycle actions is a step function `Board -> Step`.
    `Step` is a response outcome plus the new board.
  - The class `JobBoard` performs the same steps in place on its `jobs` map
    and `notifications` sequence. Each method's `ensures` ties its outcome
    and new state to the step function applied to the old state.

Two behaviours of the code are modelled as written:

- `updateJob` passes the request body, unfiltered, to `findByIdAndUpdate`.
  The update schema strips unknown keys only from a copy it discards. So an
  owner can set `status`, `client`, `freelancer` or `bids` of an open job
  directly. The status enumeration (Freelance/models/Job.js:46-50) accepts
  any of its four values on update, so an open job can go straight to
  `completed`, bypassing the claim path (jobController.js:231-249). Emptying
  `bids` gets around the "no delete with bids" guard (jobController.js:190).
- `claimJob` saves the claimed job before it creates the client's
  notification. If the notification cannot be created, the request ends in
  the error handler, but the claim stays saved.

## Model

| member | source | states |
|---|---|---|
| Base.Trim | Freelance/models/Job.js:7 | the result is the input minus its leading and trailing whitespace and nothing else: a slice s[a..b] where everything before a and from b on is whitespace, and neither end of the result is whitespace |
| Base.TrimIdempotent | Freelance/models/Job.js:7 | trimming twice is trimming once, so re-saving a trimmed title leaves it unchanged |
| Base.TrimEmptyIffBlank | Freelance/models/Job.js:4-9 | a string trims to "" exactly when every character is whitespace, so such a title fails `required` |
| JobModel.TrimAll | Freelance/models/Job.js:56-59 | every skill is trimmed, and the skill list keeps its length and order |
| JobModel.BidCount | Freelance/models/Job.js:80-82 | the `bidCount` virtual: the number of bid ids pushed onto the job |
| JobModel.FieldsValid | Freelance/models/Job.js:3-51 | a whole job passes validation exactly when its title (stored after trimming) has 1 to 100 characters, the description 1 to 2000, the category and any duration lie in their enumerations, both budget bounds are non-negative when present, and the status is one of the four |
| JobModel.Build | Freelance/models/Job.js:3-59 | the document built from a draft: the title and each skill trimmed by their setters; a missing budget is empty, a missing freelancer null, a missing status "open" and missing bids and skills empty; a missing required string is "", which `required` refuses |
| JobModel.Create | Freelance/models/Job.js:3-59 | `Job.create` succeeds exactly when the built document passes every validator: title, description and category required, the length caps, the enumerations, non-negative budget bounds. The stored document holds the body's values: a trimmed title, the description, category, budget (or an empty one), duration, trimmed skills, freelancer, and the given status and bids. Status defaults to "open" and bids to empty; the client is the one given |
| JobModel.CreateSucceeds | Freelance/models/Job.js:3-59 | a body carrying title, description and category whose built content passes the validators is stored unless it gives an invalid status |
| JobModel.PatchValid | Freelance/controllers/jobController.js:152-155 | `runValidators` on an update checks only the paths the body writes, each against its Job.js validator after its setter: a trimmed title of 1 to 100 characters, a description of 1 to 2000, category, duration and status in their enumerations, non-negative budget bounds |
| JobModel.ApplyPatch | Freelance/controllers/jobController.js:152-155 | for each of the ten paths, a value the body gives is written (title and skills trimmed, budget replaced whole, client, freelancer and bids included) and an omitted path keeps its value |
| JobModel.PatchPreservesValidity | Freelance/controllers/jobController.js:152-155 | an update that passes the validators of the paths it writes leaves a valid job valid |
| JobModel.CreatedTextIsTrimmed | Freelance/models/Job.js:4-9 | the title and every skill of a built job are trimmed |
| JobModel.TrimAllIsTrimmed | Freelance/models/Job.js:56-59 | each skill in a trimmed skill list has no leading or trailing whitespace |
| BidModel.FieldsValid | Freelance/models/Bid.js:16-35 | a bid passes validation exactly when its amount is non-negative, its duration is one of the five, its message has at most 500 characters and its status is pending, accepted or rejected |
| BidModel.Create | Freelance/models/Bid.js:3-38 | a bid is stored exactly when job, freelancer, amount and duration are present and pass the validators: a non-negative amount, one of the five durations, a message of at most 500 characters, a status in the enumeration. The stored bid holds the body's job, freelancer, amount, duration, message and status; status defaults to "pending" |
| BidModel.HasPair | Freelance/models/Bid.js:45-46 | the index lookup finds a stored bid with the same job and freelancer exactly when one exists |
| BidModel.InsertStep | Freelance/models/Bid.js:45-46 | a save is stored exactly when it is valid and its pair is new, refused by validation exactly when the draft is invalid, refused as a duplicate exactly when it is valid and its pair is present, and otherwise leaves the collection unchanged |
| BidModel.InsertPreservesIndex | Freelance/models/Bid.js:45-46 | every save keeps the stored bids valid and their (job, freelancer) pairs unique |
| BidModel.SecondBidOnSamePairRefused | Freelance/models/Bid.js:45-46 | a second bid by the same freelancer on the same job is refused and leaves only the first bid stored |
| BidModel.BidCollection.Insert | Freelance/models/Bid.js:45-46 | saving a bid changes the collection exactly as InsertStep says and keeps the index invariant |
| RatingModel.FieldsValid | Freelance/models/Rating.js:23-48 | a rating passes validation exactly when its score lies in [1, 5], its feedback has at most 1000 characters, and each detailed score that is present lies in [1, 5] |
| RatingModel.Tally | Freelance/models/Rating.js:60-71 | the `$group` count never exceeds the number of ratings |
| RatingModel.Aggregate | Freelance/models/Rating.js:59-84 | the count is the number of the freelancer's ratings; average times count is the sum of their scores; with no ratings the summary is 0 and 0 |
| RatingModel.TallyCountsMatches | Freelance/models/Rating.js:61-68 | the count equals the number of ratings whose freelancer matches (`$match` then `$sum: 1`) |
| RatingModel.TallyIsSumOfMatches | Freelance/models/Rating.js:60-71 | the fold returns the sum and the length of the list of scores given to the freelancer, that list defined separately by the `$match` stage |
| RatingModel.TallyBounds | Freelance/models/Rating.js:23-28 | with every score in [1, 5], the sum of n scores lies between n and 5n |
| RatingModel.AverageInScale | Freelance/models/Rating.js:59-77 | a freelancer with at least one valid rating gets an average in [1, 5] |
| RatingModel.OtherRatingsDoNotMatter | Freelance/models/Rating.js:61-63 | a rating given to someone else leaves the freelancer's summary unchanged |
| RatingModel.NewRatingCounts | Freelance/models/Rating.js:65-69 | a new rating for the freelancer adds one to the count and its score to the sum |
| RatingModel.ThreeRatingsExample | Freelance/models/Rating.js:59-77 | scores 5, 5 and 4 give an average of 14/3 and a count of 3 |
| RatingModel.HasJob | Freelance/models/Rating.js:4-10 | the unique-index lookup finds a stored rating for the job exactly when one exists |
| RatingModel.InsertStep | Freelance/models/Rating.js:3-51 | a rating is stored exactly when it is valid and its job has no rating yet, refused by validation exactly when it is invalid, and refused as a duplicate exactly when it is valid and its job is already rated; the one-rating-per-job invariant is kept |
| RatingModel.RatingCollection.Insert | Freelance/models/Rating.js:3-51 | saving a rating changes the collection as InsertStep says, keeps the invariant and leaves the user summaries alone |
| RatingModel.RatingCollection.CalculateAverageRating | Freelance/models/Rating.js:59-84 | an existing user's summary is overwritten with the recomputed one and nothing else changes; the count is the number of their ratings; an average with at least one rating is in [1, 5]; a missing user is a no-op |
| NotificationModel.FieldsValid | Freelance/models/Notification.js:10-24 | a notification passes validation exactly when its type is one of the five kinds, its title has 1 to 100 characters and its message 1 to 500 |
| NotificationModel.Create | Freelance/models/Notification.js:3-40 | a notification is stored exactly when its type is in the enumeration and its title (at most 100 characters) and message (at most 500) are non-empty; the fields are copied; isRead is the given value, false when none is given |
| Schemas.RegisterValid | Freelance/validators/schemas.js:5-35 | a registration body is accepted exactly when it has a name of 2 to 50 characters, an e-mail address, a password of at least 6 characters, a role of client or freelancer, and an optional profile whose bio has at most 500 characters, whose skills are not blank once trimmed and whose portfolio and avatar are URIs |
| Schemas.LoginValid | Freelance/validators/schemas.js:37-45 | a login body is accepted exactly when it has an e-mail address and a non-empty password of any length |
| Schemas.UpdateProfileValid | Freelance/validators/schemas.js:47-64 | a profile update is accepted exactly when a given name has 2 to 50 characters and a given profile passes the registration profile rules; the empty body is accepted |
| Schemas.UpdatePasswordValid | Freelance/validators/schemas.js:66-74 | a password change is accepted exactly when it has a non-empty current password and a new password of at least 6 characters |
| Schemas.AcceptedNamesAreShort | Freelance/validators/schemas.js:5-64 | registration and profile updates accept only names of 2 to 50 characters, and only the roles client and freelancer |
| Schemas.JobCreateValid | Freelance/validators/schemas.js:79-108 | a create body is accepted exactly when it has an untrimmed title of 5 to 100 characters, a description of 20 to 2000 and a listed category, and any budget bounds are non-negative, any duration is listed and no skill is blank once trimmed; keys the schema does not name are let through |
| Schemas.JobCreateSatisfiesModel | Freelance/validators/schemas.js:79-108 | a body the create schema accepts, with a title that is not all whitespace, passes the Job document's validators |
| Schemas.BlankTitlePassesJobCreate | Freelance/validators/schemas.js:80-84 | a title of five spaces passes the create schema, yet `Job.create` refuses the body |
| Schemas.TrimmedJobCreateSatisfiesModel | Freelance/validators/schemas.js:79-108 | with the title measured after trimming, every accepted body that carries no invalid status is stored |
| Schemas.JobUpdateSatisfiesModel | Freelance/validators/schemas.js:110-132 | an update the schema accepts, with a non-blank title and any status valid, passes the update validators |
| Schemas.JobUpdateValid | Freelance/validators/schemas.js:110-132 | an update body is accepted exactly when every key it gives obeys the create bounds and it gives at least one of the six keys the schema names |
| Schemas.UpdateSchemaNeedsKnownKey | Freelance/validators/schemas.js:110-132 | a body holding only keys the update schema does not know is refused by `.min(1)`; adding one known key makes it accepted, unknown keys included |
| Schemas.UpdateSchemaIgnoresUnknownKeys | Freelance/validators/schemas.js:110-132 | the update schema's verdict does not depend on `status`, `client`, `freelancer` or `bids`, keys it does not declare and strips before validating |
| Schemas.BidCreateValid | Freelance/validators/schemas.js:137-149 | a bid body is accepted exactly when it has a non-negative amount and a listed duration, and any message has at most 500 characters |
| Schemas.BidUpdateValid | Freelance/validators/schemas.js:151-156 | a bid update is accepted exactly when it sets the status to accepted or rejected |
| Schemas.BidCreateSatisfiesModel | Freelance/validators/schemas.js:137-149 | a bid body the create schema accepts makes a valid Bid document that starts out pending |
| Schemas.BidUpdateNeverPending | Freelance/validators/schemas.js:151-156 | the bid update schema accepts exactly "accepted" and "rejected", both valid bid statuses and never "pending" |
| Schemas.RatingCreateValid | Freelance/validators/schemas.js:161-182 | a rating body is accepted exactly when it has a score in [1, 5], any feedback has at most 1000 characters, and each detailed score given lies in [1, 5] |
| Schemas.RatingCreateSatisfiesModel | Freelance/validators/schemas.js:161-182 | a rating body the schema accepts makes a valid Rating document |
| JobController.Matches | Freelance/controllers/jobController.js:13-21 | a job matches the query exactly when it has the given category and status (an empty string counts as not given) and, for each budget bound given, has a `budget.max` on the right side of it |
| JobController.Filtered | Freelance/controllers/jobController.js:13-21 | a job is selected exactly when it is in the collection and matches the category, the status and both budget bounds on `budget.max` |
| JobController.FilteredCountsMatches | Freelance/controllers/jobController.js:42 | the selection has exactly one entry per matching position of the collection, which is what `countDocuments` counts |
| JobController.MatchPositions | Freelance/controllers/jobController.js:13-21 | the matching positions, strictly increasing, each a match, with none missing |
| JobController.FilteredKeepsOrder | Freelance/controllers/jobController.js:34-36 | the k-th selected job is the job at the k-th matching position, so the selection keeps the collection's listing order |
| JobController.PageSize | Freelance/controllers/jobController.js:30 | the page size is the requested limit capped at 50; a limit below 1 gives 1 (corrected, see Findings) |
| JobController.RawPageSize | Freelance/controllers/jobController.js:30 | `Math.min(limit, 50)` as written: at most the limit and at most 50, with no lower bound |
| JobController.CursorLimit | Freelance/controllers/jobController.js:38 | the cursor's `limit(n)` keeps a prefix of the matches: all of them for 0, and min(|n|, count) otherwise |
| JobController.UncappedLimitAsWritten | Freelance/controllers/jobController.js:30-38 | as written, limit 0 returns every match (more than 50 when there are more) and limit -1000 returns up to 1000 |
| JobController.CappedLimitHolds | Freelance/controllers/jobController.js:30-38 | with the corrected page size, no requested limit lets more than 50 jobs through |
| JobController.CeilDiv | Freelance/controllers/jobController.js:45 | `Math.ceil(a / b)`: the least q with a <= q * b |
| JobController.Paginate | Freelance/controllers/jobController.js:44-47 | totalPages is the least number of pages that holds every match; hasNext holds exactly when page * size < totalJobs; hasPrev holds exactly when page > 1 |
| JobController.Skip | Freelance/controllers/jobController.js:31 | the earlier pages hold (page - 1) × size jobs, never negative for a page of at least 1 |
| JobController.Window | Freelance/controllers/jobController.js:31-38 | the window holds the matches from position skip onward, at most size of them, in order |
| JobController.GetJobs | Freelance/controllers/jobController.js:8-65 | at most 50 jobs, each in the collection and matching the filter; the page is the window at (page - 1) * size of the selection; the pagination block is Paginate of the page, the size and the number of matches; the defaults are page 1 and limit 10 |
| JobController.PageHoldsMatch | Freelance/controllers/jobController.js:29-47 | the k-th job of a page is the match at position (page - 1) * size + k, and that page is within totalPages |
| JobController.EveryMatchIsListed | Freelance/controllers/jobController.js:29-47 | every match appears on exactly the page i / size + 1, at offset i % size, within totalPages |
| JobController.BudgetRangeListing | Freelance/controllers/jobController.js:17-30 | a budget range of [500, 1000] with a limit of 1000 returns at most 50 jobs, each with `budget.max` in the range |
| JobController.CreateStep | Freelance/controllers/jobController.js:102-120 | the job is created exactly when `Job.create` accepts the body; its client is the requester, and it is open and unassigned unless the body says otherwise; a refused body changes nothing; a valid board stays valid |
| JobController.UpdateStep | Freelance/controllers/jobController.js:125-165 | 404, then 403 when the requester does not own the job, then 400 when the job is not open, then a validation failure when a written path breaks its validator; it succeeds exactly when the requester owns an open job and the written paths validate; the raw body is applied; a refused request changes nothing; validity is kept |
| JobController.DeleteStep | Freelance/controllers/jobController.js:170-206 | 404, then 403 for a non-owner, then 400 when the job has bids or is not open; it succeeds exactly when none of these applies, and then removes only that job |
| JobController.ClaimNotice | Freelance/controllers/jobController.js:252-258 | the notification goes to the job's client, with type job_completed, the related job, title "Job Claimed" and message "<name> has claimed your job: <title>", unread; it is created whenever the name has at most 50 characters and the title at most 100 |
| JobController.Claimed | Freelance/controllers/jobController.js:247-248 | the claimed job has the requester as its freelancer and status "in_progress", every other field unchanged |
| JobController.ClaimStep | Freelance/controllers/jobController.js:211-268 | 404, then 403 for a non-freelancer, then 400 when the job is not open or already has a freelancer; once the four guards pass the outcome is Ok or Failed. It succeeds exactly when they pass, the claimed job validates, the notice is valid and the store does not fail; a success sets the freelancer and in_progress and appends the notice; a failed notification leaves the claim saved and adds no notice; validity is kept |
| JobController.ClaimNotifiesWhenNameFits | Freelance/controllers/jobController.js:246-258 | on a valid board, a freelancer whose name has at most 50 characters claims an open, unassigned job successfully unless the store fails |
| JobController.RegisteredNameFitsClaim | Freelance/controllers/jobController.js:252-258 | any name that registration accepts fits the claim notification |
| JobController.SecondClaimRefused | Freelance/controllers/jobController.js:230-244 | after a successful claim, every further claim of that job is refused and changes nothing |
| JobController.ClaimedJobIsLocked | Freelance/controllers/jobController.js:144-195 | once claimed, a job can be neither updated nor deleted by anyone |
| JobController.NonOpenJobIsFrozen | Freelance/controllers/jobController.js:144-236 | a job that is not open is left unchanged by every update, delete and claim request |
| JobController.ClaimMovesOpenToInProgress | Freelance/controllers/jobController.js:246-249 | the only status change a claim makes is open to in_progress on the claimed job |
| JobController.UpdateCanClearBids | Freelance/controllers/jobController.js:152-197 | an owner cannot delete an open job that has bids, but a schema-accepted update writing `bids: []` makes the delete succeed |
| JobController.UpdateCanCloseJob | Freelance/controllers/jobController.js:152 | an owner's body that passes the update schema and carries `status: "completed"` moves an open job straight to completed |
| JobController.JobBoard.CreateJob | Freelance/controllers/jobController.js:102-120 | the in-place create does what CreateStep says and keeps the board valid |
| JobController.JobBoard.UpdateJob | Freelance/controllers/jobController.js:125-165 | the in-place update does what UpdateStep says and keeps the board valid |
| JobController.JobBoard.DeleteJob | Freelance/controllers/jobController.js:170-206 | the in-place delete does what DeleteStep says and keeps the board valid |
| JobController.JobBoard.ClaimJob | Freelance/controllers/jobController.js:211-268 | the in-place claim does what ClaimStep says and keeps the board valid |

## Left out

- HTTP routing, authentication, `populate`, `lean` and the JSON response bodies are not modelled. The requester is a `User` parameter, and each action returns an `Outcome` in place of a status code.
- The error handler that `next(error)` reaches is not part of this model. Its cases collapse into `Failed`.
- The `createdAt` sort of the listing is not modelled. The collection is given to `GetJobs` already in listing order.
- The `$text` search filter is not modelled, because the text index's tokenizing and scoring belong to the database.
- JobController.GetJobs: requires the page to be at least 1. A page of 0 or below gives a negative skip, which the database refuses; that error path and a NaN page or limit from `parseInt` are not modelled. It uses the corrected page size for limits below 1 (see Findings). The budget bounds are taken as numbers, so a non-numeric bound (NaN) is not modelled.
- A category or status filter given as the empty string counts as absent, as JavaScript's truthiness makes it. A budget bound of 0 is a number here, but the source treats `"0"` as truthy, so the two agree.
- Mongoose's casting of body values (numeric strings for numbers, ObjectId strings) is not modelled. Fields have their schema types.
- `attachments` on jobs is not modelled. It has no validator that the guards or the properties depend on.
- String lengths are counted in Dafny characters, not JavaScript UTF-16 code units.
- Scores and averages are exact reals. The floating-point rounding of `$avg` is not modelled.
- Budget bounds and bid amounts are whole numbers (`int`) here. JavaScript numbers and `Joi.number()` also accept fractions such as a budget of 99.5. No property proved here depends on that difference.
- Concurrency is not modelled. Each request is one atomic step, so two claims racing between the `findById` and the `save` are not covered.
- A database failure is modelled only where it changes the outcome: the `notifyFault` of the claim notification. Other store failures are left out.
- Explicit `null` values in a body are modelled only for `freelancer`. Elsewhere, a key is either given a value or absent.
- `getJob`, the bid acceptance and rejection flow, rating creation, the notification endpoints, the User model, `seed.js`, `server.js`, the middleware and the UI are not part of this model.
- The Joi e-mail and URI checks are parameters (`Schemas.Library`), not implementations.

## Findings

| source | as written | input that shows it | evidently intended | confidence | as-written member | corrected member |
|---|---|---|---|---|---|---|
| Freelance/controllers/jobController.js:30-38 | `Math.min(parseInt(limit), 50)` has no lower bound; the cursor treats `limit(0)` as no limit and `limit(-n)` as a single batch of up to n | `?limit=0` with 51 matching jobs returns all 51 on one page (and `totalPages` is `Math.ceil(51 / 0)`, Infinity); `?limit=-1000` returns up to 1000 | at most 50 items per page for every limit, as the comment at line 30 says; the corrected model raises a limit below 1 to 1 | medium, not executed | JobController.UncappedLimitAsWritten | JobController.CappedLimitHolds |
| Freelance/validators/schemas.js:80-84 | the create schema measures the title before trimming, and the Job model trims it before the `required` check | a title of five spaces with an otherwise valid body: the schema accepts it, and `Job.create` then refuses it because the trimmed title is "" | a title accepted by the schema is stored, with its length judged after trimming (`Joi.string().trim().min(5)`) | medium, not executed | Schemas.BlankTitlePassesJobCreate | Schemas.TrimmedJobCreateSatisfiesModel |
