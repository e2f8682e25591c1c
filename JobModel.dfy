/** The Job document (Freelance/models/Job.js): its fields, the validators
    Mongoose runs on it, the defaults it fills in on creation, and how an
    update body is applied to a stored job. */
module JobModel {
  import opened Base

  const Categories: seq<string> := ["design", "writing", "development", "marketing", "data", "other"]
  const Durations: seq<string> := ["less than 1 week", "1-2 weeks", "2-4 weeks", "1-3 months", "3+ months"]
  /** The lifecycle states; "open" is the default. */
  const Statuses: seq<string> := ["open", "in_progress", "completed", "cancelled"]
  const TitleMaxLength := 100
  const DescriptionMaxLength := 2000

  /** The nested `budget` object; either bound may be absent. */
  datatype Budget = Budget(min: Option<int>, max: Option<int>)

  /** A stored job. `freelancer` is null (None) until someone is assigned;
      `bids` holds the ids of the bids pushed onto the job. */
  datatype Job = Job(
    title: string,
    description: string,
    category: string,
    budget: Budget,
    duration: Option<string>,
    client: Id,
    freelancer: Option<Id>,
    status: string,
    bids: seq<Id>,
    skillsRequired: seq<string>)

  /** The `bidCount` virtual. */
  function BidCount(j: Job): nat {
    |j.bids|
  }

  predicate BudgetValid(b: Budget) {
    && (b.min.Some? ==> b.min.value >= 0)
    && (b.max.Some? ==> b.max.value >= 0)
  }

  // Each field's validators, as they judge the value after the setters ran.
  // A required string is missing when it is empty, as in Mongoose.
  predicate TitleValid(t: string) { 0 < |t| <= TitleMaxLength }
  predicate DescriptionValid(d: string) { 0 < |d| <= DescriptionMaxLength }
  predicate CategoryValid(c: string) { c in Categories }
  predicate DurationValid(d: string) { d in Durations }
  predicate StatusValid(s: string) { s in Statuses }

  /** The constraints of the content fields title to duration. */
  predicate ContentValid(j: Job) {
    && TitleValid(j.title)
    && DescriptionValid(j.description)
    && CategoryValid(j.category)
    && BudgetValid(j.budget)
    && (j.duration.Some? ==> DurationValid(j.duration.value))
  }

  /** Everything the schema validates on a whole document. */
  predicate FieldsValid(j: Job) {
    ContentValid(j) && StatusValid(j.status)
  }

  /** A creation body as the model receives it: every key may be missing,
      and besides the content keys it may carry the lifecycle keys too. */
  datatype JobDraft = JobDraft(
    title: Option<string>,
    description: Option<string>,
    category: Option<string>,
    budget: Option<Budget>,
    duration: Option<string>,
    freelancer: Option<Id>,
    status: Option<string>,
    bids: Option<seq<Id>>,
    skillsRequired: Option<seq<string>>)

  function OrEmpty(o: Option<string>): string {
    if o.Some? then o.value else ""
  }

  /** The document Mongoose builds from a draft: the `trim` setters run on the
      title and on every skill, and the defaults fill the missing keys. */
  function Build(d: JobDraft, client: Id): Job {
    Job(
      Trim(OrEmpty(d.title)),
      OrEmpty(d.description),
      OrEmpty(d.category),
      if d.budget.Some? then d.budget.value else Budget(None, None),
      d.duration,
      client,
      d.freelancer,
      if d.status.Some? then d.status.value else "open",
      if d.bids.Some? then d.bids.value else [],
      if d.skillsRequired.Some? then TrimAll(d.skillsRequired.value) else [])
  }

  function TrimAll(ss: seq<string>): (r: seq<string>)
    ensures |r| == |ss| && forall i :: 0 <= i < |ss| ==> r[i] == Trim(ss[i])
  {
    if ss == [] then [] else [Trim(ss[0])] + TrimAll(ss[1..])
  }

  /** `Job.create`: the new document, or None when validation fails. A
      missing title, description or category fails `required`. */
  function Create(d: JobDraft, client: Id): (r: Option<Job>)
    ensures r.Some? ==> FieldsValid(r.value) && r.value.client == client
    ensures r.Some? ==> d.title.Some? && d.description.Some? && d.category.Some?
    ensures r.Some? ==> r.value.title == Trim(d.title.value) && r.value.description == d.description.value
    ensures r.Some? ==> r.value.category == d.category.value && r.value.duration == d.duration
    ensures r.Some? ==> r.value.budget == if d.budget.Some? then d.budget.value else Budget(None, None)
    ensures r.Some? ==> r.value.skillsRequired == if d.skillsRequired.Some? then TrimAll(d.skillsRequired.value) else []
    ensures r.Some? ==> r.value.status == if d.status.Some? then d.status.value else "open"
    ensures r.Some? ==> r.value.freelancer == d.freelancer
    ensures r.Some? ==> r.value.bids == if d.bids.Some? then d.bids.value else []
    ensures r.None? <==> d.title.None? || d.description.None? || d.category.None? || !FieldsValid(Build(d, client))
  {
    if d.title.None? || d.description.None? || d.category.None? then None
    else
      var j := Build(d, client);
      if FieldsValid(j) then Some(j) else None
  }

  /** A body with the required keys and valid content is stored unless it
      carries an invalid status. */
  lemma CreateSucceeds(d: JobDraft, client: Id)
    requires d.title.Some? && d.description.Some? && d.category.Some?
    requires ContentValid(Build(d, client))
    ensures d.status.None? || StatusValid(d.status.value) ==> Create(d, client).Some?
  {
  }

  /** An update body as `findByIdAndUpdate` receives it: each present key is
      written with `$set`; `freelancer` may be written as null (Some(None)).
      A present `budget` replaces the whole nested object. */
  datatype JobPatch = JobPatch(
    title: Option<string>,
    description: Option<string>,
    category: Option<string>,
    budget: Option<Budget>,
    duration: Option<string>,
    client: Option<Id>,
    freelancer: Option<Option<Id>>,
    status: Option<string>,
    bids: Option<seq<Id>>,
    skillsRequired: Option<seq<string>>)

  /** The update validators (`runValidators: true`): only the paths the body
      writes are checked, each after its setter ran. */
  predicate PatchValid(p: JobPatch) {
    && (p.title.Some? ==> TitleValid(Trim(p.title.value)))
    && (p.description.Some? ==> DescriptionValid(p.description.value))
    && (p.category.Some? ==> CategoryValid(p.category.value))
    && (p.budget.Some? ==> BudgetValid(p.budget.value))
    && (p.duration.Some? ==> DurationValid(p.duration.value))
    && (p.status.Some? ==> StatusValid(p.status.value))
  }

  /** The stored job after the update: the keys the body carries are
      overwritten (after their setters), every other field keeps its value. */
  function ApplyPatch(j: Job, p: JobPatch): (r: Job)
    ensures p.title.Some? ==> r.title == Trim(p.title.value)
    ensures p.title.None? ==> r.title == j.title
    ensures p.status.Some? ==> r.status == p.status.value
    ensures p.status.None? ==> r.status == j.status
    ensures p.description.Some? ==> r.description == p.description.value
    ensures p.description.None? ==> r.description == j.description
    ensures p.category.Some? ==> r.category == p.category.value
    ensures p.category.None? ==> r.category == j.category
    ensures p.budget.Some? ==> r.budget == p.budget.value
    ensures p.budget.None? ==> r.budget == j.budget
    ensures p.duration.Some? ==> r.duration == p.duration
    ensures p.duration.None? ==> r.duration == j.duration
    ensures p.client.Some? ==> r.client == p.client.value
    ensures p.client.None? ==> r.client == j.client
    ensures p.freelancer.Some? ==> r.freelancer == p.freelancer.value
    ensures p.freelancer.None? ==> r.freelancer == j.freelancer
    ensures p.bids.Some? ==> r.bids == p.bids.value
    ensures p.bids.None? ==> r.bids == j.bids
    ensures p.skillsRequired.Some? ==> r.skillsRequired == TrimAll(p.skillsRequired.value)
    ensures p.skillsRequired.None? ==> r.skillsRequired == j.skillsRequired
  {
    var title := if p.title.Some? then Some(Trim(p.title.value)) else None;
    var skills := if p.skillsRequired.Some? then Some(TrimAll(p.skillsRequired.value)) else None;
    var duration := if p.duration.Some? then Some(p.duration) else None;
    Job(
      Pick(title, j.title),
      Pick(p.description, j.description),
      Pick(p.category, j.category),
      Pick(p.budget, j.budget),
      Pick(duration, j.duration),
      Pick(p.client, j.client),
      Pick(p.freelancer, j.freelancer),
      Pick(p.status, j.status),
      Pick(p.bids, j.bids),
      Pick(skills, j.skillsRequired))
  }

  /** A `$set` of one path: the given value, or the stored one when the body
      does not carry the key. */
  function Pick<T>(given: Option<T>, stored: T): (r: T)
    ensures given.Some? ==> r == given.value
    ensures given.None? ==> r == stored
  {
    if given.Some? then given.value else stored
  }

  /** An update that passes the update validators keeps a valid job valid:
      the paths it does not write were valid before, the ones it writes were
      just checked. */
  lemma PatchPreservesValidity(j: Job, p: JobPatch)
    ensures FieldsValid(j) && PatchValid(p) ==> FieldsValid(ApplyPatch(j, p))
  {
  }

  /** A stored title or skill is already trimmed: saving the job again does
      not change it. */
  lemma CreatedTextIsTrimmed(d: JobDraft, client: Id)
    ensures Trim(Build(d, client).title) == Build(d, client).title
    ensures TrimmedAll(Build(d, client).skillsRequired)
  {
    TrimIdempotent(OrEmpty(d.title));
    if d.skillsRequired.Some? {
      TrimAllIsTrimmed(d.skillsRequired.value);
    }
  }

  predicate TrimmedAll(ss: seq<string>) {
    forall i :: 0 <= i < |ss| ==> Trim(ss[i]) == ss[i]
  }

  lemma TrimAllIsTrimmed(ss: seq<string>)
    ensures TrimmedAll(TrimAll(ss))
  {
    forall i | 0 <= i < |ss| ensures Trim(TrimAll(ss)[i]) == TrimAll(ss)[i] {
      TrimIdempotent(ss[i]);
    }
  }
}
