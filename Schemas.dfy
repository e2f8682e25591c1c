/** The request validators of Freelance/validators/schemas.js, one predicate
    per schema over the request body, and what a body they accept is worth to
    the models that store it.

    Two rules of the validator library hold throughout: a string key, when
    present, must not be the empty string (`Joi.string()` refuses ''), and keys
    a schema does not name are accepted and only left out of the validated copy
    (`stripUnknown`). The validated copy is thrown away, so a controller sees
    the body as it came, unknown keys included. Format checks the library
    implements (e-mail addresses, URIs) are parameters. */
module Schemas {
  import opened Base
  import JobModel
  import BidModel
  import RatingModel

  /** The validator library's own format checks. */
  datatype Library = Library(isEmail: string -> bool, isUri: string -> bool)

  /** `Joi.string()` with optional `.min(lo)` and `.max(hi)`. */
  predicate StringIn(s: string, lo: nat, hi: nat) { 0 < |s| && lo <= |s| <= hi }

  predicate StringMin(s: string, lo: nat) { 0 < |s| && lo <= |s| }

  predicate OptionalString(o: Option<string>, lo: nat, hi: nat) {
    o.Some? ==> StringIn(o.value, lo, hi)
  }

  /** `Joi.string().valid(...)`. */
  predicate OneOf(o: Option<string>, values: seq<string>) {
    o.Some? ==> o.value in values
  }

  // The enumerations exactly as the schemas list them.
  const Roles: seq<string> := ["client", "freelancer"]
  const Categories: seq<string> := ["design", "writing", "development", "marketing", "data", "other"]
  const Durations: seq<string> := ["less than 1 week", "1-2 weeks", "2-4 weeks", "1-3 months", "3+ months"]
  const BidDecisions: seq<string> := ["accepted", "rejected"]

  // ---------------------------------------------------------------- users

  datatype ProfileBody = ProfileBody(
    bio: Option<string>,
    skills: Option<seq<string>>,
    portfolio: Option<string>,
    avatar: Option<string>)

  /** `Joi.array().items(Joi.string().trim())`: each item is trimmed before
      it is checked, so an item that is only whitespace is refused. */
  predicate SkillsValid(skills: Option<seq<string>>) {
    skills.Some? ==> forall i :: 0 <= i < |skills.value| ==> Trim(skills.value[i]) != []
  }

  predicate UriValid(o: Option<string>, lib: Library) {
    o.Some? ==> 0 < |o.value| && lib.isUri(o.value)
  }

  predicate ProfileValid(p: Option<ProfileBody>, lib: Library) {
    p.Some? ==>
      && OptionalString(p.value.bio, 0, 500)
      && SkillsValid(p.value.skills)
      && UriValid(p.value.portfolio, lib)
      && UriValid(p.value.avatar, lib)
  }

  datatype RegisterBody = RegisterBody(
    name: Option<string>,
    email: Option<string>,
    password: Option<string>,
    role: Option<string>,
    profile: Option<ProfileBody>)

  /** `userSchemas.register`. */
  predicate RegisterValid(b: RegisterBody, lib: Library) {
    && b.name.Some? && StringIn(b.name.value, 2, 50)
    && b.email.Some? && 0 < |b.email.value| && lib.isEmail(b.email.value)
    && b.password.Some? && StringMin(b.password.value, 6)
    && b.role.Some? && b.role.value in Roles
    && ProfileValid(b.profile, lib)
  }

  datatype LoginBody = LoginBody(email: Option<string>, password: Option<string>)

  /** `userSchemas.login`: any non-empty password. */
  predicate LoginValid(b: LoginBody, lib: Library) {
    && b.email.Some? && 0 < |b.email.value| && lib.isEmail(b.email.value)
    && b.password.Some? && 0 < |b.password.value|
  }

  datatype UpdateProfileBody = UpdateProfileBody(name: Option<string>, profile: Option<ProfileBody>)

  /** `userSchemas.updateProfile`: everything optional, the empty body too. */
  predicate UpdateProfileValid(b: UpdateProfileBody, lib: Library) {
    OptionalString(b.name, 2, 50) && ProfileValid(b.profile, lib)
  }

  datatype UpdatePasswordBody = UpdatePasswordBody(currentPassword: Option<string>, newPassword: Option<string>)

  /** `userSchemas.updatePassword`. */
  predicate UpdatePasswordValid(b: UpdatePasswordBody) {
    && b.currentPassword.Some? && 0 < |b.currentPassword.value|
    && b.newPassword.Some? && StringMin(b.newPassword.value, 6)
  }

  /** Every user name a valid registration or profile update can store is
      2 to 50 characters long, and a registered role is one of the two. */
  lemma AcceptedNamesAreShort(r: RegisterBody, u: UpdateProfileBody, lib: Library)
    ensures RegisterValid(r, lib) ==> 2 <= |r.name.value| <= 50 && (r.role.value == "client" || r.role.value == "freelancer")
    ensures UpdateProfileValid(u, lib) && u.name.Some? ==> 2 <= |u.name.value| <= 50
  {
  }

  // ----------------------------------------------------------------- jobs

  /** The schemas list the same categories and durations as the models. */
  lemma EnumerationsAgree()
    ensures Categories == JobModel.Categories && Durations == JobModel.Durations
  {
  }

  predicate BudgetBodyValid(b: Option<JobModel.Budget>) {
    b.Some? ==> JobModel.BudgetValid(b.value)
  }

  /** `jobSchemas.create`, judged on the raw creation body. The lifecycle keys
      a body may also carry (status, freelancer, bids) are unknown to it.
      Attachments are not part of this model. */
  predicate JobCreateValid(d: JobModel.JobDraft) {
    && d.title.Some? && StringIn(d.title.value, 5, 100)
    && d.description.Some? && StringIn(d.description.value, 20, 2000)
    && d.category.Some? && d.category.value in Categories
    && BudgetBodyValid(d.budget)
    && OneOf(d.duration, Durations)
    && SkillsValid(d.skillsRequired)
  }

  /** The known keys of `jobSchemas.update` that a body carries. */
  predicate HasKnownJobKey(p: JobModel.JobPatch) {
    || p.title.Some? || p.description.Some? || p.category.Some?
    || p.budget.Some? || p.duration.Some? || p.skillsRequired.Some?
  }

  /** `jobSchemas.update`: every key optional with the bounds of create, and
      at least one known key (`.min(1)`, counted after unknown keys are
      stripped). */
  predicate JobUpdateValid(p: JobModel.JobPatch) {
    && OptionalString(p.title, 5, 100)
    && OptionalString(p.description, 20, 2000)
    && OneOf(p.category, Categories)
    && BudgetBodyValid(p.budget)
    && OneOf(p.duration, Durations)
    && SkillsValid(p.skillsRequired)
    && HasKnownJobKey(p)
  }

  /** What the create schema's title rule would be with the library's
      `.trim()`: length is judged after trimming. */
  predicate JobCreateValidTrimmed(d: JobModel.JobDraft) {
    && JobCreateValid(d)
    && 5 <= |Trim(d.title.value)|
  }

  /** The content fields of a body the create schema accepts meet the Job
      document's constraints, provided the title is not all whitespace: the
      title keeps at most 100 characters after trimming, the description
      and the enumerations agree, the budget bounds are the same. */
  lemma JobCreateSatisfiesModel(d: JobModel.JobDraft, client: Id)
    requires JobCreateValid(d)
    requires exists i :: 0 <= i < |d.title.value| && !IsSpace(d.title.value[i])
    ensures JobModel.ContentValid(JobModel.Build(d, client))
    ensures d.status.None? || JobModel.StatusValid(d.status.value) ==> JobModel.Create(d, client).Some?
  {
    EnumerationsAgree();
    TrimEmptyIffBlank(d.title.value);
    assert JobModel.ContentValid(JobModel.Build(d, client));
    JobModel.CreateSucceeds(d, client);
  }

  /** As written, the create schema accepts a title of five spaces; the
      document's `trim` setter turns it into the empty string, which the
      required-field validator refuses, so `Job.create` fails. */
  lemma BlankTitlePassesJobCreate(client: Id)
    ensures var d := JobModel.JobDraft(Some("     "), Some("a description of twenty"), Some("design"),
                                       None, None, None, None, None, None);
      JobCreateValid(d) && JobModel.Create(d, client).None?
  {
    var t := "     ";
    assert forall i :: 0 <= i < |t| ==> IsSpace(t[i]);
    TrimEmptyIffBlank(t);
  }

  /** With the title trimmed before it is measured, every body the create
      schema accepts, and that carries no invalid status, is stored. */
  lemma TrimmedJobCreateSatisfiesModel(d: JobModel.JobDraft, client: Id)
    requires JobCreateValidTrimmed(d)
    ensures JobModel.ContentValid(JobModel.Build(d, client))
    ensures d.status.None? || JobModel.StatusValid(d.status.value) ==> JobModel.Create(d, client).Some?
  {
    EnumerationsAgree();
    assert JobModel.ContentValid(JobModel.Build(d, client));
    JobModel.CreateSucceeds(d, client);
  }

  /** A body the update schema accepts passes the document's update
      validators, again provided the title is not all whitespace and any
      status it smuggles in is a valid one. */
  lemma JobUpdateSatisfiesModel(p: JobModel.JobPatch)
    requires JobUpdateValid(p)
    requires p.title.Some? ==> exists i :: 0 <= i < |p.title.value| && !IsSpace(p.title.value[i])
    requires p.status.Some? ==> JobModel.StatusValid(p.status.value)
    ensures JobModel.PatchValid(p)
  {
    if p.title.Some? {
      TrimEmptyIffBlank(p.title.value);
    }
  }

  /** A body holding only keys the update schema does not know is refused;
      one that adds a known key is accepted, the unknown keys still on board. */
  lemma UpdateSchemaNeedsKnownKey(p: JobModel.JobPatch, title: string)
    requires !HasKnownJobKey(p)
    requires 5 <= |title| <= 100
    ensures !JobUpdateValid(p)
    ensures JobUpdateValid(p.(title := Some(title)))
  {
  }

  /** `status`, `client`, `freelancer` and `bids` are not in the update
      schema: whatever the body says about them, the verdict is the same. */
  lemma UpdateSchemaIgnoresUnknownKeys(p: JobModel.JobPatch, status: Option<string>, client: Option<Id>,
                                       freelancer: Option<Option<Id>>, bids: Option<seq<Id>>)
    ensures JobUpdateValid(p.(status := status, client := client, freelancer := freelancer, bids := bids))
            <==> JobUpdateValid(p)
  {
  }

  // ----------------------------------------------------------------- bids

  datatype BidBody = BidBody(amount: Option<int>, duration: Option<string>, message: Option<string>)

  /** `bidSchemas.create`. */
  predicate BidCreateValid(b: BidBody) {
    && b.amount.Some? && b.amount.value >= 0
    && b.duration.Some? && b.duration.value in Durations
    && OptionalString(b.message, 0, 500)
  }

  /** `bidSchemas.update`: a decision, never "pending". */
  predicate BidUpdateValid(status: Option<string>) {
    status.Some? && status.value in BidDecisions
  }

  /** A bid body the create schema accepts, filed by a freelancer on a job,
      is a valid Bid document, and it starts out pending. */
  lemma BidCreateSatisfiesModel(b: BidBody, job: Id, freelancer: Id)
    requires BidCreateValid(b)
    ensures var r := BidModel.Create(BidModel.BidDraft(Some(job), Some(freelancer), b.amount, b.duration, b.message, None));
      r.Some? && r.value.status == "pending"
  {
  }

  /** The update schema admits exactly the two decisions, both valid bid
      statuses, and never resets a bid to "pending". */
  lemma BidUpdateNeverPending(status: Option<string>)
    ensures BidUpdateValid(status) <==> status == Some("accepted") || status == Some("rejected")
    ensures BidUpdateValid(status) ==> status.value in BidModel.Statuses && status.value != "pending"
  {
  }

  // -------------------------------------------------------------- ratings

  datatype RatingBody = RatingBody(
    rating: Option<real>,
    feedback: Option<string>,
    quality: Option<real>,
    communication: Option<real>,
    professionalism: Option<real>)

  predicate ScoreValid(x: Option<real>) { x.Some? ==> 1.0 <= x.value <= 5.0 }

  /** `ratingSchemas.create`. */
  predicate RatingCreateValid(b: RatingBody) {
    && b.rating.Some? && ScoreValid(b.rating)
    && OptionalString(b.feedback, 0, 1000)
    && ScoreValid(b.quality)
    && ScoreValid(b.communication)
    && ScoreValid(b.professionalism)
  }

  /** A rating body the create schema accepts makes a valid Rating document. */
  lemma RatingCreateSatisfiesModel(b: RatingBody, job: Id, client: Id, freelancer: Id)
    requires RatingCreateValid(b)
    ensures RatingModel.FieldsValid(RatingModel.Rating(job, client, freelancer, b.rating.value, b.feedback,
                                                       b.quality, b.communication, b.professionalism))
  {
  }
}
