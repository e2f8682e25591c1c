/** The Bid document (Freelance/models/Bid.js) and the bid collection, whose
    unique (job, freelancer) index makes it refuse a second bid by the same
    freelancer on the same job. */
module BidModel {
  import opened Base
  import JobModel

  const Statuses: seq<string> := ["pending", "accepted", "rejected"]
  const MessageMaxLength := 500

  datatype Bid = Bid(
    job: Id,
    freelancer: Id,
    amount: int,
    duration: string,
    message: Option<string>,
    status: string)

  /** The schema's validators. The durations are the same five values as the
      job's. `amount` and `duration` are required. */
  predicate FieldsValid(b: Bid) {
    && b.amount >= 0
    && b.duration in JobModel.Durations
    && (b.message.Some? ==> |b.message.value| <= MessageMaxLength)
    && b.status in Statuses
  }

  /** A creation body: every key may be missing. */
  datatype BidDraft = BidDraft(
    job: Option<Id>,
    freelancer: Option<Id>,
    amount: Option<int>,
    duration: Option<string>,
    message: Option<string>,
    status: Option<string>)

  /** The document Mongoose would validate: a missing required key fails
      validation (`Create` returns None); a missing status defaults to
      "pending". */
  function Create(d: BidDraft): (r: Option<Bid>)
    ensures r.Some? ==> FieldsValid(r.value)
    ensures r.Some? <==> d.job.Some? && d.freelancer.Some? && d.amount.Some? && d.duration.Some?
                         && FieldsValid(Bid(d.job.value, d.freelancer.value, d.amount.value, d.duration.value, d.message,
                                            if d.status.Some? then d.status.value else "pending"))
    ensures r.Some? ==> r.value.job == d.job.value && r.value.freelancer == d.freelancer.value
    ensures r.Some? ==> r.value.amount == d.amount.value && r.value.duration == d.duration.value
    ensures r.Some? ==> r.value.message == d.message
    ensures r.Some? ==> r.value.status == if d.status.Some? then d.status.value else "pending"
  {
    if d.job.None? || d.freelancer.None? || d.amount.None? || d.duration.None? then None
    else
      var b := Bid(d.job.value, d.freelancer.value, d.amount.value, d.duration.value, d.message,
                   if d.status.Some? then d.status.value else "pending");
      if FieldsValid(b) then Some(b) else None
  }

  /** The unique index: no two stored bids share a (job, freelancer) pair. */
  ghost predicate UniquePairs(bids: seq<Bid>) {
    forall i, k :: 0 <= i < k < |bids| ==> !(bids[i].job == bids[k].job && bids[i].freelancer == bids[k].freelancer)
  }

  /** The index lookup: does some stored bid already hold this pair? */
  function HasPair(bids: seq<Bid>, job: Id, freelancer: Id): (found: bool)
    ensures found <==> exists i :: 0 <= i < |bids| && bids[i].job == job && bids[i].freelancer == freelancer
  {
    if bids == [] then false
    else if bids[|bids| - 1].job == job && bids[|bids| - 1].freelancer == freelancer then true
    else HasPair(bids[..|bids| - 1], job, freelancer)
  }

  /** What saving a new bid does to the collection: validation runs first, then
      the index refuses a duplicate pair; only a bid that passes both is
      appended. */
  function InsertStep(bids: seq<Bid>, d: BidDraft): (r: (InsertResult, seq<Bid>))
    ensures r.0 == Inserted <==> Create(d).Some? && !HasPair(bids, d.job.value, d.freelancer.value)
    ensures r.0 == Invalid <==> Create(d).None?
    ensures r.0 == Duplicate <==> Create(d).Some? && HasPair(bids, d.job.value, d.freelancer.value)
    ensures r.0 == Inserted ==> r.1 == bids + [Create(d).value]
    ensures r.0 != Inserted ==> r.1 == bids
  {
    var b := Create(d);
    if b.None? then (Invalid, bids)
    else if HasPair(bids, b.value.job, b.value.freelancer) then (Duplicate, bids)
    else (Inserted, bids + [b.value])
  }

  /** Every insert keeps the stored bids valid and their pairs unique. */
  lemma InsertPreservesIndex(bids: seq<Bid>, d: BidDraft)
    requires UniquePairs(bids) && forall i :: 0 <= i < |bids| ==> FieldsValid(bids[i])
    ensures var bids' := InsertStep(bids, d).1;
      UniquePairs(bids') && forall i :: 0 <= i < |bids'| ==> FieldsValid(bids'[i])
  {
  }

  /** Two submissions of the same pair into a collection that does not hold
      it: the first is stored, the second is refused as a duplicate and leaves
      the collection as the first left it. */
  lemma SecondBidOnSamePairRefused(bids: seq<Bid>, d: BidDraft, d': BidDraft)
    requires Create(d).Some? && Create(d').Some?
    requires d'.job == d.job && d'.freelancer == d.freelancer
    requires !HasPair(bids, d.job.value, d.freelancer.value)
    ensures InsertStep(bids, d).0 == Inserted
    ensures InsertStep(InsertStep(bids, d).1, d').0 == Duplicate
    ensures InsertStep(InsertStep(bids, d).1, d').1 == bids + [Create(d).value]
  {
    var after := InsertStep(bids, d).1;
    assert after[|bids|].job == d.job.value && after[|bids|].freelancer == d.freelancer.value;
  }

  /** The bid collection, updated in place by each save. */
  class BidCollection {
    var bids: seq<Bid>

    ghost predicate Valid()
      reads this
    {
      UniquePairs(bids) && forall i :: 0 <= i < |bids| ==> FieldsValid(bids[i])
    }

    constructor ()
      ensures Valid() && bids == []
    {
      bids := [];
    }

    /** `new Bid(body).save()`: validate, consult the unique index, append. */
    method Insert(d: BidDraft) returns (res: InsertResult)
      requires Valid()
      modifies this
      ensures Valid()
      ensures (res, bids) == InsertStep(old(bids), d)
    {
      InsertPreservesIndex(bids, d);
      var b := Create(d);
      if b.None? {
        return Invalid;
      }
      if HasPair(bids, b.value.job, b.value.freelancer) {
        return Duplicate;
      }
      bids := bids + [b.value];
      res := Inserted;
    }
  }
}
