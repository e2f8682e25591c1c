/** The Rating document (Freelance/models/Rating.js), the rating collection
    with its one-rating-per-job index, and `calculateAverageRating`, which
    recomputes a freelancer's average and count from all of their ratings and
    writes them onto the user record. Scores are JavaScript numbers, so they
    are `real` here; the average is the exact mean. */
module RatingModel {
  import opened Base

  const FeedbackMaxLength := 1000

  datatype Rating = Rating(
    job: Id,
    client: Id,
    freelancer: Id,
    score: real,
    feedback: Option<string>,
    quality: Option<real>,
    communication: Option<real>,
    professionalism: Option<real>)

  predicate InScale(x: real) { 1.0 <= x <= 5.0 }

  predicate OptionalInScale(x: Option<real>) { x.Some? ==> InScale(x.value) }

  /** The schema's validators: the required score and the optional detailed
      scores lie in [1, 5], feedback is at most 1000 characters. */
  predicate FieldsValid(r: Rating) {
    && InScale(r.score)
    && (r.feedback.Some? ==> |r.feedback.value| <= FeedbackMaxLength)
    && OptionalInScale(r.quality)
    && OptionalInScale(r.communication)
    && OptionalInScale(r.professionalism)
  }

  /** The `rating` sub-record of a user. */
  datatype Summary = Summary(average: real, count: nat)

  /** The `$match` stage: the indices of the ratings given to `f`. */
  ghost function MatchIndices(ratings: seq<Rating>, f: Id): set<nat> {
    set i: nat | i < |ratings| && ratings[i].freelancer == f
  }

  /** The `$group` stage as a fold: the sum of `f`'s scores and how many
      there are. */
  function Tally(ratings: seq<Rating>, f: Id): (t: (real, nat))
    ensures t.1 <= |ratings|
  {
    if ratings == [] then (0.0, 0)
    else
      var last := ratings[|ratings| - 1];
      var t := Tally(ratings[..|ratings| - 1], f);
      if last.freelancer == f then (t.0 + last.score, t.1 + 1) else t
  }

  /** The values written back: the mean and the count, or 0 and 0 when `f`
      has no ratings (the aggregation then returns no group). */
  function Aggregate(ratings: seq<Rating>, f: Id): (s: Summary)
    ensures s.count == Tally(ratings, f).1
    ensures s.count == 0 ==> s == Summary(0.0, 0)
    ensures s.count > 0 ==> s.average * s.count as real == Tally(ratings, f).0
  {
    var t := Tally(ratings, f);
    if t.1 > 0 then Summary(t.0 / t.1 as real, t.1) else Summary(0.0, 0)
  }

  /** The count the fold produces is the number of ratings given to `f`. */
  lemma {:induction false} TallyCountsMatches(ratings: seq<Rating>, f: Id)
    ensures Tally(ratings, f).1 == |MatchIndices(ratings, f)|
  {
    if ratings != [] {
      var n := |ratings| - 1;
      var init := ratings[..n];
      TallyCountsMatches(init, f);
      var before := MatchIndices(init, f);
      assert n !in before;
      if ratings[n].freelancer == f {
        assert MatchIndices(ratings, f) == before + {n};
      } else {
        assert MatchIndices(ratings, f) == before;
      }
    }
  }

  /** The scores of the ratings given to `f`, in stored order: the
      `$match` stage followed by a projection on `score`. */
  ghost function MatchedScores(ratings: seq<Rating>, f: Id): seq<real> {
    if ratings == [] then []
    else (if ratings[0].freelancer == f then [ratings[0].score] else []) + MatchedScores(ratings[1..], f)
  }

  ghost function Sum(xs: seq<real>): real {
    if xs == [] then 0.0 else xs[0] + Sum(xs[1..])
  }

  /** The fold computes exactly what `$group` with `$avg` and `$sum: 1`
      needs: the sum of `f`'s scores and how many there are. */
  lemma {:induction false} TallyIsSumOfMatches(ratings: seq<Rating>, f: Id)
    ensures Tally(ratings, f) == (Sum(MatchedScores(ratings, f)), |MatchedScores(ratings, f)|)
  {
    if ratings != [] {
      var n := |ratings| - 1;
      var init := ratings[..n];
      var last := ratings[n];
      assert ratings == init + [last];
      TallyIsSumOfMatches(init, f);
      MatchedScoresSnoc(init, last, f);
      var tail := if last.freelancer == f then [last.score] else [];
      SumAppend(MatchedScores(init, f), tail);
      assert Sum(tail) == if last.freelancer == f then last.score else 0.0;
    }
  }

  lemma {:induction false} MatchedScoresSnoc(ratings: seq<Rating>, x: Rating, f: Id)
    ensures MatchedScores(ratings + [x], f)
      == MatchedScores(ratings, f) + (if x.freelancer == f then [x.score] else [])
  {
    if ratings == [] {
      assert [x][1..] == [];
    } else {
      assert (ratings + [x])[1..] == ratings[1..] + [x];
      MatchedScoresSnoc(ratings[1..], x, f);
    }
  }

  lemma {:induction false} SumAppend(xs: seq<real>, ys: seq<real>)
    ensures Sum(xs + ys) == Sum(xs) + Sum(ys)
  {
    if xs == [] {
      assert xs + ys == ys;
    } else {
      assert (xs + ys)[1..] == xs[1..] + ys;
      SumAppend(xs[1..], ys);
    }
  }

  /** When every stored score is in [1, 5], the sum of `f`'s scores lies
      between count and 5 * count. */
  lemma {:induction false} TallyBounds(ratings: seq<Rating>, f: Id)
    requires forall i :: 0 <= i < |ratings| ==> InScale(ratings[i].score)
    ensures var t := Tally(ratings, f); t.1 as real <= t.0 <= 5.0 * t.1 as real
  {
    if ratings != [] {
      TallyBounds(ratings[..|ratings| - 1], f);
    }
  }

  /** A freelancer with at least one valid rating has an average in [1, 5]. */
  lemma AverageInScale(ratings: seq<Rating>, f: Id)
    requires forall i :: 0 <= i < |ratings| ==> FieldsValid(ratings[i])
    requires Aggregate(ratings, f).count > 0
    ensures InScale(Aggregate(ratings, f).average)
  {
    TallyBounds(ratings, f);
    var t := Tally(ratings, f);
    MeanInScale(t.0, t.1 as real);
  }

  /** A sum of scores between c and 5c, divided by c, lies in [1, 5]. */
  lemma MeanInScale(sum: real, c: real)
    requires c > 0.0 && c <= sum <= 5.0 * c
    ensures InScale(sum / c)
  {
    var m := sum / c;
    assert m * c == sum;
    NonNegativeFactor(m - 1.0, c);
    NonNegativeFactor(5.0 - m, c);
  }

  lemma NonNegativeFactor(x: real, c: real)
    requires c > 0.0 && x * c >= 0.0
    ensures x >= 0.0
  {
  }

  /** A rating given to someone else does not move `f`'s summary. */
  lemma OtherRatingsDoNotMatter(ratings: seq<Rating>, r: Rating, f: Id)
    requires r.freelancer != f
    ensures Aggregate(ratings + [r], f) == Aggregate(ratings, f)
  {
    assert (ratings + [r])[..|ratings|] == ratings;
  }

  /** A new rating for `f` adds one to the count and its score to the sum. */
  lemma NewRatingCounts(ratings: seq<Rating>, r: Rating)
    ensures Tally(ratings + [r], r.freelancer) == (Tally(ratings, r.freelancer).0 + r.score, Tally(ratings, r.freelancer).1 + 1)
  {
    assert (ratings + [r])[..|ratings|] == ratings;
  }

  /** Scores 5, 5 and 4 give a count of 3 and an average of 14/3. */
  lemma ThreeRatingsExample(f: Id)
    ensures Aggregate([Rating(1, 9, f, 5.0, None, None, None, None),
                       Rating(2, 9, f, 5.0, None, None, None, None),
                       Rating(3, 9, f, 4.0, None, None, None, None)], f) == Summary(14.0 / 3.0, 3)
  {
    var a := Rating(1, 9, f, 5.0, None, None, None, None);
    var b := Rating(2, 9, f, 5.0, None, None, None, None);
    var c := Rating(3, 9, f, 4.0, None, None, None, None);
    assert [a][..0] == [];
    assert Tally([a], f) == (5.0, 1);
    assert [a, b][..1] == [a];
    assert Tally([a, b], f) == (10.0, 2);
    assert [a, b, c][..2] == [a, b];
    assert Tally([a, b, c], f) == (14.0, 3);
  }

  /** The job index is unique: at most one rating per job. */
  ghost predicate OnePerJob(ratings: seq<Rating>) {
    forall i, k :: 0 <= i < k < |ratings| ==> ratings[i].job != ratings[k].job
  }

  function HasJob(ratings: seq<Rating>, job: Id): (found: bool)
    ensures found <==> exists i :: 0 <= i < |ratings| && ratings[i].job == job
  {
    if ratings == [] then false
    else ratings[|ratings| - 1].job == job || HasJob(ratings[..|ratings| - 1], job)
  }

  /** Saving a rating: validation, then the unique job index. */
  function InsertStep(ratings: seq<Rating>, r: Rating): (res: (InsertResult, seq<Rating>))
    ensures res.0 == Inserted <==> FieldsValid(r) && !HasJob(ratings, r.job)
    ensures res.0 == Invalid <==> !FieldsValid(r)
    ensures res.0 == Duplicate <==> FieldsValid(r) && HasJob(ratings, r.job)
    ensures res.0 == Inserted ==> res.1 == ratings + [r]
    ensures res.0 != Inserted ==> res.1 == ratings
    ensures OnePerJob(ratings) ==> OnePerJob(res.1)
  {
    if !FieldsValid(r) then (Invalid, ratings)
    else if HasJob(ratings, r.job) then (Duplicate, ratings)
    else (Inserted, ratings + [r])
  }

  /** The ratings collection and the users' rating summaries. A user absent
      from `summaries` does not exist, and updating it is a no-op. */
  class RatingCollection {
    var ratings: seq<Rating>
    var summaries: map<Id, Summary>

    ghost predicate Valid()
      reads this
    {
      OnePerJob(ratings) && forall i :: 0 <= i < |ratings| ==> FieldsValid(ratings[i])
    }

    constructor (users: map<Id, Summary>)
      ensures Valid() && ratings == [] && summaries == users
    {
      ratings := [];
      summaries := users;
    }

    method Insert(r: Rating) returns (res: InsertResult)
      requires Valid()
      modifies this
      ensures Valid()
      ensures (res, ratings) == InsertStep(old(ratings), r)
      ensures summaries == old(summaries)
    {
      if !FieldsValid(r) {
        return Invalid;
      }
      if HasJob(ratings, r.job) {
        return Duplicate;
      }
      ratings := ratings + [r];
      res := Inserted;
    }

    /** `calculateAverageRating(f)`: overwrite `f`'s summary with the
        recomputed one; nothing else changes. Running it again without a new
        rating writes the same values. */
    method CalculateAverageRating(f: Id)
      requires Valid()
      modifies this
      ensures Valid() && ratings == old(ratings)
      ensures f in old(summaries) ==> summaries == old(summaries)[f := Aggregate(ratings, f)]
      ensures f !in old(summaries) ==> summaries == old(summaries)
      ensures f in summaries && summaries[f].count > 0 ==> InScale(summaries[f].average)
      ensures f in summaries ==> summaries[f].count == |MatchIndices(ratings, f)|
    {
      var s := Aggregate(ratings, f);
      if f in summaries {
        summaries := summaries[f := s];
        TallyCountsMatches(ratings, f);
        if s.count > 0 {
          AverageInScale(ratings, f);
        }
      }
    }
  }
}
