/** The rating recomputation of addReview: a left fold over the review list
    with the running-mean step `(current * index + rating) / (index + 1)`,
    starting at 0, and its agreement with the arithmetic mean. Ratings are
    exact reals. */
module Rating {
  import opened Types

  /** The sum of the ratings of `rs`. */
  function SumRatings(rs: seq<Review>): real {
    if rs == [] then 0.0 else SumRatings(rs[..|rs| - 1]) + rs[|rs| - 1].rating
  }

  /** The arithmetic mean of the ratings of `rs`, and 0 for no reviews. */
  function Mean(rs: seq<Review>): real {
    if rs == [] then 0.0 else SumRatings(rs) / (|rs| as real)
  }

  /** One step of the fold: the mean of the first `index` ratings, `current`,
      extended by one more rating. */
  function Step(current: real, review: Review, index: nat): real {
    (current * (index as real) + review.rating) / ((index + 1) as real)
  }

  /** The fold over `rs` resumed at position `i` with accumulator `acc`. */
  function ReduceFrom(rs: seq<Review>, i: nat, acc: real): real
    requires i <= |rs|
    decreases |rs| - i
  {
    if i == |rs| then acc else ReduceFrom(rs, i + 1, Step(acc, rs[i], i))
  }

  /** `reviews.reduce(step, 0)`: the rating addReview stores. */
  function RunningMean(rs: seq<Review>): real {
    ReduceFrom(rs, 0, 0.0)
  }

  /** Once the accumulator is the mean of the first `i` ratings, the rest of
      the fold ends at the mean of all of them. */
  lemma {:induction false} ReduceFromIsMean(rs: seq<Review>, i: nat, acc: real)
    requires i <= |rs|
    requires i == 0 ==> acc == 0.0
    requires acc * (i as real) == SumRatings(rs[..i])
    ensures ReduceFrom(rs, i, acc) == Mean(rs)
    decreases |rs| - i
  {
    if i == |rs| {
      assert rs[..i] == rs;
      if i > 0 {
        MulDiv(acc, i as real);
      }
    } else {
      var next := Step(acc, rs[i], i);
      var n := (i + 1) as real;
      assert next * n == acc * (i as real) + rs[i].rating;
      assert rs[..i + 1][..i] == rs[..i];
      ReduceFromIsMean(rs, i + 1, next);
    }
  }

  /** Multiplying by a non-zero `n` and dividing by it again is the identity. */
  lemma MulDiv(a: real, n: real)
    requires n != 0.0
    ensures (a * n) / n == a
  {
  }

  /** The running-mean fold computes the arithmetic mean exactly. */
  lemma RunningMeanIsMean(rs: seq<Review>)
    ensures RunningMean(rs) == Mean(rs)
  {
    assert rs[..0] == [];
    ReduceFromIsMean(rs, 0, 0.0);
  }

  /** Recomputing from the whole list and updating the old mean
      incrementally agree, in exact arithmetic. */
  lemma MeanAppend(rs: seq<Review>, review: Review)
    ensures Mean(rs + [review])
         == (Mean(rs) * (|rs| as real) + review.rating) / ((|rs| + 1) as real)
  {
    var all := rs + [review];
    assert all[..|all| - 1] == rs;
    if rs != [] {
      var n := |rs| as real;
      assert Mean(rs) * n == SumRatings(rs);
    }
  }

  /** Ratings within `[lo, hi]` sum to between `|rs| * lo` and `|rs| * hi`. */
  lemma {:induction false} SumRatingsBounds(rs: seq<Review>, lo: real, hi: real)
    requires forall k | 0 <= k < |rs| :: lo <= rs[k].rating <= hi
    ensures (|rs| as real) * lo <= SumRatings(rs) <= (|rs| as real) * hi
  {
    if rs != [] {
      var init := rs[..|rs| - 1];
      assert forall k | 0 <= k < |init| :: init[k] == rs[k];
      SumRatingsBounds(init, lo, hi);
    }
  }

  /** Ratings within `[lo, hi]` have their mean within `[lo, hi]`. */
  lemma MeanBounds(rs: seq<Review>, lo: real, hi: real)
    requires rs != []
    requires forall k | 0 <= k < |rs| :: lo <= rs[k].rating <= hi
    ensures lo <= Mean(rs) <= hi
  {
    SumRatingsBounds(rs, lo, hi);
    var n := |rs| as real;
    assert (n * lo) / n == lo && (n * hi) / n == hi;
  }

  /** The review addReview builds: given login, text and rating, dated
      `now`, not approved. */
  function NewReview(login: string, rating: real, text: string, now: Timestamp): (r: Review)
    ensures r.login == login && r.rating == rating && r.text == text
    ensures r.date == now && !r.isApproved
  {
    Review(login, now, text, rating, false)
  }

  /** The souvenir as addReview writes it back: `review` appended after the
      existing reviews and the rating recomputed over the whole list. */
  function WithReview(s: Souvenir, review: Review): (r: Souvenir)
    ensures r.reviews == s.reviews + [review]
    ensures r.rating == Mean(r.reviews)
    ensures r.(reviews := s.reviews, rating := s.rating) == s
  {
    var reviews := s.reviews + [review];
    RunningMeanIsMean(reviews);
    s.(reviews := reviews, rating := RunningMean(reviews))
  }
}
