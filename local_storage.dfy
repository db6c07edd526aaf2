/**
 * The browser-storage service: two collections, the food stalls and the
 * reviews, each kept whole under its own key; first-run seeding; appending
 * stalls and reviews with clock-derived identifiers; lookups; and the
 * recomputation of a stall's rating as the mean of its reviews whenever a
 * review is added.
 *
 * The pure part states each query and each change of the stored keys as a
 * function of a `Storage` value; the class `LocalStorageService` holds the
 * two keys as fields and its methods are proved to perform exactly those
 * changes.
 */
module LocalStorage {
  import opened Wrappers
  import opened Text
  import opened Types

  /** The fixed signed-in user every review is written by. */
  datatype User = User(id: string, name: string)

  const CurrentUser := User("1", "Demo User")

  /**
   * What the key-value store holds under the keys "foodStalls" and
   * "reviews". `None` is a key that was never written.
   */
  datatype Storage = Storage(stalls: Option<seq<FoodStall>>, reviews: Option<seq<Review>>)

  // ---------------------------------------------------------------------
  // Reading the collections

  /** `getAllStalls`: the stored stalls, or none at all when the key is absent. */
  function AllStalls(st: Storage): (r: seq<FoodStall>)
    ensures st.stalls.None? ==> r == []
    ensures st.stalls.Some? ==> r == st.stalls.value
  {
    st.stalls.GetOr([])
  }

  /** `getAllReviews`: the stored reviews, or none at all when the key is absent. */
  function AllReviews(st: Storage): (r: seq<Review>)
    ensures st.reviews.None? ==> r == []
    ensures st.reviews.Some? ==> r == st.reviews.value
  {
    st.reviews.GetOr([])
  }

  /**
   * `Date.now().toString()`: the identifier drawn from a clock reading, a
   * string of decimal digits that reads back as that reading.
   */
  function NewId(now: Time): (r: string)
    ensures r != [] && AllDigits(r)
    ensures DecimalValue(r) == now
  {
    DecimalRoundTrip(now);
    NatToDecimal(now)
  }

  // ---------------------------------------------------------------------
  // Queries

  /** `findIndex(s => s.id === id)`: the first position holding that id, or -1. */
  function FindStallIndex(stalls: seq<FoodStall>, id: string): (i: int)
    ensures -1 <= i < |stalls|
    ensures i == -1 <==> forall j :: 0 <= j < |stalls| ==> stalls[j].id != id
    ensures 0 <= i ==> stalls[i].id == id && forall j :: 0 <= j < i ==> stalls[j].id != id
  {
    if stalls == [] then -1
    else if stalls[0].id == id then 0
    else
      var k := FindStallIndex(stalls[1..], id);
      if k == -1 then -1 else k + 1
  }

  /** `getStallById`: the first stall with that id, or nothing when none has it. */
  function StallById(stalls: seq<FoodStall>, id: string): (r: Option<FoodStall>)
    ensures r.None? <==> forall j :: 0 <= j < |stalls| ==> stalls[j].id != id
    ensures r.Some? ==> exists i :: 0 <= i < |stalls| && stalls[i] == r.value && r.value.id == id &&
                                    forall j :: 0 <= j < i ==> stalls[j].id != id
  {
    var i := FindStallIndex(stalls, id);
    if i < 0 then None else Some(stalls[i])
  }

  /**
   * `filter(review => review.stallId === stallId)`: exactly the reviews of
   * that stall, each as often as it is stored.
   */
  function ReviewsFor(reviews: seq<Review>, stallId: string): (r: seq<Review>)
    ensures |r| <= |reviews|
    ensures forall k :: 0 <= k < |r| ==> r[k].stallId == stallId
  {
    if reviews == [] then []
    else
      var last := reviews[|reviews| - 1];
      ReviewsFor(reviews[..|reviews| - 1], stallId) + (if last.stallId == stallId then [last] else [])
  }

  /** The filter keeps each review of that stall exactly as often as it is stored, and no other. */
  lemma {:induction false} ReviewsForCounts(reviews: seq<Review>, stallId: string, x: Review)
    ensures multiset(ReviewsFor(reviews, stallId))[x] ==
            if x.stallId == stallId then multiset(reviews)[x] else 0
    ensures x in ReviewsFor(reviews, stallId) <==> x in reviews && x.stallId == stallId
  {
    if reviews != [] {
      var init := reviews[..|reviews| - 1];
      assert reviews == init + [reviews[|reviews| - 1]];
      ReviewsForCounts(init, stallId, x);
    }
  }

  /** The filter keeps exactly the stored reviews of that stall. */
  lemma ReviewsForMembers(reviews: seq<Review>, stallId: string)
    ensures forall x :: x in ReviewsFor(reviews, stallId) <==> x in reviews && x.stallId == stallId
  {
    forall x | true
      ensures x in ReviewsFor(reviews, stallId) <==> x in reviews && x.stallId == stallId
    {
      ReviewsForCounts(reviews, stallId, x);
    }
  }

  /** A stall none of whose reviews is stored has no reviews. */
  lemma {:induction false} ReviewsForNone(reviews: seq<Review>, stallId: string)
    requires forall k :: 0 <= k < |reviews| ==> reviews[k].stallId != stallId
    ensures ReviewsFor(reviews, stallId) == []
  {
    if reviews != [] {
      ReviewsForNone(reviews[..|reviews| - 1], stallId);
    }
  }

  /** Filtering distributes over concatenation, so stored order is kept. */
  lemma {:induction false} ReviewsForAppend(a: seq<Review>, b: seq<Review>, stallId: string)
    ensures ReviewsFor(a + b, stallId) == ReviewsFor(a, stallId) + ReviewsFor(b, stallId)
    decreases |b|
  {
    if b != [] {
      var b' := b[..|b| - 1];
      var last := b[|b| - 1];
      assert (a + b)[..|a + b| - 1] == a + b';
      assert (a + b)[|a + b| - 1] == last;
      ReviewsForAppend(a, b', stallId);
      var tail := if last.stallId == stallId then [last] else [];
      calc {
        ReviewsFor(a + b, stallId);
        ReviewsFor(a + b', stallId) + tail;
        (ReviewsFor(a, stallId) + ReviewsFor(b', stallId)) + tail;
        ReviewsFor(a, stallId) + (ReviewsFor(b', stallId) + tail);
        ReviewsFor(a, stallId) + ReviewsFor(b, stallId);
      }
    } else {
      assert a + b == a;
    }
  }

  /** Adding a review of another stall does not change this stall's reviews. */
  lemma ReviewsForOther(reviews: seq<Review>, added: Review, stallId: string)
    requires added.stallId != stallId
    ensures ReviewsFor(reviews + [added], stallId) == ReviewsFor(reviews, stallId)
  {
    assert (reviews + [added])[..|reviews|] == reviews;
  }

  /** Adding a review of this stall appends it to this stall's reviews. */
  lemma ReviewsForSame(reviews: seq<Review>, added: Review)
    ensures ReviewsFor(reviews + [added], added.stallId) == ReviewsFor(reviews, added.stallId) + [added]
  {
    assert (reviews + [added])[..|reviews|] == reviews;
  }

  // ---------------------------------------------------------------------
  // The rating aggregate

  /** `reduce((acc, r) => acc + r.rating, 0)`. */
  function RatingSum(reviews: seq<Review>): int {
    if reviews == [] then 0 else RatingSum(reviews[..|reviews| - 1]) + reviews[|reviews| - 1].rating
  }

  /** The sum over stored reviews adds up part by part, whatever the split. */
  lemma {:induction false} RatingSumAppend(a: seq<Review>, b: seq<Review>)
    ensures RatingSum(a + b) == RatingSum(a) + RatingSum(b)
    decreases |b|
  {
    if b != [] {
      var b' := b[..|b| - 1];
      assert (a + b)[..|a + b| - 1] == a + b';
      assert (a + b)[|a + b| - 1] == b[|b| - 1];
      RatingSumAppend(a, b');
    } else {
      assert a + b == a;
    }
  }

  /** The arithmetic mean of the reviews' ratings. */
  function MeanRating(reviews: seq<Review>): real
    requires |reviews| > 0
  {
    RatingSum(reviews) as real / |reviews| as real
  }

  /** The mean is the value that, counted once per review, gives their sum. */
  lemma MeanTimesCount(reviews: seq<Review>)
    requires |reviews| > 0
    ensures MeanRating(reviews) * |reviews| as real == RatingSum(reviews) as real
  {
  }

  /** Every rating lies in `[lo, hi]`, so their sum lies in `[lo * n, hi * n]`. */
  lemma {:induction false} RatingSumBounds(reviews: seq<Review>, lo: int, hi: int)
    requires forall k :: 0 <= k < |reviews| ==> lo <= reviews[k].rating <= hi
    ensures lo * |reviews| <= RatingSum(reviews) <= hi * |reviews|
  {
    if reviews != [] {
      RatingSumBounds(reviews[..|reviews| - 1], lo, hi);
    }
  }

  /** The mean of ratings that all lie in `[lo, hi]` lies in `[lo, hi]` too. */
  lemma MeanRatingBounds(reviews: seq<Review>, lo: int, hi: int)
    requires |reviews| > 0
    requires forall k :: 0 <= k < |reviews| ==> lo <= reviews[k].rating <= hi
    ensures lo as real <= MeanRating(reviews) <= hi as real
  {
    RatingSumBounds(reviews, lo, hi);
    ProductAsReal(lo, |reviews|);
    ProductAsReal(hi, |reviews|);
    QuotientBounds(RatingSum(reviews) as real, |reviews| as real, lo as real, hi as real);
  }

  lemma ProductAsReal(a: int, b: int)
    ensures (a * b) as real == a as real * b as real
  {
  }

  lemma QuotientBounds(x: real, n: real, lo: real, hi: real)
    requires n > 0.0 && lo * n <= x <= hi * n
    ensures lo <= x / n <= hi
  {
    assert x / n - lo == (x - lo * n) / n;
    assert hi - x / n == (hi * n - x) / n;
  }

  /**
   * The stalls after `addReview` stored `added` on top of the reviews
   * `before`: `None` when no stall has the review's `stallId`, so the stall
   * key is not written; otherwise the first stall with that id gets as its
   * rating the mean over all its reviews, the new one included.
   */
  function Rerate(stalls: seq<FoodStall>, before: seq<Review>, added: Review): (r: Option<seq<FoodStall>>)
    ensures r.None? <==> FindStallIndex(stalls, added.stallId) == -1
    ensures r.Some? ==>
      var i := FindStallIndex(stalls, added.stallId);
      var matching := ReviewsFor(before + [added], added.stallId);
      |matching| >= 1 && |r.value| == |stalls| &&
      r.value[i] == stalls[i].(rating := Some(MeanRating(matching))) &&
      forall j :: 0 <= j < |stalls| && j != i ==> r.value[j] == stalls[j]
  {
    var i := FindStallIndex(stalls, added.stallId);
    if i == -1 then None
    else
      var matching := ReviewsFor(before + [added], added.stallId);
      ReviewsForSame(before, added);
      Some(stalls[i := stalls[i].(rating := Some(MeanRating(matching)))])
  }

  /**
   * The new rating is the running mean: the old sum of that stall's ratings
   * plus the new one, over the old count plus one.
   */
  lemma RerateIsIncrementalMean(stalls: seq<FoodStall>, before: seq<Review>, added: Review)
    requires FindStallIndex(stalls, added.stallId) != -1
    ensures var i, prior := FindStallIndex(stalls, added.stallId), ReviewsFor(before, added.stallId);
      Rerate(stalls, before, added).value[i].rating ==
        Some((RatingSum(prior) + added.rating) as real / (|prior| + 1) as real)
  {
    var prior := ReviewsFor(before, added.stallId);
    ReviewsForSame(before, added);
    assert (prior + [added])[..|prior|] == prior;
  }

  /** The first review of a stall replaces any seeded rating by its own rating. */
  lemma FirstReviewSetsRating(stalls: seq<FoodStall>, before: seq<Review>, added: Review)
    requires FindStallIndex(stalls, added.stallId) != -1
    requires forall k :: 0 <= k < |before| ==> before[k].stallId != added.stallId
    ensures Rerate(stalls, before, added).value[FindStallIndex(stalls, added.stallId)].rating ==
            Some(added.rating as real)
  {
    ReviewsForNone(before, added.stallId);
    ReviewsForSame(before, added);
    var matching := ReviewsFor(before + [added], added.stallId);
    assert matching == [added];
    assert RatingSum(matching) == added.rating by {
      assert matching[..0] == [];
    }
    assert MeanRating(matching) == added.rating as real / 1.0;
  }

  /** Two reviews rated 4 and 5 give the stall a rating of 4.5. */
  lemma TwoReviewsAverage(stalls: seq<FoodStall>, r4: Review, r5: Review)
    requires FindStallIndex(stalls, r4.stallId) != -1
    requires r4.stallId == r5.stallId && r4.rating == 4 && r5.rating == 5
    ensures var i := FindStallIndex(stalls, r4.stallId);
      Rerate(Rerate(stalls, [], r4).value, [r4], r5).value[i].rating == Some(4.5)
  {
    var i := FindStallIndex(stalls, r4.stallId);
    var once := Rerate(stalls, [], r4).value;
    FindIgnoresRatings(stalls, once, r4.stallId);
    assert FindStallIndex(once, r5.stallId) == i;
    ReviewsForSame([], r4);
    assert [] + [r4] == [r4];
    var prior := ReviewsFor([r4], r5.stallId);
    assert prior == [r4];
    assert |prior| == 1;
    assert RatingSum(prior) == 4 by {
      assert prior[..0] == [];
    }
    RerateIsIncrementalMean(once, [r4], r5);
    assert Rerate(once, [r4], r5).value[i].rating == Some(9 as real / 2 as real);
  }

  /** Changing only ratings never changes which stall a lookup finds. */
  lemma {:induction false} FindIgnoresRatings(a: seq<FoodStall>, b: seq<FoodStall>, id: string)
    requires |a| == |b| && forall j :: 0 <= j < |a| ==> a[j].id == b[j].id
    ensures FindStallIndex(a, id) == FindStallIndex(b, id)
  {
    if a != [] {
      FindIgnoresRatings(a[1..], b[1..], id);
    }
  }

  // ---------------------------------------------------------------------
  // Lookup after appending

  /** Where the first stall with an id sits once one more stall is appended. */
  lemma {:induction false} FindAfterAppend(stalls: seq<FoodStall>, s: FoodStall, id: string)
    ensures FindStallIndex(stalls + [s], id) ==
      if FindStallIndex(stalls, id) != -1 then FindStallIndex(stalls, id)
      else if s.id == id then |stalls| else -1
  {
    if stalls != [] {
      assert (stalls + [s])[1..] == stalls[1..] + [s];
      FindAfterAppend(stalls[1..], s, id);
    }
  }

  /**
   * Looking up the id of a stall just appended finds that stall exactly
   * when no earlier stall carries the same id; otherwise the earlier one.
   */
  lemma LookupAfterAppend(stalls: seq<FoodStall>, s: FoodStall)
    ensures (forall j :: 0 <= j < |stalls| ==> stalls[j].id != s.id) ==>
            StallById(stalls + [s], s.id) == Some(s)
    ensures (exists j :: 0 <= j < |stalls| && stalls[j].id == s.id) ==>
            StallById(stalls + [s], s.id) == StallById(stalls, s.id)
  {
    FindAfterAppend(stalls, s, s.id);
  }

  // ---------------------------------------------------------------------
  // Seeding

  function JoesStreetTacos(t: Time): StallData {
    StallData("Joe's Street Tacos", "Downtown",
              "Authentic Mexican street tacos with homemade salsas", "Al Pastor Tacos", 8.0,
              "https://images.unsplash.com/photo-1613514785940-daed07799d9b?w=800",
              Some(4.5), t, t)
  }

  function MeisDumplings(t: Time): StallData {
    StallData("Mei's Dumplings", "Chinatown",
              "Handmade dumplings and noodles, family recipes", "Xiaolongbao", 12.0,
              "https://images.unsplash.com/photo-1563245372-f21724e3856d?w=800",
              Some(4.8), t, t)
  }

  function CurryExpress(t: Time): StallData {
    StallData("Curry Express", "Little India",
              "Quick and delicious Indian street food", "Butter Chicken", 10.0,
              "https://images.unsplash.com/photo-1585937421612-70a008356fbe?w=800",
              Some(4.2), t, t)
  }

  /** The three example stalls, each stamped with the clock reading of its own `addStall`. */
  function SeedStalls(t1: Time, t2: Time, t3: Time): seq<FoodStall> {
    [StallWithId(JoesStreetTacos(t1), NewId(t1)),
     StallWithId(MeisDumplings(t2), NewId(t2)),
     StallWithId(CurryExpress(t3), NewId(t3))]
  }

  /**
   * The constructor: write an empty collection under each absent key, then
   * seed the stalls if there are none. `t1`, `t2`, `t3` are the clock at
   * the three seeding `addStall` calls.
   */
  function Initialize(st: Storage, t1: Time, t2: Time, t3: Time): Storage {
    var stalls := AllStalls(st);
    Storage(Some(if stalls == [] then SeedStalls(t1, t2, t3) else stalls), Some(AllReviews(st)))
  }

  /**
   * The constructor writes every absent key, keeps the reviews, keeps a
   * non-empty stall collection and seeds an empty one.
   */
  lemma InitializeEffect(st: Storage, t1: Time, t2: Time, t3: Time)
    ensures Initialize(st, t1, t2, t3).reviews == Some(AllReviews(st))
    ensures AllStalls(st) != [] ==> Initialize(st, t1, t2, t3).stalls == st.stalls
    ensures AllStalls(st) == [] ==> Initialize(st, t1, t2, t3).stalls == Some(SeedStalls(t1, t2, t3))
  {
    if AllStalls(st) != [] {
      assert st.stalls == Some(AllStalls(st));
    }
  }

  /** The seed is the three example stalls, in order, with their ratings. */
  lemma SeedContents(t1: Time, t2: Time, t3: Time)
    ensures var s := SeedStalls(t1, t2, t3);
      |s| == 3 &&
      s[0].name == "Joe's Street Tacos" && s[0].location == "Downtown" &&
      s[0].mustTryDish == "Al Pastor Tacos" && s[0].approximatePrice == 8.0 && s[0].rating == Some(4.5) &&
      s[1].name == "Mei's Dumplings" && s[1].location == "Chinatown" &&
      s[1].mustTryDish == "Xiaolongbao" && s[1].approximatePrice == 12.0 && s[1].rating == Some(4.8) &&
      s[2].name == "Curry Express" && s[2].location == "Little India" &&
      s[2].mustTryDish == "Butter Chicken" && s[2].approximatePrice == 10.0 && s[2].rating == Some(4.2)
  {
  }

  /** Initialising an initialised store changes nothing, whatever the clock reads. */
  lemma InitializeIdempotent(st: Storage, t1: Time, t2: Time, t3: Time, u1: Time, u2: Time, u3: Time)
    ensures Initialize(Initialize(st, t1, t2, t3), u1, u2, u3) == Initialize(st, t1, t2, t3)
  {
    var once := Initialize(st, t1, t2, t3);
    assert AllStalls(once) != [] by {
      if AllStalls(st) == [] {
        assert |SeedStalls(t1, t2, t3)| == 3;
      }
    }
  }

  /**
   * Seeding stamps identifiers from the clock, so it gives no uniqueness:
   * seeded on distinct ticks each example stall is found by its own id,
   * but when the first two share a tick the second cannot be found by id.
   */
  lemma SeedLookup(t1: Time, t2: Time, t3: Time)
    ensures t1 != t2 && t1 != t3 && t2 != t3 ==>
      forall k :: 0 <= k < 3 ==> StallById(SeedStalls(t1, t2, t3), SeedStalls(t1, t2, t3)[k].id) ==
                                   Some(SeedStalls(t1, t2, t3)[k])
    ensures t1 == t2 ==>
      StallById(SeedStalls(t1, t2, t3), NewId(t2)) == Some(SeedStalls(t1, t2, t3)[0])
  {
    if t1 != t2 && t1 != t3 && t2 != t3 {
      if NewId(t1) == NewId(t2) { NatToDecimalInjective(t1, t2); }
      if NewId(t1) == NewId(t3) { NatToDecimalInjective(t1, t3); }
      if NewId(t2) == NewId(t3) { NatToDecimalInjective(t2, t3); }
    }
  }

  // ---------------------------------------------------------------------
  // The change `addReview` makes to the store

  /**
   * Both writes of `addReview(added)`: the review appended under its key,
   * then, if a stall has its `stallId`, the rerated stalls written back.
   */
  function WithReview(st: Storage, added: Review): (r: Storage)
    ensures r.reviews == Some(AllReviews(st) + [added])
    ensures FindStallIndex(AllStalls(st), added.stallId) == -1 ==> r.stalls == st.stalls
    ensures FindStallIndex(AllStalls(st), added.stallId) != -1 ==>
              r.stalls == Some(Rerate(AllStalls(st), AllReviews(st), added).value)
  {
    var reviews := AllReviews(st) + [added];
    match Rerate(AllStalls(st), AllReviews(st), added)
    case None => Storage(st.stalls, Some(reviews))
    case Some(stalls) => Storage(Some(stalls), Some(reviews))
  }

  /**
   * The aggregate invariant: every stall that a lookup by its id reaches,
   * and that has reviews, carries the mean of those reviews as its rating.
   */
  predicate RatingsConsistent(stalls: seq<FoodStall>, reviews: seq<Review>) {
    forall i :: 0 <= i < |stalls| && FindStallIndex(stalls, stalls[i].id) == i &&
                ReviewsFor(reviews, stalls[i].id) != [] ==>
      stalls[i].rating == Some(MeanRating(ReviewsFor(reviews, stalls[i].id)))
  }

  /** `addReview` preserves the aggregate invariant. */
  lemma AddReviewKeepsRatingsConsistent(st: Storage, added: Review)
    requires RatingsConsistent(AllStalls(st), AllReviews(st))
    ensures RatingsConsistent(AllStalls(WithReview(st, added)), AllReviews(WithReview(st, added)))
  {
    var stalls, before := AllStalls(st), AllReviews(st);
    var after := before + [added];
    var ns := AllStalls(WithReview(st, added));
    var k := FindStallIndex(stalls, added.stallId);
    assert |ns| == |stalls| && forall j :: 0 <= j < |stalls| ==> ns[j].id == stalls[j].id;
    forall i | 0 <= i < |ns| && FindStallIndex(ns, ns[i].id) == i && ReviewsFor(after, ns[i].id) != []
      ensures ns[i].rating == Some(MeanRating(ReviewsFor(after, ns[i].id)))
    {
      FindIgnoresRatings(stalls, ns, ns[i].id);
      if ns[i].id != added.stallId {
        ReviewsForOther(before, added, ns[i].id);
        assert ns[i] == stalls[i];
      }
    }
  }

  /** Appending a stall that no review mentions preserves the aggregate invariant. */
  lemma AddStallKeepsRatingsConsistent(stalls: seq<FoodStall>, reviews: seq<Review>, s: FoodStall)
    requires RatingsConsistent(stalls, reviews)
    requires ReviewsFor(reviews, s.id) == []
    ensures RatingsConsistent(stalls + [s], reviews)
  {
    var ns := stalls + [s];
    forall i | 0 <= i < |ns| && FindStallIndex(ns, ns[i].id) == i && ReviewsFor(reviews, ns[i].id) != []
      ensures ns[i].rating == Some(MeanRating(ReviewsFor(reviews, ns[i].id)))
    {
      FindAfterAppend(stalls, s, ns[i].id);
    }
  }

  // ---------------------------------------------------------------------
  // The service object

  /** `LocalStorageService`, the fields being what is stored under its two keys. */
  class LocalStorageService {
    var stalls: Option<seq<FoodStall>>
    var reviews: Option<seq<Review>>

    /** The stored keys as one value. */
    function Contents(): Storage
      reads this
    {
      Storage(stalls, reviews)
    }

    /**
     * Opens the service over what the store already holds, writing empty
     * collections under absent keys and seeding an empty stall collection.
     */
    constructor (existing: Storage, t1: Time, t2: Time, t3: Time)
      ensures Contents() == Initialize(existing, t1, t2, t3)
    {
      stalls := existing.stalls;
      reviews := existing.reviews;
      new;
      if stalls.None? {
        stalls := Some([]);
      }
      if reviews.None? {
        reviews := Some([]);
      }
      assert stalls == Some(AllStalls(existing)) && reviews == Some(AllReviews(existing));
      var current := GetAllStalls();
      if |current| == 0 {
        SeedExamples(t1, t2, t3);
      }
    }

    /**
     * The demo data: three `addStall` calls on an empty stall collection,
     * the clock reading `t1`, `t2`, `t3` at each.
     */
    method SeedExamples(t1: Time, t2: Time, t3: Time)
      requires GetAllStalls() == []
      modifies this
      ensures stalls == Some(SeedStalls(t1, t2, t3))
      ensures reviews == old(reviews)
    {
      var first := AddStall(JoesStreetTacos(t1), t1);
      assert stalls.value == [] + [first] == [first];
      var second := AddStall(MeisDumplings(t2), t2);
      assert stalls.value == [first] + [second] == [first, second];
      var third := AddStall(CurryExpress(t3), t3);
      assert stalls.value == [first, second] + [third] == [first, second, third];
    }

    /** `getAllStalls` on the service's own store. */
    function GetAllStalls(): (r: seq<FoodStall>)
      reads this
      ensures stalls.None? ==> r == []
      ensures stalls.Some? ==> r == stalls.value
    {
      AllStalls(Contents())
    }

    /** `getAllReviews` on the service's own store. */
    function GetAllReviews(): (r: seq<Review>)
      reads this
      ensures reviews.None? ==> r == []
      ensures reviews.Some? ==> r == reviews.value
    {
      AllReviews(Contents())
    }

    /** `getStallById`: nothing when no stored stall has the id, else the first that does. */
    function GetStallById(id: string): (r: Option<FoodStall>)
      reads this
      ensures r.None? <==> forall j :: 0 <= j < |GetAllStalls()| ==> GetAllStalls()[j].id != id
      ensures r.Some? ==> exists i :: 0 <= i < |GetAllStalls()| && GetAllStalls()[i] == r.value &&
                                      r.value.id == id && forall j :: 0 <= j < i ==> GetAllStalls()[j].id != id
    {
      StallById(GetAllStalls(), id)
    }

    /** `getReviewsByStallId`: exactly the stored reviews of that stall. */
    function GetReviewsByStallId(stallId: string): (r: seq<Review>)
      reads this
      ensures forall k :: 0 <= k < |r| ==> r[k].stallId == stallId
      ensures forall x :: x in r <==> x in GetAllReviews() && x.stallId == stallId
    {
      ReviewsForMembers(GetAllReviews(), stallId);
      ReviewsFor(GetAllReviews(), stallId)
    }

    /**
     * `addStall`: gives the stall the clock's identifier and appends it to
     * the stall collection; the reviews are not touched.
     */
    method AddStall(stall: StallData, now: Time) returns (r: FoodStall)
      modifies this
      ensures r == StallWithId(stall, NewId(now))
      ensures stalls == Some(old(GetAllStalls()) + [r])
      ensures reviews == old(reviews)
    {
      var current := GetAllStalls();
      var newStall := StallWithId(stall, NewId(now));
      current := current + [newStall];
      stalls := Some(current);
      r := newStall;
    }

    /**
     * `addReview`: gives the review the clock's identifier and timestamps,
     * appends it, then rerates the first stall it names, if any.
     */
    method AddReview(review: ReviewData, now: Time) returns (r: Review)
      modifies this
      ensures r == ReviewWithId(review, NewId(now), now)
      ensures Contents() == WithReview(old(Contents()), r)
    {
      var allReviews := GetAllReviews();
      ghost var before := allReviews;
      var newReview := ReviewWithId(review, NewId(now), now);
      allReviews := allReviews + [newReview];
      reviews := Some(allReviews);

      var current := GetAllStalls();
      ghost var prior := current;
      var stallIndex := FindStallIndex(current, newReview.stallId);
      if stallIndex != -1 {
        var stallReviews := ReviewsFor(allReviews, newReview.stallId);
        var avgRating := MeanRating(stallReviews);
        current := current[stallIndex := current[stallIndex].(rating := Some(avgRating))];
        stalls := Some(current);
        assert Rerate(prior, before, newReview) == Some(current);
      } else {
        assert Rerate(prior, before, newReview) == None;
      }
      r := newReview;
    }
  }
}
