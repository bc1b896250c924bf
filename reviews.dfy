/** The rating aggregator of Backend/controllers/reviewController.js: creating
    a review recomputes the mean rating of the reviewed item over all of its
    reviews and writes it to that item; deleting one removes only the review. */
module Reviews {
  import opened Common
  import opened Store
  import opened Strings
  import opened Validation

  ghost predicate AllStored(reviews: map<Id, Review>, keys: seq<Id>) {
    forall k :: k in keys ==> k in reviews
  }

  /** `reviews.reduce((acc, curr) => acc + curr.rating, 0)`, folding from the left. */
  function RatingSum(reviews: map<Id, Review>, keys: seq<Id>): int
    requires AllStored(reviews, keys)
  {
    if keys == [] then 0
    else RatingSum(reviews, keys[..|keys| - 1]) + reviews[keys[|keys| - 1]].rating
  }

  /** The sum over a concatenation is the sum of the sums. */
  lemma {:induction false} RatingSumAppend(reviews: map<Id, Review>, a: seq<Id>, b: seq<Id>)
    requires AllStored(reviews, a) && AllStored(reviews, b)
    ensures AllStored(reviews, a + b)
    ensures RatingSum(reviews, a + b) == RatingSum(reviews, a) + RatingSum(reviews, b)
    decreases |b|
  {
    if b == [] {
      assert a + b == a;
    } else {
      var last := b[|b| - 1];
      assert (a + b)[..|a + b| - 1] == a + b[..|b| - 1];
      assert (a + b)[|a + b| - 1] == last;
      RatingSumAppend(reviews, a, b[..|b| - 1]);
    }
  }

  /** Removing one occurrence removes exactly its rating from the sum. */
  lemma RatingSumRemove(reviews: map<Id, Review>, keys: seq<Id>, j: nat)
    requires AllStored(reviews, keys) && j < |keys|
    ensures AllStored(reviews, RemoveAt(keys, j))
    ensures RatingSum(reviews, keys) == RatingSum(reviews, RemoveAt(keys, j)) + reviews[keys[j]].rating
  {
    var front, back := keys[..j], keys[j + 1..];
    assert keys == front + [keys[j]] + back;
    assert RatingSum(reviews, [keys[j]]) == reviews[keys[j]].rating by {
      assert [keys[j]][..0] == [];
    }
    RatingSumAppend(reviews, front, [keys[j]]);
    RatingSumAppend(reviews, front + [keys[j]], back);
    RatingSumAppend(reviews, front, back);
  }

  lemma MultisetCancel<T>(m: multiset<T>, p: multiset<T>, x: T)
    requires m + multiset{x} == p + multiset{x}
    ensures m == p
  {
    assert forall y :: m[y] == (m + multiset{x})[y] - multiset{x}[y];
    assert forall y :: p[y] == (p + multiset{x})[y] - multiset{x}[y];
  }

  /** The sum does not depend on the order in which the store returns the reviews. */
  lemma {:induction false} RatingSumPermutation(reviews: map<Id, Review>, a: seq<Id>, b: seq<Id>)
    requires AllStored(reviews, a) && AllStored(reviews, b)
    requires multiset(a) == multiset(b)
    ensures RatingSum(reviews, a) == RatingSum(reviews, b)
    decreases |a|
  {
    if a == [] {
      assert |multiset(b)| == 0;
      assert b == [];
    } else {
      var n := |a| - 1;
      var x, front := a[n], a[..n];
      assert a == front + [x];
      assert multiset(a) == multiset(front) + multiset{x};
      assert x in multiset(b);
      var j :| 0 <= j < |b| && b[j] == x;
      var rest := RemoveAt(b, j);
      RemoveAtRestores(b, j);
      MultisetCancel(multiset(front), multiset(rest), x);
      assert AllStored(reviews, front) by {
        assert forall k :: k in front ==> k in a;
      }
      RatingSumRemove(reviews, b, j);
      RatingSumPermutation(reviews, front, rest);
    }
  }

  /** With every stored rating in 1..5, the sum of `n` ratings lies between `n` and `5n`. */
  lemma {:induction false} RatingSumBounds(reviews: map<Id, Review>, keys: seq<Id>)
    requires AllStored(reviews, keys) && RatingsInRange(reviews)
    ensures |keys| <= RatingSum(reviews, keys) <= 5 * |keys|
  {
    if keys != [] {
      RatingSumBounds(reviews, keys[..|keys| - 1]);
    }
  }

  /** `sum / allReviews.length`, as an exact real. */
  function Mean(reviews: map<Id, Review>, keys: seq<Id>): real
    requires AllStored(reviews, keys) && |keys| > 0
  {
    RatingSum(reviews, keys) as real / |keys| as real
  }

  /** Division by a positive count keeps `n <= s <= 5n` as `1 <= s/n <= 5`. */
  lemma QuotientBounds(s: real, n: real)
    requires n > 0.0 && n <= s && s <= 5.0 * n
    ensures 1.0 <= s / n
    ensures s / n <= 5.0
  {
    var q := s / n;
    assert q * n == s;
    assert (q - 1.0) * n == q * n - n;
    assert (q - 5.0) * n == q * n - 5.0 * n;
  }

  /** The mean of ratings in 1..5 lies in [1, 5]. */
  lemma MeanInRange(reviews: map<Id, Review>, keys: seq<Id>)
    requires AllStored(reviews, keys) && |keys| > 0 && RatingsInRange(reviews)
    ensures 1.0 <= Mean(reviews, keys) <= 5.0
  {
    RatingSumBounds(reviews, keys);
    QuotientBounds(RatingSum(reviews, keys) as real, |keys| as real);
  }

  /** Reordering the reviews leaves the mean unchanged. */
  lemma MeanPermutation(reviews: map<Id, Review>, a: seq<Id>, b: seq<Id>)
    requires AllStored(reviews, a) && AllStored(reviews, b) && |a| > 0
    requires multiset(a) == multiset(b)
    ensures |b| == |a|
    ensures Mean(reviews, a) == Mean(reviews, b)
  {
    assert |multiset(a)| == |multiset(b)|;
    RatingSumPermutation(reviews, a, b);
  }

  /** Ratings 4, 5 and 3, in either of two orders, average to 4. */
  lemma MeanExample()
    ensures var reviews := map[1 := Review(0, TripItem, 9, 4, "good"),
                               2 := Review(0, TripItem, 9, 5, "great"),
                               3 := Review(0, TripItem, 9, 3, "fine")];
      Mean(reviews, [1, 2, 3]) == 4.0 && Mean(reviews, [3, 1, 2]) == 4.0
  {
    var reviews := map[1 := Review(0, TripItem, 9, 4, "good"),
                       2 := Review(0, TripItem, 9, 5, "great"),
                       3 := Review(0, TripItem, 9, 3, "fine")];
    assert [1, 2, 3][..2] == [1, 2] && [1, 2][..1] == [1] && [1][..0] == [];
    assert [3, 1, 2][..2] == [3, 1] && [3, 1][..1] == [3] && [3][..0] == [];
    assert RatingSum(reviews, [1, 2, 3]) == 12;
    assert RatingSum(reviews, [3, 1, 2]) == 12;
  }

  /** Some listing of a finite set, each element exactly once. */
  ghost function Enumerate(s: set<Id>): (r: seq<Id>)
    ensures multiset(r) == multiset(s)
    decreases s
  {
    if s == {} then []
    else
      var k :| k in s;
      [k] + Enumerate(s - {k})
  }

  /** The mean rating of one `(itemType, item)` pair over all of its reviews. */
  ghost function ItemAverage(reviews: map<Id, Review>, t: ItemType, item: Id): real
    requires ReviewsOf(reviews, t, item) != {}
  {
    var keys := Enumerate(ReviewsOf(reviews, t, item));
    assert forall k :: k in keys ==> k in multiset(ReviewsOf(reviews, t, item));
    Mean(reviews, keys)
  }

  /** The order the store lists the matching reviews in does not change the written average. */
  lemma AnyListingGivesItemAverage(reviews: map<Id, Review>, t: ItemType, item: Id, keys: seq<Id>)
    requires multiset(keys) == multiset(ReviewsOf(reviews, t, item))
    requires ReviewsOf(reviews, t, item) != {}
    ensures AllStored(reviews, keys) && |keys| > 0
    ensures Mean(reviews, keys) == ItemAverage(reviews, t, item)
    ensures 1.0 <= ItemAverage(reviews, t, item) <= 5.0 || !RatingsInRange(reviews)
  {
    var s := ReviewsOf(reviews, t, item);
    var e := Enumerate(s);
    assert forall k :: k in keys ==> k in multiset(s);
    assert forall k :: k in e ==> k in multiset(s);
    var k0 :| k0 in s;
    assert k0 in multiset(keys);
    MeanPermutation(reviews, e, keys);
    if RatingsInRange(reviews) {
      MeanInRange(reviews, keys);
    }
  }

  /** `Model.findByIdAndUpdate(item, { averageRating })` with `Model` chosen by
      the item type: exactly the named item of the named collection gets the
      new average, and only if it exists. */
  ghost predicate AverageWritten(t: ItemType, item: Id, avg: real,
                                 trips0: map<Id, Trip>, trips: map<Id, Trip>,
                                 hotels0: map<Id, Hotel>, hotels: map<Id, Hotel>,
                                 vehicles0: map<Id, Vehicle>, vehicles: map<Id, Vehicle>)
  {
    && trips == (if t == TripItem && item in trips0
                 then trips0[item := trips0[item].(averageRating := avg)] else trips0)
    && hotels == (if t == HotelItem && item in hotels0
                  then hotels0[item := hotels0[item].(averageRating := avg)] else hotels0)
    && vehicles == (if t == CarItem && item in vehicles0
                    then vehicles0[item := vehicles0[item].(averageRating := avg)] else vehicles0)
  }

  method WriteAverage(db: Database, t: ItemType, item: Id, avg: real)
    requires db.Valid()
    modifies db`trips, db`hotels, db`vehicles
    ensures db.Valid()
    ensures AverageWritten(t, item, avg, old(db.trips), db.trips, old(db.hotels), db.hotels,
                           old(db.vehicles), db.vehicles)
  {
    match t {
      case TripItem =>
        if item in db.trips {
          db.trips := db.trips[item := db.trips[item].(averageRating := avg)];
        }
      case HotelItem =>
        if item in db.hotels {
          db.hotels := db.hotels[item := db.hotels[item].(averageRating := avg)];
        }
      case CarItem =>
        if item in db.vehicles {
          db.vehicles := db.vehicles[item := db.vehicles[item].(averageRating := avg)];
        }
    }
  }

  /** `Review.create` after the route's `trim()` on `comment`: the schema
      requires a comment (Backend/models/Review.js:25-28), so one that was
      whitespace only passes `notEmpty()` but is refused by the store. */
  predicate CommentStorable(b: ReviewBody) {
    Trim(b.comment) != ""
  }

  /** A blank comment gets past the rules and is refused at `Review.create`. */
  lemma BlankCommentRefused(item: Id)
    ensures ReviewValid(ReviewBody("trip", item, Some(5), "   ", None))
    ensures !CommentStorable(ReviewBody("trip", item, Some(5), "   ", None))
  {
    ReviewValidIff(ReviewBody("trip", item, Some(5), "   ", None));
    TrimExamples();
  }

  /** `createReview`. `who` is `req.user`; the stored review's author is always
      `who.id`, whatever the body says, and its comment is the trimmed one.
      A blank comment fails the schema and the catch answers 500. After
      storing the review the handler lists every review of the same item and
      writes their mean to that item in the collection `itemType` names; an
      item that does not exist is not created. */
  method CreateReview(db: Database, who: Principal, body: ReviewBody) returns (status: Status, review: Option<Id>)
    requires db.Valid()
    modifies db`reviews, db`trips, db`hotels, db`vehicles, db`nextId
    ensures db.Valid()
    ensures !ReviewValid(body) ==>
      && status == BadRequest && review.None?
      && db.reviews == old(db.reviews) && db.trips == old(db.trips)
      && db.hotels == old(db.hotels) && db.vehicles == old(db.vehicles)
    ensures ReviewValid(body) && !CommentStorable(body) ==>
      && status == ServerError && review.None?
      && db.reviews == old(db.reviews) && db.trips == old(db.trips)
      && db.hotels == old(db.hotels) && db.vehicles == old(db.vehicles)
    ensures ReviewValid(body) && CommentStorable(body) ==>
      && status == Created && review.Some? && review.value !in old(db.reviews)
      && ParseItemType(body.itemType).Some? && body.rating.Some?
      && db.reviews == old(db.reviews)[review.value :=
           Review(who.id, ParseItemType(body.itemType).value, body.item, body.rating.value, Trim(body.comment))]
      && ReviewsOf(db.reviews, ParseItemType(body.itemType).value, body.item) != {}
      && 1.0 <= ItemAverage(db.reviews, ParseItemType(body.itemType).value, body.item) <= 5.0
      && AverageWritten(ParseItemType(body.itemType).value, body.item,
                        ItemAverage(db.reviews, ParseItemType(body.itemType).value, body.item),
                        old(db.trips), db.trips, old(db.hotels), db.hotels, old(db.vehicles), db.vehicles)
  {
    ReviewValidIff(body);
    if !ReviewValid(body) {
      return BadRequest, None;
    }
    if !CommentStorable(body) {
      return ServerError, None;
    }
    var t := ParseItemType(body.itemType).value;
    var id := StoreAndAverage(db, Review(who.id, t, body.item, body.rating.value, Trim(body.comment)));
    status, review := Created, Some(id);
  }

  /** The tail of `createReview` once `Review.create` succeeds: the review
      is stored under a fresh id, the pair's reviews are listed and their
      mean is written to the item. */
  method StoreAndAverage(db: Database, r: Review) returns (id: Id)
    requires db.Valid() && 1 <= r.rating <= 5
    modifies db`reviews, db`trips, db`hotels, db`vehicles, db`nextId
    ensures db.Valid()
    ensures id !in old(db.reviews) && db.reviews == old(db.reviews)[id := r]
    ensures ReviewsOf(db.reviews, r.itemType, r.item) != {}
    ensures 1.0 <= ItemAverage(db.reviews, r.itemType, r.item) <= 5.0
    ensures AverageWritten(r.itemType, r.item, ItemAverage(db.reviews, r.itemType, r.item),
                           old(db.trips), db.trips, old(db.hotels), db.hotels, old(db.vehicles), db.vehicles)
  {
    id := db.NewId();
    ReviewsOfInsert(db.reviews, id, r);
    db.reviews := db.reviews[id := r];
    var all := db.FindReviews(r.itemType, r.item);
    AnyListingGivesItemAverage(db.reviews, r.itemType, r.item, all);
    WriteAverage(db, r.itemType, r.item, Mean(db.reviews, all));
  }

  /** `deleteReview`: 404 for a missing review, 403 unless the requester wrote
      it or is an admin; otherwise only that review goes, and no item's
      average is recomputed. */
  method DeleteReview(db: Database, who: Principal, id: Id) returns (status: Status)
    requires db.Valid()
    modifies db`reviews
    ensures db.Valid()
    ensures id !in old(db.reviews) ==> status == NotFound && db.reviews == old(db.reviews)
    ensures id in old(db.reviews) && !MayModify(old(db.reviews)[id].user, who) ==>
      status == Forbidden && db.reviews == old(db.reviews)
    ensures id in old(db.reviews) && MayModify(old(db.reviews)[id].user, who) ==>
      status == Ok && db.reviews == old(db.reviews) - {id}
  {
    if id !in db.reviews {
      return NotFound;
    }
    if !MayModify(db.reviews[id].user, who) {
      return Forbidden;
    }
    db.reviews := db.reviews - {id};
    status := Ok;
  }
}
