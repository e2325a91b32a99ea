/** Wine reviews (`ReviewServiceImpl`): a review is written by the calling
    user about a live wine and stamped with the clock reading at save time. */
module ReviewService {
  import opened Common
  import opened Records
  import opened Store

  /** What the service hands back for a review (`ReviewDto`). */
  datatype ReviewDto = ReviewDto(id: Id, wineId: Id, userId: Id, rating: Rating, text: string, timestamp: Timestamp)

  function ToReviewDto(review: Review): (dto: ReviewDto)
    ensures dto.id == review.id && dto.wineId == review.wineId && dto.userId == review.userId
    ensures dto.rating == review.rating && dto.text == review.text && dto.timestamp == review.timestamp
  {
    ReviewDto(review.id, review.wineId, review.userId, review.rating, review.text, review.timestamp)
  }

  /** `save`: the wine must be live; the review then points at that wine and at
      the caller, carries the request's text and rating and the clock reading
      `now`, and is stored under the next generated key. */
  method Save(db: Database, userId: Id, wineId: Id, text: string, rating: Rating, now: Timestamp)
    returns (r: Result<ReviewDto>)
    requires db.Valid() && userId in db.users
    modifies db`reviews, db`nextReviewId
    ensures db.Valid()
    ensures r.Ok? <==> wineId in db.wines && !db.wines[wineId].deleted
    ensures r.Err? ==>
      && r.failure == Failure(EntityNotFound, "Can't find wine by id: " + IdToString(wineId))
      && db.reviews == old(db.reviews)
    ensures r.Ok? ==>
      && r.value == ReviewDto(old(db.nextReviewId), wineId, userId, rating, text, now)
      && db.reviews == old(db.reviews) + [Review(old(db.nextReviewId), text, rating, wineId, userId, now)]
  {
    if wineId !in db.wines || db.wines[wineId].deleted {
      return Err(Failure(EntityNotFound, "Can't find wine by id: " + IdToString(wineId)));
    }
    var review := Review(db.nextReviewId, text, rating, wineId, userId, now);
    db.reviews := db.reviews + [review];
    db.nextReviewId := db.nextReviewId + 1;
    r := Ok(ToReviewDto(review));
  }

  /** `findAllReviewsByWineId`: that wine's reviews in table order; an unknown
      wine simply has none. */
  function FindAllReviewsByWineId(reviews: seq<Review>, wineId: Id): (r: seq<ReviewDto>)
    ensures |r| <= |reviews|
    ensures forall d :: d in r <==> exists x :: x in reviews && x.wineId == wineId && d == ToReviewDto(x)
  {
    if reviews == [] then []
    else
      var rest := FindAllReviewsByWineId(reviews[1..], wineId);
      assert forall x :: x in reviews[1..] ==> x in reviews;
      assert forall x :: x in reviews ==> x == reviews[0] || x in reviews[1..];
      if reviews[0].wineId == wineId then [ToReviewDto(reviews[0])] + rest else rest
  }

  /** Once a wine is deleted its listing is empty, and the listings of the
      other wines are left as they were. */
  lemma {:induction false} DeleteWineDropsReviews(reviews: seq<Review>, wineId: Id, other: Id)
    requires other != wineId
    ensures FindAllReviewsByWineId(ReviewsWithoutWine(reviews, wineId), wineId) == []
    ensures FindAllReviewsByWineId(ReviewsWithoutWine(reviews, wineId), other) == FindAllReviewsByWineId(reviews, other)
  {
    if reviews != [] {
      DeleteWineDropsReviews(reviews[1..], wineId, other);
      var rest := ReviewsWithoutWine(reviews[1..], wineId);
      if reviews[0].wineId != wineId {
        assert ([reviews[0]] + rest)[1..] == rest;
      }
    }
  }

  /** A saved review appears, last, in its wine's listing, and the listings of
      the other wines are left as they were. */
  lemma {:induction false} SaveThenList(reviews: seq<Review>, review: Review, other: Id)
    requires other != review.wineId
    ensures FindAllReviewsByWineId(reviews + [review], review.wineId)
         == FindAllReviewsByWineId(reviews, review.wineId) + [ToReviewDto(review)]
    ensures FindAllReviewsByWineId(reviews + [review], other) == FindAllReviewsByWineId(reviews, other)
  {
    if reviews == [] {
      assert [] + [review] == [review];
      assert [review][1..] == [];
    } else {
      assert (reviews + [review])[1..] == reviews[1..] + [review];
      SaveThenList(reviews[1..], review, other);
    }
  }
}
