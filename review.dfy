/** data/Review.java: a restaurant review with its accuracy votes.

    The Java class is a mutable bean; here it is a value and every setter is
    a field update `r.(caption := c)`. The per-user vote map holds nullable
    `Boolean`s, hence `map<string, Option<bool>>`. */
module ReviewData {
  import opened Common
  import opened Models

  type Votes = map<string, Option<bool>>

  datatype Review = Review(
    id: Option<string>,
    userId: Option<string>,
    userName: Option<string>,         // @Exclude: never stored
    restaurantId: Option<string>,
    restaurantName: Option<string>,   // @Exclude: never stored
    description: Option<string>,
    caption: Option<string>,
    rating: real,
    accuracy: int,
    accuracyPercent: real,
    imageUrls: Option<seq<string>>,
    firstImageType: Option<string>,
    createdAt: Option<Long>,
    updatedAt: Option<Long>,
    helpfulCount: int,
    votes: Option<Votes>,
    comments: Option<seq<ReviewComment>>)

  /** `new Review()`: what Firestore's `toObject` starts from. */
  const EmptyReview: Review :=
    Review(None, None, None, None, None, None, None, 0.0, 0, 0.0, None, None, None, None, 0, None, None)

  const PORTRAIT := "PORTRAIT"
  const SQUARE := "SQUARE"
  const HORIZONTAL := "HORIZONTAL"

  /** `"PORTRAIT".equals(firstImageType)`: false for null. */
  predicate IsFirstImagePortrait(r: Review) { r.firstImageType == Some(PORTRAIT) }

  predicate IsFirstImageSquare(r: Review) { r.firstImageType == Some(SQUARE) }

  predicate IsFirstImageHorizontal(r: Review) { r.firstImageType == Some(HORIZONTAL) }

  /** The full constructor: the given fields, and a fresh review's defaults. */
  function NewReview(id: Option<string>, userId: Option<string>, userName: Option<string>,
                     restaurantId: Option<string>, restaurantName: Option<string>,
                     caption: Option<string>, description: Option<string>, rating: real,
                     accuracy: int, imageUrls: Option<seq<string>>, createdAt: Option<Long>): (r: Review)
    ensures r.id == id && r.userId == userId && r.userName == userName
    ensures r.restaurantId == restaurantId && r.restaurantName == restaurantName
    ensures r.caption == caption && r.description == description && r.rating == rating
    ensures r.accuracy == accuracy && r.imageUrls == imageUrls && r.createdAt == createdAt
    ensures r.updatedAt.None?
    ensures r.helpfulCount == 0 && r.accuracyPercent == 100.0
    ensures r.votes == Some(map[]) && r.comments == Some([])
    ensures IsFirstImageSquare(r) && !IsFirstImagePortrait(r) && !IsFirstImageHorizontal(r)
  {
    Review(id, userId, userName, restaurantId, restaurantName, description, caption, rating,
           accuracy, 100.0, imageUrls, Some(SQUARE), createdAt, None, 0, Some(map[]), Some([]))
  }

  /** The three orientation tests are exclusive, and all fail without a type. */
  lemma ImageTypesExclusive(r: Review)
    ensures !(IsFirstImagePortrait(r) && IsFirstImageSquare(r))
    ensures !(IsFirstImagePortrait(r) && IsFirstImageHorizontal(r))
    ensures !(IsFirstImageSquare(r) && IsFirstImageHorizontal(r))
    ensures r.firstImageType.None? ==>
      !IsFirstImagePortrait(r) && !IsFirstImageSquare(r) && !IsFirstImageHorizontal(r)
  {
  }
}
