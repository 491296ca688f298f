/** adapters/ReviewWidgetAdapter.java: the home screen's review grid. While
    loading, eight skeleton cards lead the list and every review sits eight
    positions further down. */
module ReviewWidget {
  import opened Common
  import opened Models
  import opened ReviewData

  const VIEW_TYPE_REVIEW := 0
  const VIEW_TYPE_SKELETON := 1
  /** The number of skeleton cards shown while loading. */
  const SKELETONS := 8

  /** `getItemCount`: the reviews, plus the skeletons while loading; a null
      list counts as empty. */
  function ItemCount(isLoading: bool, reviews: Option<seq<Review>>): (n: nat)
    ensures isLoading ==> n == SKELETONS + (if reviews.None? then 0 else |reviews.value|)
    ensures !isLoading ==> n == (if reviews.None? then 0 else |reviews.value|)
  {
    var size := if reviews.None? then 0 else |reviews.value|;
    if isLoading then size + SKELETONS else size
  }

  /** `getItemViewType`. */
  function ViewType(isLoading: bool, position: int): (t: int)
    ensures t == VIEW_TYPE_SKELETON <==> isLoading && position < SKELETONS
    ensures t == VIEW_TYPE_REVIEW || t == VIEW_TYPE_SKELETON
  {
    if isLoading && position < SKELETONS then VIEW_TYPE_SKELETON else VIEW_TYPE_REVIEW
  }

  /** The review index a review row reads (`position - 8` while loading). */
  function ReviewIndex(isLoading: bool, position: int): int
  {
    if isLoading then position - SKELETONS else position
  }

  /** The review `onBindViewHolder` binds at a review row, or None when the
      index falls outside the list. */
  function BoundReview(isLoading: bool, reviews: Option<seq<Review>>, position: int): (r: Option<Review>)
    ensures r.Some? <==>
      reviews.Some? && 0 <= ReviewIndex(isLoading, position) < |reviews.value|
    ensures r.Some? ==> r.value == reviews.value[ReviewIndex(isLoading, position)]
  {
    var k := ReviewIndex(isLoading, position);
    if reviews.Some? && 0 <= k < |reviews.value| then Some(reviews.value[k]) else None
  }

  /** Every row of the list is a skeleton or binds a review; none is left
      blank. */
  lemma EveryRowFilled(isLoading: bool, reviews: Option<seq<Review>>, position: int)
    requires 0 <= position < ItemCount(isLoading, reviews)
    ensures ViewType(isLoading, position) == VIEW_TYPE_SKELETON || BoundReview(isLoading, reviews, position).Some?
    ensures ViewType(isLoading, position) == VIEW_TYPE_SKELETON ==> BoundReview(isLoading, reviews, position).None?
  {
  }

  /** Every review is shown at exactly one row: position `k + 8` while
      loading, `k` otherwise. */
  lemma EachReviewOnce(isLoading: bool, reviews: seq<Review>, k: int, position: int)
    requires 0 <= k < |reviews|
    requires 0 <= position < ItemCount(isLoading, Some(reviews))
    ensures ViewType(isLoading, position) == VIEW_TYPE_REVIEW && ReviewIndex(isLoading, position) == k
      <==> position == (if isLoading then k + SKELETONS else k)
  {
  }

  /** The restaurant handed to the click listener: the one in the map, else
      a stand-in with the review's restaurant id, its restaurant name or
      "Unknown Restaurant", no address, category "Restaurant" and region
      "Melbourne". */
  function ClickedRestaurant(restaurantMap: map<string, Restaurant>, review: Review): (r: Restaurant)
    ensures review.restaurantId.Some? && review.restaurantId.value in restaurantMap ==>
      r == restaurantMap[review.restaurantId.value]
    ensures !(review.restaurantId.Some? && review.restaurantId.value in restaurantMap) ==>
      r.id == review.restaurantId &&
      r.name == Some(if review.restaurantName.Some? then review.restaurantName.value else "Unknown Restaurant") &&
      r.address == Some("") && r.category == Some("Restaurant") && r.region == Some("Melbourne")
  {
    if review.restaurantId.Some? && review.restaurantId.value in restaurantMap then
      restaurantMap[review.restaurantId.value]
    else
      Restaurant(review.restaurantId,
                 Some(if review.restaurantName.Some? then review.restaurantName.value else "Unknown Restaurant"),
                 Some(""), 0.0, 0.0, Some("Restaurant"), Some("Melbourne"))
  }

  /** A tap on a row: the review at that row and its restaurant, or nothing
      when the row holds no review. Skeleton cards take no taps. */
  function Click(isLoading: bool, reviews: Option<seq<Review>>, restaurantMap: map<string, Restaurant>,
                 position: int): (r: Option<(Review, Restaurant)>)
    ensures r.Some? <==>
      (ViewType(isLoading, position) == VIEW_TYPE_REVIEW && BoundReview(isLoading, reviews, position).Some?)
    ensures r.Some? ==>
      (r.value.0 == BoundReview(isLoading, reviews, position).value &&
       r.value.1 == ClickedRestaurant(restaurantMap, r.value.0))
  {
    if ViewType(isLoading, position) == VIEW_TYPE_SKELETON then None
    else
      var b := BoundReview(isLoading, reviews, position);
      if b.None? then None else Some((b.value, ClickedRestaurant(restaurantMap, b.value)))
  }

  class ReviewWidgetAdapter {
    var reviews: Option<seq<Review>>
    var restaurantMap: map<string, Restaurant>
    var isLoading: bool

    /** The given list, an empty restaurant map, not loading. */
    constructor (reviews: Option<seq<Review>>)
      ensures this.reviews == reviews && restaurantMap == map[] && !isLoading
    {
      this.reviews := reviews;
      restaurantMap := map[];
      isLoading := false;
    }

    method SetReviews(reviews: Option<seq<Review>>)
      modifies this
      ensures this.reviews == reviews
      ensures restaurantMap == old(restaurantMap) && isLoading == old(isLoading)
    {
      this.reviews := reviews;
    }

    method SetLoading(loading: bool)
      modifies this
      ensures isLoading == loading
      ensures reviews == old(reviews) && restaurantMap == old(restaurantMap)
    {
      isLoading := loading;
    }

    /** `setRestaurantMap`: a null map installs an empty one. */
    method SetRestaurantMap(restaurantMap: Option<map<string, Restaurant>>)
      modifies this
      ensures this.restaurantMap == (if restaurantMap.None? then map[] else restaurantMap.value)
      ensures reviews == old(reviews) && isLoading == old(isLoading)
    {
      this.restaurantMap := if restaurantMap.None? then map[] else restaurantMap.value;
    }

    /** `getItemCount` on the current state. */
    function GetItemCount(): nat
      reads this
    {
      ItemCount(isLoading, reviews)
    }

    /** `getItemViewType` on the current state. */
    function GetItemViewType(position: int): int
      reads this
    {
      ViewType(isLoading, position)
    }
  }
}
