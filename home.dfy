/** HomeFragment.java: the review feed. It keeps every loaded review and a
    map of their restaurants, feeds the review grid, filters it by a search
    text and shows an empty-state panel when the grid has no rows. The
    review service's answer and the restaurant documents it can read are
    parameters. */
module Home {
  import opened Common
  import opened Models
  import opened ReviewData
  import opened ReviewWidget
  import opened ReviewStore

  // ---------------------------------------------------------------------
  // Search (the match test and the search loop are the review service's)

  /** What `filterReviews` shows: every review for a blank query, otherwise
      the matching ones in their order. */
  function Filtered(all: seq<Review>, query: string): seq<Review>
  {
    if JavaTrim(query) == [] then all else Keep(all, MatchesQuery(LowerQuery(query)))
  }

  /** A blank query shows every review in order; otherwise a review is shown
      exactly when it matches, and the shown ones keep their order. */
  lemma FilteredSpec(all: seq<Review>, query: string, r: Review)
    ensures JavaTrim(query) == [] ==> Filtered(all, query) == all
    ensures JavaTrim(query) != [] ==>
      (r in Filtered(all, query) <==> r in all && ReviewMatches(r, LowerQuery(query)))
  {
    KeepMembers(all, MatchesQuery(LowerQuery(query)), r);
  }

  /** Filtering a longer list extends the shown list at its end. */
  lemma FilteredAppend(a: seq<Review>, b: seq<Review>, query: string)
    ensures Filtered(a + b, query) == Filtered(a, query) + Filtered(b, query)
  {
    if JavaTrim(query) != [] {
      KeepAppend(a, b, MatchesQuery(LowerQuery(query)));
    }
  }

  // ---------------------------------------------------------------------
  // Restaurant ids

  /** The distinct non-null restaurant ids of the reviews, in order of first
      appearance. */
  function RestaurantIds(reviews: seq<Review>): seq<string>
  {
    if reviews == [] then []
    else
      var ids := RestaurantIds(reviews[..|reviews| - 1]);
      var id := reviews[|reviews| - 1].restaurantId;
      if id.Some? && id.value !in ids then ids + [id.value] else ids
  }

  /** No id is listed twice, and an id is listed exactly when some review
      names it. */
  lemma {:induction false} RestaurantIdsSpec(reviews: seq<Review>, x: string)
    ensures forall i, j :: 0 <= i < j < |RestaurantIds(reviews)| ==>
      RestaurantIds(reviews)[i] != RestaurantIds(reviews)[j]
    ensures x in RestaurantIds(reviews) <==>
      exists k :: 0 <= k < |reviews| && reviews[k].restaurantId == Some(x)
  {
    if reviews != [] {
      var init := reviews[..|reviews| - 1];
      RestaurantIdsSpec(init, x);
      var last := reviews[|reviews| - 1];
      if x in RestaurantIds(reviews) && x !in RestaurantIds(init) {
        assert reviews[|reviews| - 1].restaurantId == Some(x);
      }
      if exists k :: 0 <= k < |reviews| && reviews[k].restaurantId == Some(x) {
        var k :| 0 <= k < |reviews| && reviews[k].restaurantId == Some(x);
        if k < |reviews| - 1 {
          assert init[k] == reviews[k];
        }
      }
      if exists k :: 0 <= k < |init| && init[k].restaurantId == Some(x) {
        var k :| 0 <= k < |init| && init[k].restaurantId == Some(x);
        assert reviews[k] == init[k];
      }
    }
  }

  /** The id collection loop of `loadRestaurants`. */
  method CollectRestaurantIds(reviews: seq<Review>) returns (ids: seq<string>)
    ensures ids == RestaurantIds(reviews)
  {
    ids := [];
    var i := 0;
    while i < |reviews|
      invariant 0 <= i <= |reviews|
      invariant ids == RestaurantIds(reviews[..i])
    {
      assert reviews[..i + 1][..i] == reviews[..i];
      var id := reviews[i].restaurantId;
      if id.Some? && id.value !in ids {
        ids := ids + [id.value];
      }
      i := i + 1;
    }
    assert reviews[..i] == reviews;
  }

  /** The restaurants the lookups put into the map: each listed id whose
      document could be read, with the id set on it. */
  function LookedUp(ids: seq<string>, docs: map<string, Restaurant>): (m: map<string, Restaurant>)
    ensures forall id :: id in m <==> id in ids && id in docs
    ensures forall id :: id in m ==> m[id] == docs[id].(id := Some(id))
  {
    map id | id in ids && id in docs :: docs[id].(id := Some(id))
  }

  lemma LoadedStep(ids: seq<string>, i: int, docs: map<string, Restaurant>)
    requires 0 <= i < |ids|
    ensures LookedUp(ids[..i + 1], docs) ==
      if ids[i] in docs then LookedUp(ids[..i], docs)[ids[i] := docs[ids[i]].(id := Some(ids[i]))]
      else LookedUp(ids[..i], docs)
  {
    assert ids[..i + 1] == ids[..i] + [ids[i]];
  }

  /** The lookups of `loadRestaurants`, one id after the other: each
      readable document is put into the map under its id. */
  method PutLoaded(m: map<string, Restaurant>, ids: seq<string>, docs: map<string, Restaurant>)
    returns (r: map<string, Restaurant>)
    ensures r == m + LookedUp(ids, docs)
  {
    r := m;
    var i := 0;
    while i < |ids|
      invariant 0 <= i <= |ids|
      invariant r == m + LookedUp(ids[..i], docs)
    {
      LoadedStep(ids, i, docs);
      var id := ids[i];
      if id in docs {
        r := r[id := docs[id].(id := Some(id))];
      }
      i := i + 1;
    }
    assert ids[..i] == ids;
  }

  // ---------------------------------------------------------------------
  // The screen

  class HomeScreen {
    const adapter: ReviewWidgetAdapter
    var allReviews: seq<Review>
    var restaurantMap: map<string, Restaurant>
    var emptyStateShown: bool
    var refreshing: bool

    /** `onCreateView` up to the first load. The grid is built before the
        review list exists, so the adapter starts with a null list and its
        own empty map. */
    constructor ()
      ensures fresh(adapter)
      ensures adapter.reviews.None? && adapter.restaurantMap == map[] && !adapter.isLoading
      ensures allReviews == [] && restaurantMap == map[] && refreshing
    {
      var a := new ReviewWidgetAdapter(None);
      a.SetRestaurantMap(None);
      adapter := a;
      allReviews := [];
      restaurantMap := map[];
      emptyStateShown := false;
      refreshing := true;
    }

    /** `updateEmptyState`: the panel shows exactly when the grid has no rows. */
    method UpdateEmptyState()
      modifies this
      ensures emptyStateShown == (ItemCount(adapter.isLoading, adapter.reviews) == 0)
      ensures allReviews == old(allReviews) && restaurantMap == old(restaurantMap)
      ensures refreshing == old(refreshing)
    {
      emptyStateShown := adapter.GetItemCount() == 0;
    }

    /** `updateUI`: the grid shows every review with the current restaurants. */
    method UpdateUI()
      modifies this, adapter
      ensures adapter.reviews == Some(allReviews) && adapter.restaurantMap == restaurantMap
      ensures adapter.isLoading == old(adapter.isLoading)
      ensures emptyStateShown == (ItemCount(adapter.isLoading, Some(allReviews)) == 0)
      ensures allReviews == old(allReviews) && restaurantMap == old(restaurantMap)
      ensures refreshing == old(refreshing)
    {
      adapter.SetReviews(Some(allReviews));
      adapter.SetRestaurantMap(Some(restaurantMap));
      UpdateEmptyState();
    }

    /** `filterReviews`: the grid shows the reviews the query selects. */
    method FilterReviews(query: string)
      modifies this, adapter
      ensures adapter.reviews == Some(Filtered(allReviews, query))
      ensures adapter.restaurantMap == old(adapter.restaurantMap) && adapter.isLoading == old(adapter.isLoading)
      ensures emptyStateShown == (ItemCount(adapter.isLoading, adapter.reviews) == 0)
      ensures allReviews == old(allReviews) && restaurantMap == old(restaurantMap)
      ensures refreshing == old(refreshing)
    {
      var filtered := allReviews;
      if JavaTrim(query) != [] {
        filtered := KeepMatching(allReviews, LowerQuery(query));
      }
      adapter.SetReviews(Some(filtered));
      UpdateEmptyState();
    }

    /** `loadRestaurants`: one lookup per distinct restaurant id; every
        readable document is put into the map under its id, and the grid is
        refreshed (after each answer in the app; the state after the last
        answer is the one modelled). */
    method LoadRestaurants(docs: map<string, Restaurant>)
      modifies this, adapter
      ensures restaurantMap == old(restaurantMap) + LookedUp(RestaurantIds(allReviews), docs)
      ensures adapter.reviews == Some(allReviews) && adapter.restaurantMap == restaurantMap
      ensures adapter.isLoading == old(adapter.isLoading)
      ensures emptyStateShown == (ItemCount(adapter.isLoading, Some(allReviews)) == 0)
      ensures allReviews == old(allReviews) && refreshing == old(refreshing)
    {
      var ids := CollectRestaurantIds(allReviews);
      if allReviews == [] || ids == [] {
        assert LookedUp(ids, docs) == map[];
        assert restaurantMap + map[] == restaurantMap;
        UpdateUI();
        return;
      }
      restaurantMap := PutLoaded(restaurantMap, ids, docs);
      UpdateUI();
    }

    /** The answer to `loadReviews` (and `refreshReviews`): on success the
        list is replaced and the restaurants looked up; either way the
        refresh indicator stops. */
    method OnReviewsLoaded(result: Loaded, docs: map<string, Restaurant>)
      modifies this, adapter
      ensures result.Reviews? ==>
        allReviews == result.reviews &&
        restaurantMap == old(restaurantMap) + LookedUp(RestaurantIds(result.reviews), docs) &&
        adapter.reviews == Some(allReviews) && adapter.restaurantMap == restaurantMap &&
        emptyStateShown == (ItemCount(adapter.isLoading, Some(allReviews)) == 0)
      ensures result.LoadError? ==>
        allReviews == old(allReviews) && restaurantMap == old(restaurantMap) &&
        adapter.reviews == old(adapter.reviews) && emptyStateShown == old(emptyStateShown)
      ensures adapter.isLoading == old(adapter.isLoading)
      ensures !refreshing
    {
      if result.Reviews? {
        allReviews := result.reviews;
        LoadRestaurants(docs);
      }
      refreshing := false;
    }
  }

  /** The adapter never enters its loading mode on this screen, so the empty
      panel shows exactly when there are no reviews to show. */
  lemma EmptyStateIffNoReviews(reviews: seq<Review>)
    ensures (ItemCount(false, Some(reviews)) == 0) <==> reviews == []
  {
  }
}
