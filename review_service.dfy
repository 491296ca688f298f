/** service/ReviewService.java: reading the `reviews` collection, the
    client-side review search, and the field map a new review is saved as.
    Firestore documents are field maps; the query's answer is a parameter. */
module ReviewStore {
  import opened Common
  import opened Models
  import opened ReviewData

  // ---------------------------------------------------------------------
  // Documents

  /** A stored field value. */
  datatype Value =
    | VNull
    | VString(s: string)
    | VNumber(x: real)
    | VStrings(items: seq<string>)
    | VTime(t: Long)
    | VVotes(votes: Votes)
    | VComments(comments: seq<ReviewComment>)

  type Fields = map<string, Value>

  /** A document of the collection: its id and its fields. */
  datatype Doc = Doc(id: string, fields: Fields)

  /** The answer a load passes to its callback. */
  datatype Loaded = Reviews(reviews: seq<Review>) | LoadError(message: string)

  function Str(v: Option<string>): Value { if v.None? then VNull else VString(v.value) }
  function Strs(v: Option<seq<string>>): Value { if v.None? then VNull else VStrings(v.value) }
  function Time(v: Option<Long>): Value { if v.None? then VNull else VTime(v.value) }
  function VoteMap(v: Option<Votes>): Value { if v.None? then VNull else VVotes(v.value) }
  function CommentList(v: Option<seq<ReviewComment>>): Value { if v.None? then VNull else VComments(v.value) }

  const SavedKeys: set<string> := {"userId", "restaurantId", "caption", "description", "rating",
    "accuracyPercent", "imageUrls", "firstImageType", "createdAt", "votes", "comments"}

  /** `saveReview`'s field map: exactly eleven fields, the author's and the
      restaurant's names never among them. */
  function ReviewFields(r: Review): (m: Fields)
    ensures m.Keys == SavedKeys
    ensures "userName" !in m && "restaurantName" !in m && "id" !in m
    ensures m["rating"] == VNumber(r.rating) && m["accuracyPercent"] == VNumber(r.accuracyPercent)
  {
    map["userId" := Str(r.userId),
        "restaurantId" := Str(r.restaurantId),
        "caption" := Str(r.caption),
        "description" := Str(r.description),
        "rating" := VNumber(r.rating),
        "accuracyPercent" := VNumber(r.accuracyPercent),
        "imageUrls" := Strs(r.imageUrls),
        "firstImageType" := Str(r.firstImageType),
        "createdAt" := Time(r.createdAt),
        "votes" := VoteMap(r.votes),
        "comments" := CommentList(r.comments)]
  }

  /** A number Firestore converts to a Java `int`: one inside the 32-bit
      range, which it then truncates toward zero. */
  predicate IntRange(x: real)
  {
    -2147483648.0 <= x <= 2147483647.0
  }

  /** Whether `toObject` can map a value to the property of that name, the
      bean's setters included: a reference property takes its kind or null,
      a `float` or `double` a number, an `int` a number in its range. Names
      the class does not have are ignored. */
  predicate Fits(key: string, v: Value)
  {
    if key in {"id", "userId", "userName", "restaurantId", "restaurantName", "caption", "description", "firstImageType"}
    then v.VString? || v.VNull?
    else if key in {"rating", "accuracyPercent"} then v.VNumber?
    else if key in {"accuracy", "helpfulCount"} then v.VNumber? && IntRange(v.x)
    else if key == "imageUrls" then v.VStrings? || v.VNull?
    else if key in {"createdAt", "updatedAt"} then v.VTime? || v.VNull?
    else if key == "votes" then v.VVotes? || v.VNull?
    else if key == "comments" then v.VComments? || v.VNull?
    else true
  }

  /** `toObject` succeeds. */
  predicate Parses(d: Doc)
  {
    forall k :: k in d.fields ==> Fits(k, d.fields[k])
  }

  function StrAt(m: Fields, k: string): Option<string>
  {
    if k in m && m[k].VString? then Some(m[k].s) else None
  }

  function NumAt(m: Fields, k: string): real
  {
    if k in m && m[k].VNumber? then m[k].x else 0.0
  }

  function IntAt(m: Fields, k: string): int
  {
    if k in m && m[k].VNumber? then TruncToInt(m[k].x) else 0
  }

  function TimeAt(m: Fields, k: string): Option<Long>
  {
    if k in m && m[k].VTime? then Some(m[k].t) else None
  }

  /** `toObject` followed by `setId(document.getId())`: a missing field keeps
      the value `new Review()` gives it. */
  function ReviewOf(d: Doc): (r: Review)
    ensures r.id == Some(d.id)
    ensures Parses(d) ==> -0x8000_0000 <= r.accuracy < 0x8000_0000 && -0x8000_0000 <= r.helpfulCount < 0x8000_0000
  {
    var m := d.fields;
    EmptyReview.(
      id := Some(d.id),
      userId := StrAt(m, "userId"),
      userName := StrAt(m, "userName"),
      restaurantId := StrAt(m, "restaurantId"),
      restaurantName := StrAt(m, "restaurantName"),
      caption := StrAt(m, "caption"),
      description := StrAt(m, "description"),
      rating := NumAt(m, "rating"),
      accuracy := IntAt(m, "accuracy"),
      accuracyPercent := NumAt(m, "accuracyPercent"),
      imageUrls := if "imageUrls" in m && m["imageUrls"].VStrings? then Some(m["imageUrls"].items) else None,
      firstImageType := StrAt(m, "firstImageType"),
      createdAt := TimeAt(m, "createdAt"),
      updatedAt := TimeAt(m, "updatedAt"),
      helpfulCount := IntAt(m, "helpfulCount"),
      votes := if "votes" in m && m["votes"].VVotes? then Some(m["votes"].votes) else None,
      comments := if "comments" in m && m["comments"].VComments? then Some(m["comments"].comments) else None)
  }

  /** A saved review reads back as itself, with the document's id and
      without the fields the map leaves out. */
  lemma SaveThenRead(r: Review, id: string)
    ensures Parses(Doc(id, ReviewFields(r)))
    ensures ReviewOf(Doc(id, ReviewFields(r))) ==
      r.(id := Some(id), userName := None, restaurantName := None,
         accuracy := 0, updatedAt := None, helpfulCount := 0)
  {
    SavedFieldsFit(r);
    SavedValues(r);
    ReadBack(ReviewFields(r), r, id);
  }

  /** Any field map holding the saved values and none of the other
      properties reads back as the review. */
  lemma ReadBack(m: Fields, r: Review, id: string)
    requires "userName" !in m && "restaurantName" !in m && "accuracy" !in m && "updatedAt" !in m && "helpfulCount" !in m
    requires "userId" in m && m["userId"] == Str(r.userId) && "restaurantId" in m && m["restaurantId"] == Str(r.restaurantId)
    requires "caption" in m && m["caption"] == Str(r.caption) && "description" in m && m["description"] == Str(r.description)
    requires "rating" in m && m["rating"] == VNumber(r.rating)
    requires "accuracyPercent" in m && m["accuracyPercent"] == VNumber(r.accuracyPercent)
    requires "imageUrls" in m && m["imageUrls"] == Strs(r.imageUrls)
    requires "firstImageType" in m && m["firstImageType"] == Str(r.firstImageType)
    requires "createdAt" in m && m["createdAt"] == Time(r.createdAt)
    requires "votes" in m && m["votes"] == VoteMap(r.votes) && "comments" in m && m["comments"] == CommentList(r.comments)
    ensures ReviewOf(Doc(id, m)) ==
      r.(id := Some(id), userName := None, restaurantName := None,
         accuracy := 0, updatedAt := None, helpfulCount := 0)
  {
  }

  /** What each key of a saved map holds, and the properties it leaves out. */
  lemma SavedValues(r: Review)
    ensures var m := ReviewFields(r);
      "userName" !in m && "restaurantName" !in m && "accuracy" !in m && "updatedAt" !in m && "helpfulCount" !in m &&
      "userId" in m && "restaurantId" in m && "caption" in m && "description" in m && "rating" in m &&
      "accuracyPercent" in m && "imageUrls" in m && "firstImageType" in m && "createdAt" in m &&
      "votes" in m && "comments" in m &&
      m["userId"] == Str(r.userId) && m["restaurantId"] == Str(r.restaurantId) &&
      m["caption"] == Str(r.caption) && m["description"] == Str(r.description) &&
      m["rating"] == VNumber(r.rating) && m["accuracyPercent"] == VNumber(r.accuracyPercent) &&
      m["imageUrls"] == Strs(r.imageUrls) && m["firstImageType"] == Str(r.firstImageType) &&
      m["createdAt"] == Time(r.createdAt) && m["votes"] == VoteMap(r.votes) && m["comments"] == CommentList(r.comments)
  {
  }

  /** Every value of a saved map fits its property. */
  lemma SavedFieldsFit(r: Review)
    ensures forall k :: k in ReviewFields(r) ==> Fits(k, ReviewFields(r)[k])
  {
    var m := ReviewFields(r);
    forall k | k in m
      ensures Fits(k, m[k])
    {
      assert k in SavedKeys;
      if k == "rating" || k == "accuracyPercent" {
      } else if k == "imageUrls" {
      } else if k == "createdAt" {
      } else if k == "votes" {
      } else if k == "comments" {
      } else {
        assert k in {"userId", "restaurantId", "caption", "description", "firstImageType"};
      }
    }
  }

  /** The properties `saveReview` never writes are still read when a
      document holds them; an `int` is truncated toward zero. */
  lemma UnsavedPropertiesRead()
    ensures var d := Doc("r", map["helpfulCount" := VNumber(3.0), "accuracy" := VNumber(-2.5)]);
      Parses(d) && ReviewOf(d).helpfulCount == 3 && ReviewOf(d).accuracy == -2
  {
    var d := Doc("r", map["helpfulCount" := VNumber(3.0), "accuracy" := VNumber(-2.5)]);
    assert Fits("helpfulCount", VNumber(3.0)) && Fits("accuracy", VNumber(-2.5));
    assert forall k :: k in d.fields ==> Fits(k, d.fields[k]);
  }

  /** A value of the wrong kind, or an `int` out of range, under one of
      those properties makes `toObject` throw, so the document is skipped. */
  lemma MistypedUnsavedPropertySkipped()
    ensures !Parses(Doc("r", map["userName" := VNumber(1.0)]))
    ensures !Parses(Doc("r", map["helpfulCount" := VNumber(3000000000.0)]))
  {
    var bad := map["userName" := VNumber(1.0)];
    assert "userName" in bad && !Fits("userName", bad["userName"]);
    var big := map["helpfulCount" := VNumber(3000000000.0)];
    assert "helpfulCount" in big && !Fits("helpfulCount", big["helpfulCount"]);
  }

  function DocParses(): Doc -> bool { (d: Doc) => Parses(d) }

  /** The list `loadReviews` builds: the documents that parse, in the
      query's order, each as a review carrying its document's id. */
  function ReviewsOf(docs: seq<Doc>): (r: seq<Review>)
    ensures |r| == |Keep(docs, DocParses())|
    ensures forall i :: 0 <= i < |r| ==> r[i] == ReviewOf(Keep(docs, DocParses())[i])
  {
    var kept := Keep(docs, DocParses());
    seq(|kept|, i requires 0 <= i < |kept| => ReviewOf(kept[i]))
  }

  /** Each loaded review carries the id of a document that parses. */
  lemma LoadedIds(docs: seq<Doc>, i: int)
    requires 0 <= i < |ReviewsOf(docs)|
    ensures exists d :: d in docs && Parses(d) && ReviewsOf(docs)[i] == ReviewOf(d) && ReviewsOf(docs)[i].id == Some(d.id)
  {
    var kept := Keep(docs, DocParses());
    KeepMembers(docs, DocParses(), kept[i]);
  }

  /** The parse loop of `loadReviews`: a document that fails to parse is
      skipped. */
  method ParseDocs(docs: seq<Doc>) returns (reviews: seq<Review>)
    ensures reviews == ReviewsOf(docs)
  {
    reviews := [];
    var i := 0;
    while i < |docs|
      invariant 0 <= i <= |docs|
      invariant reviews == ReviewsOf(docs[..i])
    {
      KeepStep(docs, i, DocParses());
      if Parses(docs[i]) {
        reviews := reviews + [ReviewOf(docs[i])];
      }
      i := i + 1;
    }
    assert docs[..i] == docs;
  }

  /** `loadReviews`: the parsed documents, or the query's error unchanged. */
  method LoadReviews(answer: Result<seq<Doc>>) returns (r: Loaded)
    ensures answer.Failure? ==> r == LoadError(answer.error)
    ensures answer.Success? ==> r == Reviews(ReviewsOf(answer.value))
  {
    if answer.Failure? {
      return LoadError(answer.error);
    }
    var reviews := ParseDocs(answer.value);
    return Reviews(reviews);
  }

  /** `loadReviewsWithLimit`: the same over at most `limit` documents; a
      limit below one is refused by the query builder before any read. */
  method LoadReviewsWithLimit(limit: int, answer: Result<seq<Doc>>) returns (r: Option<Loaded>)
    ensures limit <= 0 <==> r.None?
    ensures limit > 0 && answer.Failure? ==> r == Some(LoadError(answer.error))
    ensures limit > 0 && answer.Success? ==>
      r == Some(Reviews(ReviewsOf(answer.value[..if |answer.value| < limit then |answer.value| else limit])))
    ensures r.Some? && r.value.Reviews? ==> |r.value.reviews| <= limit
  {
    if limit <= 0 {
      return None;
    }
    if answer.Failure? {
      return Some(LoadError(answer.error));
    }
    var n := if |answer.value| < limit then |answer.value| else limit;
    var reviews := ParseDocs(answer.value[..n]);
    return Some(Reviews(reviews));
  }

  // ---------------------------------------------------------------------
  // Search

  /** A review matches a lower-cased query when its description, caption or
      restaurant name contains it, ignoring case. */
  predicate ReviewMatches(r: Review, lowerQuery: string)
  {
    FieldMatches(r.description, lowerQuery) || FieldMatches(r.caption, lowerQuery) ||
    FieldMatches(r.restaurantName, lowerQuery)
  }

  function MatchesQuery(lowerQuery: string): Review -> bool
  {
    (r: Review) => ReviewMatches(r, lowerQuery)
  }

  /** The query as the searches compare it: lower-cased, then trimmed. */
  function LowerQuery(query: string): string
  {
    JavaTrim(Lower(query))
  }

  /** The search loop: each matching review appended. */
  method KeepMatching(all: seq<Review>, lowerQuery: string) returns (filtered: seq<Review>)
    ensures filtered == Keep(all, MatchesQuery(lowerQuery))
  {
    filtered := [];
    var i := 0;
    while i < |all|
      invariant 0 <= i <= |all|
      invariant filtered == Keep(all[..i], MatchesQuery(lowerQuery))
    {
      KeepStep(all, i, MatchesQuery(lowerQuery));
      if ReviewMatches(all[i], lowerQuery) {
        filtered := filtered + [all[i]];
      }
      i := i + 1;
    }
    assert all[..i] == all;
  }

  /** `searchReviews`: the loaded reviews that match, in order; a load error
      is passed on unchanged. */
  method SearchReviews(query: string, loaded: Loaded) returns (r: Loaded)
    ensures loaded.LoadError? ==> r == loaded
    ensures loaded.Reviews? ==> r == Reviews(Keep(loaded.reviews, MatchesQuery(LowerQuery(query))))
  {
    if loaded.LoadError? {
      return loaded;
    }
    var filtered := KeepMatching(loaded.reviews, LowerQuery(query));
    return Reviews(filtered);
  }

  /** A review is found exactly when it matches; the found ones keep their
      order. */
  lemma SearchSpec(reviews: seq<Review>, query: string, r: Review)
    ensures r in Keep(reviews, MatchesQuery(LowerQuery(query))) <==>
      r in reviews && ReviewMatches(r, LowerQuery(query))
  {
    KeepMembers(reviews, MatchesQuery(LowerQuery(query)), r);
  }

  /** Unlike the feed's own filter, a blank query does not keep everything:
      it keeps the reviews with at least one of the three fields present. */
  lemma BlankQueryNeedsAField(r: Review, query: string)
    requires LowerQuery(query) == []
    ensures ReviewMatches(r, LowerQuery(query)) <==>
      r.description.Some? || r.caption.Some? || r.restaurantName.Some?
  {
    if r.description.Some? { ContainsEmpty(Lower(r.description.value)); }
    if r.caption.Some? { ContainsEmpty(Lower(r.caption.value)); }
    if r.restaurantName.Some? { ContainsEmpty(Lower(r.restaurantName.value)); }
  }
}
