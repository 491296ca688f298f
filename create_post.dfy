/** CreatePostActivity.java: writing a post. The post's text is built from
    three star ratings and the quick-comment chips that are checked; the
    author's name comes from the `users` document; an optional photo is
    uploaded first; a restaurant can be picked from a searchable list.
    Every remote answer (the name lookup, the upload, the save, the
    restaurant query) is a parameter, and the clock is `now`. */
module CreatePost {
  import opened Common
  import opened Models

  const CATEGORY := "Restaurant Review"
  const ANONYMOUS := "Anonymous"
  /** `Activity.RESULT_OK`. */
  const RESULT_OK := -1

  // ---------------------------------------------------------------------
  // Quick comments

  /** The four quick-comment chips, in the order `getSelectedComments`
      reads them. */
  const QUICK_COMMENTS: seq<string> := ["Great food!", "Friendly staff.", "Cozy atmosphere.", "Would come again!"]

  datatype Chips = Chips(greatFood: bool, friendlyStaff: bool, cozyAtmosphere: bool, wouldComeAgain: bool)

  function IsChecked(c: Chips, k: int): bool
    requires 0 <= k < 4
  {
    [c.greatFood, c.friendlyStaff, c.cozyAtmosphere, c.wouldComeAgain][k]
  }

  /** The chip a comment belongs to: its place in QUICK_COMMENTS. */
  function Rank(s: string): int
  {
    if s == QUICK_COMMENTS[0] then 0
    else if s == QUICK_COMMENTS[1] then 1
    else if s == QUICK_COMMENTS[2] then 2
    else if s == QUICK_COMMENTS[3] then 3
    else 4
  }

  /** The comments of the checked chips from chip `k` on, in chip order. */
  function CommentsFrom(c: Chips, k: nat): seq<string>
    requires k <= 4
    decreases 4 - k
  {
    if k == 4 then []
    else (if IsChecked(c, k) then [QUICK_COMMENTS[k]] else []) + CommentsFrom(c, k + 1)
  }

  /** `getSelectedComments`: the text of every checked chip, in the fixed
      chip order. */
  function SelectedComments(c: Chips): seq<string>
  {
    CommentsFrom(c, 0)
  }

  /** Each chip's comment has that chip's rank. */
  lemma RankOfComment(k: int)
    requires 0 <= k < 4
    ensures Rank(QUICK_COMMENTS[k]) == k
  {
    assert QUICK_COMMENTS[0][0] == 'G' && QUICK_COMMENTS[1][0] == 'F';
    assert QUICK_COMMENTS[2][0] == 'C' && QUICK_COMMENTS[3][0] == 'W';
  }

  /** From chip `k` on, a chip's comment is collected exactly when the chip
      is checked, only comments of those chips are collected, and they come
      in chip order. */
  lemma {:induction false} CommentsFromSpec(c: Chips, k: nat)
    requires k <= 4
    ensures forall j :: 0 <= j < 4 ==> (QUICK_COMMENTS[j] in CommentsFrom(c, k) <==> k <= j && IsChecked(c, j))
    ensures forall s :: s in CommentsFrom(c, k) ==> k <= Rank(s) < 4 && s == QUICK_COMMENTS[Rank(s)]
    ensures forall i, j :: 0 <= i < j < |CommentsFrom(c, k)| ==>
      Rank(CommentsFrom(c, k)[i]) < Rank(CommentsFrom(c, k)[j])
    decreases 4 - k
  {
    if k < 4 {
      CommentsFromSpec(c, k + 1);
      var head: seq<string> := if IsChecked(c, k) then [QUICK_COMMENTS[k]] else [];
      var rest := CommentsFrom(c, k + 1);
      assert CommentsFrom(c, k) == head + rest;
      forall j | 0 <= j < 4
        ensures QUICK_COMMENTS[j] in head + rest <==> k <= j && IsChecked(c, j)
      {
        RankOfComment(j);
        RankOfComment(k);
      }
      forall s | s in head + rest
        ensures k <= Rank(s) < 4 && s == QUICK_COMMENTS[Rank(s)]
      {
        if s in head {
          RankOfComment(k);
        }
      }
      forall i, j | 0 <= i < j < |head + rest|
        ensures Rank((head + rest)[i]) < Rank((head + rest)[j])
      {
        if i >= |head| {
          assert (head + rest)[i] == rest[i - |head|] && (head + rest)[j] == rest[j - |head|];
        } else {
          RankOfComment(k);
          assert (head + rest)[j] == rest[j - |head|] && rest[j - |head|] in rest;
        }
      }
    }
  }

  /** A chip's comment is collected exactly when the chip is checked, only
      chip comments are collected, and they come in chip order, each once. */
  lemma SelectedCommentsSpec(c: Chips)
    ensures forall k :: 0 <= k < 4 ==> (QUICK_COMMENTS[k] in SelectedComments(c) <==> IsChecked(c, k))
    ensures forall s :: s in SelectedComments(c) ==> s in QUICK_COMMENTS
    ensures forall i, j :: 0 <= i < j < |SelectedComments(c)| ==>
      Rank(SelectedComments(c)[i]) < Rank(SelectedComments(c)[j])
  {
    CommentsFromSpec(c, 0);
  }

  // ---------------------------------------------------------------------
  // The post's text

  const HEADER := "Restaurant Review:\n\n"
  const COMMENTS_TITLE := "Comments:\n"

  /** One rating line; the rating is cut to a whole number. */
  function RatingLine(caption: string, rating: real): string
  {
    "⭐ " + caption + ": " + IntToString(TruncToInt(rating)) + "/5\n"
  }

  /** The header and the three rating lines, then an empty line. */
  function Summary(ambiance: real, servingSpeed: real, foodQuality: real): string
  {
    HEADER + RatingLine("Ambiance", ambiance) + RatingLine("Serving Speed", servingSpeed) +
    RatingLine("Food Quality", foodQuality) + "\n"
  }

  function Bullet(comment: string): string { "• " + comment + "\n" }

  /** The bullet lines of the comments, in order. */
  function Bullets(comments: seq<string>): string
  {
    if comments == [] then []
    else Bullets(comments[..|comments| - 1]) + Bullet(comments[|comments| - 1])
  }

  /** What `buildContentFromComments` returns: the summary, then, when any
      chip was checked, a "Comments:" line and one bullet per comment. */
  function Content(comments: seq<string>, ambiance: real, servingSpeed: real, foodQuality: real): string
  {
    Summary(ambiance, servingSpeed, foodQuality) +
    (if comments == [] then "" else COMMENTS_TITLE + Bullets(comments))
  }

  /** `buildContentFromComments`, appending to a builder. */
  method BuildContentFromComments(comments: seq<string>, ambiance: real, servingSpeed: real, foodQuality: real)
    returns (content: string)
    ensures content == Content(comments, ambiance, servingSpeed, foodQuality)
  {
    content := HEADER + RatingLine("Ambiance", ambiance) + RatingLine("Serving Speed", servingSpeed) +
      RatingLine("Food Quality", foodQuality) + "\n";
    if comments != [] {
      content := AppendBullets(content + COMMENTS_TITLE, comments);
    }
  }

  /** The comment loop: one bullet line per comment, in order. */
  method AppendBullets(prefix: string, comments: seq<string>) returns (content: string)
    ensures content == prefix + Bullets(comments)
  {
    content := prefix;
    var i := 0;
    while i < |comments|
      invariant 0 <= i <= |comments|
      invariant content == prefix + Bullets(comments[..i])
    {
      assert comments[..i + 1][..i] == comments[..i];
      content := content + Bullet(comments[i]);
      i := i + 1;
    }
    assert comments[..i] == comments;
  }

  /** The text up to the first line break. */
  function UntilNewline(s: string): (r: string)
    ensures r <= s && '\n' !in r
    ensures |r| < |s| ==> s[|r|] == '\n'
  {
    if s == [] || s[0] == '\n' then [] else [s[0]] + UntilNewline(s[1..])
  }

  /** Reads bullet lines back: one comment per line, without its bullet. */
  function ReadBullets(s: string): seq<string>
    decreases |s|
  {
    if s == [] then []
    else
      var line := UntilNewline(s);
      var text := if |line| >= 2 && line[..2] == "• " then line[2..] else line;
      if |line| < |s| then [text] + ReadBullets(s[|line| + 1..]) else [text]
  }

  /** The comment section read back: the bullets after the "Comments:" line. */
  function ReadComments(section: string): seq<string>
  {
    if |section| >= |COMMENTS_TITLE| && section[..|COMMENTS_TITLE|] == COMMENTS_TITLE
    then ReadBullets(section[|COMMENTS_TITLE|..])
    else []
  }

  /** A line ends at its own line break when it holds no other. */
  lemma FirstLine(line: string, rest: string)
    requires '\n' !in line
    ensures UntilNewline(line + "\n" + rest) == line
  {
    var s := line + "\n" + rest;
    assert s[|line|] == '\n';
    assert forall i :: 0 <= i < |line| ==> s[i] == line[i];
  }

  /** The bullets of a list are its first bullet, then the rest's. */
  lemma {:induction false} BulletsFront(comments: seq<string>)
    requires comments != []
    ensures Bullets(comments) == Bullet(comments[0]) + Bullets(comments[1..])
  {
    if |comments| > 1 {
      var init := comments[..|comments| - 1];
      BulletsFront(init);
      assert init[1..] == comments[1..][..|comments[1..]| - 1];
    } else {
      assert comments[1..] == [];
    }
  }

  /** Comments without line breaks are read back from their bullets. */
  lemma {:induction false} BulletsRoundTrip(comments: seq<string>)
    requires forall c :: c in comments ==> '\n' !in c
    ensures ReadBullets(Bullets(comments)) == comments
  {
    if comments != [] {
      BulletsFront(comments);
      var c := comments[0];
      var rest := Bullets(comments[1..]);
      assert Bullets(comments) == ("• " + c) + "\n" + rest;
      FirstLine("• " + c, rest);
      assert ("• " + c)[..2] == "• ";
      assert ("• " + c)[2..] == c;
      BulletsRoundTrip(comments[1..]);
      assert Bullets(comments)[|"• " + c| + 1..] == rest;
    }
  }

  /** The text starts with the summary, and the checked comments can be
      read back from what follows it. */
  lemma ContentRoundTrip(comments: seq<string>, ambiance: real, servingSpeed: real, foodQuality: real)
    requires forall c :: c in comments ==> '\n' !in c
    ensures Summary(ambiance, servingSpeed, foodQuality) <= Content(comments, ambiance, servingSpeed, foodQuality)
    ensures ReadComments(Content(comments, ambiance, servingSpeed, foodQuality)
                         [|Summary(ambiance, servingSpeed, foodQuality)|..]) == comments
  {
    var summary := Summary(ambiance, servingSpeed, foodQuality);
    var content := Content(comments, ambiance, servingSpeed, foodQuality);
    if comments != [] {
      var section := COMMENTS_TITLE + Bullets(comments);
      assert content[|summary|..] == section;
      assert section[|COMMENTS_TITLE|..] == Bullets(comments);
      BulletsRoundTrip(comments);
    } else {
      assert content[|summary|..] == [];
    }
  }

  /** A rating of the bar's range 0 to 5 is shown as the single digit of
      its whole part: 4.5 stars read "4/5". */
  lemma RatingShownTruncated(caption: string, rating: real)
    requires 0.0 <= rating <= 5.0
    ensures RatingLine(caption, rating) == "⭐ " + caption + ": " + [Digit(rating.Floor)] + "/5\n"
  {
  }

  /** The chips' comments hold no line break, so they always read back. */
  lemma ChipCommentsReadBack(c: Chips, ambiance: real, servingSpeed: real, foodQuality: real)
    ensures ReadComments(Content(SelectedComments(c), ambiance, servingSpeed, foodQuality)
                         [|Summary(ambiance, servingSpeed, foodQuality)|..]) == SelectedComments(c)
  {
    var cs := SelectedComments(c);
    assert forall s :: s in cs ==> s in QUICK_COMMENTS;
    assert forall k :: 0 <= k < |QUICK_COMMENTS| ==> '\n' !in QUICK_COMMENTS[k];
    ContentRoundTrip(SelectedComments(c), ambiance, servingSpeed, foodQuality);
  }

  // ---------------------------------------------------------------------
  // The author's name and the post

  /** The e-mail fallback: the part before '@', or "Anonymous" without an
      e-mail; None where `split` leaves no part and indexing it throws. */
  function FallbackName(email: Option<string>): (r: Option<string>)
    ensures email.None? ==> r == Some(ANONYMOUS)
    ensures email.Some? ==> r == EmailPrefix(email.value)
  {
    if email.None? then Some(ANONYMOUS) else EmailPrefix(email.value)
  }

  /** The name the post carries. `stored` is the lookup's answer: the
      `name` of an existing document, None for a missing document or name,
      or a failure. */
  function Username(stored: Result<Option<string>>, email: Option<string>): (r: Option<string>)
    ensures stored.Success? && stored.value.Some? ==> r == stored.value
    ensures !(stored.Success? && stored.value.Some?) ==> r == FallbackName(email)
  {
    if stored.Success? && stored.value.Some? then stored.value else FallbackName(email)
  }

  /** A failed lookup falls back exactly as a missing name does. */
  lemma FailedLookupFallsBack(error: string, email: Option<string>)
    ensures Username(Failure(error), email) == Username(Success(None), email)
  {
  }

  /** The fallback name never holds an '@' and starts the e-mail. */
  lemma FallbackIsEmailStart(email: string)
    requires FallbackName(Some(email)).Some?
    ensures '@' !in FallbackName(Some(email)).value && FallbackName(Some(email)).value <= email
  {
  }

  /** The post `createPost` builds: title, text, author and time, no likes
      and no comments, in the "Restaurant Review" category. */
  function NewPost(title: string, content: string, username: string, uid: string, now: Long): (p: Post)
    ensures p.title == Some(title) && p.content == Some(content)
    ensures p.username == Some(username) && p.userId == Some(uid) && p.timestamp == Some(now)
    ensures p.likesCount == 0 && p.commentsCount == 0 && p.category == Some(CATEGORY)
    ensures p.postId.None? && p.coverImageUrl.None?
    ensures p.restaurantId.None? && p.restaurantName.None? && p.restaurantAddress.None?
  {
    EmptyPost.(title := Some(title), content := Some(content), username := Some(username),
               userId := Some(uid), timestamp := Some(now), likesCount := 0, commentsCount := 0,
               category := Some(CATEGORY))
  }

  /** `savePostToFirestore`: the cover is set only for a URL, and the three
      restaurant fields only when a restaurant was picked. */
  function ToSave(post: Post, imageUrl: Option<string>, restaurant: Option<Restaurant>): (p: Post)
    ensures imageUrl.Some? ==> p.coverImageUrl == imageUrl
    ensures imageUrl.None? ==> p.coverImageUrl == post.coverImageUrl
    ensures restaurant.Some? ==>
      (p.restaurantId == restaurant.value.id && p.restaurantName == restaurant.value.name &&
       p.restaurantAddress == restaurant.value.address)
    ensures restaurant.None? ==>
      (p.restaurantId == post.restaurantId && p.restaurantName == post.restaurantName &&
       p.restaurantAddress == post.restaurantAddress)
    ensures p.(coverImageUrl := post.coverImageUrl, restaurantId := post.restaurantId,
               restaurantName := post.restaurantName, restaurantAddress := post.restaurantAddress) == post
  {
    var withImage := if imageUrl.Some? then post.(coverImageUrl := imageUrl) else post;
    if restaurant.Some? then
      withImage.(restaurantId := restaurant.value.id, restaurantName := restaurant.value.name,
                 restaurantAddress := restaurant.value.address)
    else withImage
  }

  // ---------------------------------------------------------------------
  // Restaurant search

  /** A document of the `restaurants` collection with its object. */
  datatype RestaurantDoc = RestaurantDoc(id: string, restaurant: Restaurant)

  function WithIds(docs: seq<RestaurantDoc>): (r: seq<Restaurant>)
    ensures |r| == |docs|
    ensures forall i :: 0 <= i < |docs| ==> r[i] == docs[i].restaurant.(id := Some(docs[i].id))
  {
    seq(|docs|, i requires 0 <= i < |docs| => docs[i].restaurant.(id := Some(docs[i].id)))
  }

  /** The filter of `loadRestaurants` for an already trimmed query: an empty
      query keeps every restaurant; otherwise the lower-cased name is tried,
      then the lower-cased address. None is the NullPointerException a
      missing name, or a missing address after a name that does not match,
      raises; nothing catches it, so it ends the app. */
  function SearchMatch(r: Restaurant, query: string): (m: Option<bool>)
    ensures m.None? <==>
      query != [] && (r.name.None? || (!Contains(Lower(r.name.value), Lower(query)) && r.address.None?))
    ensures m == Some(true) <==>
      query == [] || FieldMatches(r.name, Lower(query)) ||
      (r.name.Some? && FieldMatches(r.address, Lower(query)))
  {
    if query == [] then Some(true)
    else if r.name.None? then None
    else if Contains(Lower(r.name.value), Lower(query)) then Some(true)
    else if r.address.None? then None
    else Some(Contains(Lower(r.address.value), Lower(query)))
  }

  function Matches(query: string): Restaurant -> bool
  {
    (r: Restaurant) => SearchMatch(r, query) == Some(true)
  }

  /** The list the dialog shows, or None when the filter throws on some
      restaurant and the app crashes. */
  function SearchResults(rs: seq<Restaurant>, query: string): (r: Option<seq<Restaurant>>)
    ensures r.None? <==> exists i :: 0 <= i < |rs| && SearchMatch(rs[i], query).None?
    ensures r.Some? ==> r.value == Keep(rs, Matches(query))
  {
    if rs == [] then Some([])
    else
      var init := rs[..|rs| - 1];
      var prev := SearchResults(init, query);
      var m := SearchMatch(rs[|rs| - 1], query);
      assert forall i :: 0 <= i < |init| ==> init[i] == rs[i];
      if prev.None? || m.None? then None
      else Some(prev.value + (if m.value then [rs[|rs| - 1]] else []))
  }

  /** One more restaurant filtered. */
  lemma SearchStep(rs: seq<Restaurant>, i: int, query: string)
    requires 0 <= i < |rs|
    ensures SearchResults(rs[..i + 1], query) ==
      var prev := SearchResults(rs[..i], query);
      var m := SearchMatch(rs[i], query);
      if prev.None? || m.None? then None else Some(prev.value + (if m.value then [rs[i]] else []))
  {
    assert rs[..i + 1][..i] == rs[..i];
  }

  /** An empty query shows every restaurant, in order. */
  lemma EmptyQueryKeepsAll(rs: seq<Restaurant>)
    ensures SearchResults(rs, "") == Some(rs)
  {
    KeepAll(rs, Matches(""));
  }

  /** When every restaurant has a name and an address nothing throws, and a
      restaurant is shown exactly when its name or its address contains the
      query, ignoring case. */
  lemma SearchSpec(rs: seq<Restaurant>, query: string, x: Restaurant)
    requires query != []
    requires forall i :: 0 <= i < |rs| ==> rs[i].name.Some? && rs[i].address.Some?
    ensures SearchResults(rs, query).Some?
    ensures x in SearchResults(rs, query).value <==>
      x in rs && (FieldMatches(x.name, Lower(query)) || FieldMatches(x.address, Lower(query)))
  {
    KeepMembers(rs, Matches(query), x);
  }

  /** The loop of `loadRestaurants`: each document gets its id, then the
      filter; None is the first exception, which escapes the listener. */
  method FilterRestaurants(docs: seq<RestaurantDoc>, query: string) returns (r: Option<seq<Restaurant>>)
    ensures r == SearchResults(WithIds(docs), query)
  {
    var rs := WithIds(docs);
    var kept: seq<Restaurant> := [];
    var i := 0;
    while i < |docs|
      invariant 0 <= i <= |docs|
      invariant SearchResults(rs[..i], query) == Some(kept)
    {
      SearchStep(rs, i, query);
      var restaurant := docs[i].restaurant.(id := Some(docs[i].id));
      assert restaurant == rs[i];
      var m := SearchMatch(restaurant, query);
      if m.None? {
        assert SearchMatch(rs[i], query).None?;
        return None;
      }
      if m.value {
        kept := kept + [restaurant];
      } else {
        assert kept + [] == kept;
      }
      i := i + 1;
    }
    assert rs[..i] == rs;
    return Some(kept);
  }

  // ---------------------------------------------------------------------
  // The screen

  /** The form: the title text, the three rating bars, the chips, the
      picked photo and the picked restaurant. */
  datatype Draft = Draft(title: string, ambiance: real, servingSpeed: real, foodQuality: real,
                         chips: Chips, image: Option<string>, restaurant: Option<Restaurant>)

  function DraftContent(d: Draft): string
  {
    Content(SelectedComments(d.chips), d.ambiance, d.servingSpeed, d.foodQuality)
  }

  /** `getSelectedComments` then `buildContentFromComments` on the form. */
  method DraftText(d: Draft) returns (content: string)
    ensures content == DraftContent(d)
  {
    var comments := SelectedComments(d.chips);
    content := BuildContentFromComments(comments, d.ambiance, d.servingSpeed, d.foodQuality);
  }

  /** How the photo upload ends. A failed URL request has no listener. */
  datatype ImageUpload = ImageUploaded(url: string) | ImageUploadFailed | ImageUrlFailed

  /** How a tap on Post ends: no title; no user (the screen closes); the
      name fallback threw; the photo could not be uploaded; its URL never
      came; or the post was handed to the `posts` collection. */
  datatype PostOutcome = NoTitle | NotSignedIn | Crashed | ImageFailed | ImageUrlLost | Sent(post: Post)

  datatype PostUser = PostUser(uid: string, email: Option<string>)

  /** What a tap on Post leads to. */
  function Creation(d: Draft, user: Option<PostUser>, stored: Result<Option<string>>,
                    upload: ImageUpload, now: Long): PostOutcome
  {
    if JavaTrim(d.title) == [] then NoTitle
    else Titled(JavaTrim(d.title), DraftContent(d), d, user, stored, upload, now)
  }

  /** What a tap leads to once the title and the text are known. */
  function Titled(title: string, content: string, d: Draft, user: Option<PostUser>,
                  stored: Result<Option<string>>, upload: ImageUpload, now: Long): PostOutcome
  {
    if user.None? then NotSignedIn
    else Posting(title, content, d, user.value, stored, upload, now)
  }

  /** What the name lookup's listener leads to, for a title and a text. */
  function Posting(title: string, content: string, d: Draft, user: PostUser, stored: Result<Option<string>>,
                   upload: ImageUpload, now: Long): PostOutcome
  {
    var name := Username(stored, user.email);
    if name.None? then Crashed
    else
      var post := NewPost(title, content, name.value, user.uid, now);
      if d.image.None? then Sent(ToSave(post, None, d.restaurant))
      else match upload
        case ImageUploaded(url) => Sent(ToSave(post, Some(url), d.restaurant))
        case ImageUploadFailed => ImageFailed
        case ImageUrlFailed => ImageUrlLost
  }

  /** A post is sent only with a non-blank title and a signed-in user; it
      carries the trimmed title, the built text, the user, no likes and no
      comments, the uploaded photo exactly when one was picked, and the
      picked restaurant. */
  lemma CreationSpec(d: Draft, user: Option<PostUser>, stored: Result<Option<string>>,
                     upload: ImageUpload, now: Long)
    ensures Creation(d, user, stored, upload, now) == NoTitle <==> JavaTrim(d.title) == []
    ensures Creation(d, user, stored, upload, now).Sent? ==>
      (var p := Creation(d, user, stored, upload, now).post;
       JavaTrim(d.title) != [] && user.Some? &&
       p.title == Some(JavaTrim(d.title)) && p.content == Some(DraftContent(d)) &&
       p.userId == Some(user.value.uid) && p.username == Username(stored, user.value.email) &&
       p.timestamp == Some(now) && p.likesCount == 0 && p.commentsCount == 0 &&
       p.category == Some(CATEGORY) &&
       (d.image.None? ==> p.coverImageUrl.None?) &&
       (d.image.Some? ==> upload.ImageUploaded? && p.coverImageUrl == Some(upload.url)) &&
       (d.restaurant.Some? ==> p.restaurantId == d.restaurant.value.id) &&
       (d.restaurant.None? ==> p.restaurantId.None?))
  {
  }

  class CreatePostScreen {
    var draft: Draft
    var postEnabled: bool
    var finished: bool
    var searchResults: seq<Restaurant>
    var noResultsShown: bool

    /** `onCreate`: an empty form, the Post button enabled. */
    constructor ()
      ensures draft == Draft("", 0.0, 0.0, 0.0, Chips(false, false, false, false), None, None)
      ensures postEnabled && !finished && searchResults == [] && !noResultsShown
    {
      draft := Draft("", 0.0, 0.0, 0.0, Chips(false, false, false, false), None, None);
      postEnabled := true;
      finished := false;
      searchResults := [];
      noResultsShown := false;
    }

    /** The picker's callback: an OK answer with data sets the photo to its
      URI, which may be null; any other answer keeps the photo. */
    method OnImagePicked(resultCode: int, data: Option<Option<string>>)
      modifies this
      ensures resultCode == RESULT_OK && data.Some? ==> draft == old(draft).(image := data.value)
      ensures !(resultCode == RESULT_OK && data.Some?) ==> draft == old(draft)
      ensures postEnabled == old(postEnabled) && finished == old(finished)
      ensures searchResults == old(searchResults) && noResultsShown == old(noResultsShown)
    {
      if resultCode == RESULT_OK && data.Some? {
        draft := draft.(image := data.value);
      }
    }

    /** A tap on a search result picks that restaurant. */
    method OnRestaurantClicked(r: Restaurant)
      modifies this
      ensures draft == old(draft).(restaurant := Some(r))
      ensures postEnabled == old(postEnabled) && finished == old(finished)
      ensures searchResults == old(searchResults) && noResultsShown == old(noResultsShown)
    {
      draft := draft.(restaurant := Some(r));
    }

    /** `loadRestaurants` for a trimmed query: the filtered list replaces the
        shown one and the "no results" text shows exactly when it is empty;
        a failed query leaves both. A filter that throws crashes the app,
        since the success listener catches nothing: `crashed` says so, and
        the screen keeps what it showed until then. */
    method LoadRestaurants(query: string, answer: Result<seq<RestaurantDoc>>) returns (crashed: bool)
      modifies this
      ensures crashed <==> answer.Success? && SearchResults(WithIds(answer.value), query).None?
      ensures answer.Success? && SearchResults(WithIds(answer.value), query).Some? ==>
        (searchResults == SearchResults(WithIds(answer.value), query).value &&
         noResultsShown == (searchResults == []))
      ensures !(answer.Success? && SearchResults(WithIds(answer.value), query).Some?) ==>
        searchResults == old(searchResults) && noResultsShown == old(noResultsShown)
      ensures draft == old(draft) && postEnabled == old(postEnabled) && finished == old(finished)
    {
      crashed := false;
      if answer.Success? {
        var found := FilterRestaurants(answer.value, query);
        if found.None? {
          crashed := true;
          return;
        }
        searchResults := found.value;
        noResultsShown := found.value == [];
      }
    }

    /** The search box's watcher: the text is trimmed, then searched for. */
    method OnSearchTextChanged(text: string, answer: Result<seq<RestaurantDoc>>) returns (crashed: bool)
      modifies this
      ensures crashed <==> answer.Success? && SearchResults(WithIds(answer.value), JavaTrim(text)).None?
      ensures answer.Success? && SearchResults(WithIds(answer.value), JavaTrim(text)).Some? ==>
        (searchResults == SearchResults(WithIds(answer.value), JavaTrim(text)).value &&
         noResultsShown == (searchResults == []))
      ensures !(answer.Success? && SearchResults(WithIds(answer.value), JavaTrim(text)).Some?) ==>
        searchResults == old(searchResults) && noResultsShown == old(noResultsShown)
      ensures draft == old(draft) && postEnabled == old(postEnabled) && finished == old(finished)
    {
      crashed := LoadRestaurants(JavaTrim(text), answer);
    }

    /** A tap on Post. `stored` is the name lookup's answer, `upload` how the
        photo's upload ends (read only when a photo was picked), `saved`
        whether the collection takes the post. The form is never cleared;
        the screen closes without a user or once the post is saved; the
        button stays disabled while an answer is missing or after a crash,
        and comes back after a failure. */
    method CreatePost(user: Option<PostUser>, stored: Result<Option<string>>, upload: ImageUpload,
                      saved: bool, now: Long) returns (outcome: PostOutcome)
      requires postEnabled
      modifies this
      ensures outcome == Creation(old(draft), user, stored, upload, now)
      ensures draft == old(draft)
      ensures searchResults == old(searchResults) && noResultsShown == old(noResultsShown)
      ensures finished <==> old(finished) || outcome.NotSignedIn? || (outcome.Sent? && saved)
      ensures postEnabled <==>
        outcome.NoTitle? || outcome.NotSignedIn? || outcome.ImageFailed? || (outcome.Sent? && !saved)
    {
      var title := JavaTrim(draft.title);
      if title == [] {
        return NoTitle;
      }
      var content := DraftText(draft);
      outcome := PostTitled(title, content, user, stored, upload, saved, now);
    }

    /** `createPost` once the title and the text are known: the user is
        checked, the button disabled and the name looked up. */
    method PostTitled(title: string, content: string, user: Option<PostUser>, stored: Result<Option<string>>,
                      upload: ImageUpload, saved: bool, now: Long) returns (outcome: PostOutcome)
      requires postEnabled
      modifies this
      ensures outcome == Titled(title, content, old(draft), user, stored, upload, now) && !outcome.NoTitle?
      ensures draft == old(draft)
      ensures searchResults == old(searchResults) && noResultsShown == old(noResultsShown)
      ensures finished <==> old(finished) || outcome.NotSignedIn? || (outcome.Sent? && saved)
      ensures postEnabled <==> outcome.NotSignedIn? || outcome.ImageFailed? || (outcome.Sent? && !saved)
    {
      if user.None? {
        finished := true;
        return NotSignedIn;
      }
      postEnabled := false;
      outcome := OnUserLookedUp(title, content, user.value, stored, upload, saved, now);
    }

    /** The name lookup's listeners (success and failure alike): the post is
        built with the name or its fallback, then the photo, if any, is
        uploaded and the post saved. */
    method OnUserLookedUp(title: string, content: string, user: PostUser, stored: Result<Option<string>>,
                          upload: ImageUpload, saved: bool, now: Long) returns (outcome: PostOutcome)
      requires !postEnabled
      modifies this
      ensures outcome == Posting(title, content, old(draft), user, stored, upload, now)
      ensures !outcome.NoTitle? && !outcome.NotSignedIn?
      ensures draft == old(draft)
      ensures searchResults == old(searchResults) && noResultsShown == old(noResultsShown)
      ensures finished <==> old(finished) || (outcome.Sent? && saved)
      ensures postEnabled <==> outcome.ImageFailed? || (outcome.Sent? && !saved)
    {
      var name := Username(stored, user.email);
      if name.None? {
        return Crashed;
      }
      var post := NewPost(title, content, name.value, user.uid, now);
      if draft.image.Some? {
        outcome := UploadImageAndCreatePost(post, upload, saved);
      } else {
        outcome := SavePostToFirestore(post, None, saved);
      }
    }

    /** `uploadImageAndCreatePost`: the post is saved with the photo's URL
        once it comes; a failed upload re-enables the button; a failed URL
        request is heard by no one. */
    method UploadImageAndCreatePost(post: Post, upload: ImageUpload, saved: bool) returns (outcome: PostOutcome)
      modifies this
      ensures upload.ImageUploaded? ==> outcome == Sent(ToSave(post, Some(upload.url), draft.restaurant))
      ensures upload.ImageUploadFailed? ==> outcome == ImageFailed
      ensures upload.ImageUrlFailed? ==> outcome == ImageUrlLost
      ensures draft == old(draft)
      ensures searchResults == old(searchResults) && noResultsShown == old(noResultsShown)
      ensures finished <==> old(finished) || (outcome.Sent? && saved)
      ensures (outcome.Sent? && saved) || outcome.ImageUrlLost? ==> postEnabled == old(postEnabled)
      ensures (outcome.Sent? && !saved) || outcome.ImageFailed? ==> postEnabled
    {
      match upload {
        case ImageUploaded(url) =>
          outcome := SavePostToFirestore(post, Some(url), saved);
        case ImageUploadFailed =>
          postEnabled := true;
          outcome := ImageFailed;
        case ImageUrlFailed =>
          outcome := ImageUrlLost;
      }
    }

    /** `savePostToFirestore`: the post with its cover and restaurant is
        added; once saved the screen closes, after a failure the button
        comes back. */
    method SavePostToFirestore(post: Post, imageUrl: Option<string>, saved: bool) returns (outcome: PostOutcome)
      modifies this
      ensures outcome == Sent(ToSave(post, imageUrl, draft.restaurant))
      ensures draft == old(draft)
      ensures searchResults == old(searchResults) && noResultsShown == old(noResultsShown)
      ensures saved ==> finished && postEnabled == old(postEnabled)
      ensures !saved ==> postEnabled && finished == old(finished)
    {
      outcome := Sent(ToSave(post, imageUrl, draft.restaurant));
      if saved {
        finished := true;
      } else {
        postEnabled := true;
      }
    }
  }
}
