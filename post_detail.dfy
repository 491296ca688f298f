/** PostDetailActivity.java: one post with its likes and comments. The
    server's copy of the post document is a field of the screen; every
    Firestore read or write is a call whose outcome (`succeeded`) is a
    parameter, and the clock is `now`. */
module PostDetail {
  import opened Common
  import opened Models
  import opened Elapsed

  // ---------------------------------------------------------------------
  // Relative time

  /** `getTimeAgo` as written: whole days, hours or minutes, the first
      positive one; "Just now" otherwise. */
  function TimeAgo(time: Long, now: Long): string
  {
    var e := ElapsedOf(LongSub(now, time));
    if e.days > 0 then IntToString(e.days) + " days ago"
    else if e.hours > 0 then IntToString(e.hours) + " hours ago"
    else if e.minutes > 0 then IntToString(e.minutes) + " minutes ago"
    else "Just now"
  }

  /** The words for an age of at most days (always plural). */
  function AgeWords(a: Age): (r: string)
    requires !a.Months? && !a.Weeks?
    ensures a.Moment? ==> r == "Just now"
    ensures !a.Moment? ==> |r| >= 9 && r[|r| - 4..] == " ago"
  {
    match a
    case Days(n) => IntToString(n) + " days ago"
    case Hours(n) => IntToString(n) + " hours ago"
    case Minutes(n) => IntToString(n) + " minutes ago"
    case Moment => "Just now"
  }

  /** The text is the largest whole unit among days, hours and minutes. */
  lemma TimeAgoIsAge(time: Long, now: Long)
    ensures TimeAgo(time, now) == AgeWords(ShortAgeOf(LongSub(now, time)))
  {
    ShortCascadeIsAge(LongSub(now, time));
  }

  /** "Just now" exactly when less than a minute has passed (a time in the
      future included). */
  lemma JustNowBelowAMinute(time: Long, now: Long)
    ensures TimeAgo(time, now) == "Just now" <==> LongSub(now, time) < MINUTE
  {
    TimeAgoIsAge(time, now);
    var a := ShortAgeOf(LongSub(now, time));
    if !a.Moment? {
      var r := AgeWords(a);
      assert r[|r| - 4..] != "Just now"[4..];
    }
  }

  // ---------------------------------------------------------------------
  // Comment order

  /** Comment `a` may precede `b` in newest-first order with the undated
      comments last. */
  predicate Before(a: PostComment, b: PostComment)
  {
    b.timestamp.None? || (a.timestamp.Some? && a.timestamp.value >= b.timestamp.value)
  }

  /** The ordering of the two timestamps reversed, as `compareTo` gives it. */
  function CompareTimes(t1: Long, t2: Long): int
  {
    if t2 < t1 then -1 else if t2 == t1 then 0 else 1
  }

  /** The sort comparator as written: an undated first comment sorts after
      anything, even another undated one. */
  function CompareAsWritten(c1: PostComment, c2: PostComment): (r: int)
    ensures r in {-1, 0, 1}
    ensures c1.timestamp.None? ==> r == 1
  {
    if c1.timestamp.None? then 1
    else if c2.timestamp.None? then -1
    else CompareTimes(c1.timestamp.value, c2.timestamp.value)
  }

  /** Two undated comments each compare greater than the other, which
      breaks the `Comparator` contract sgn(compare(x, y)) == -sgn(compare(y, x)). */
  lemma AsWrittenNotAntisymmetric(c1: PostComment, c2: PostComment)
    requires c1.timestamp.None? && c2.timestamp.None?
    ensures CompareAsWritten(c1, c2) == 1 && CompareAsWritten(c2, c1) == 1
  {
  }

  /** The comparator with two undated comments equal. */
  function Compare(c1: PostComment, c2: PostComment): (r: int)
    ensures r in {-1, 0, 1}
    ensures r <= 0 <==> Before(c1, c2)
  {
    if c1.timestamp.None? && c2.timestamp.None? then 0
    else if c1.timestamp.None? then 1
    else if c2.timestamp.None? then -1
    else CompareTimes(c1.timestamp.value, c2.timestamp.value)
  }

  /** The corrected comparator keeps the contract: swapping the arguments
      negates the result, and `<= 0` is a total, transitive order. */
  lemma CompareContract(a: PostComment, b: PostComment, c: PostComment)
    ensures Compare(a, b) == -Compare(b, a)
    ensures Before(a, b) || Before(b, a)
    ensures Before(a, b) && Before(b, c) ==> Before(a, c)
  {
  }

  /** The two comparators differ only on a pair of undated comments, and
      agree on which comparisons are negative, the only thing an insertion
      step looks at. */
  lemma AsWrittenAgreesOnNegative(c1: PostComment, c2: PostComment)
    ensures CompareAsWritten(c1, c2) < 0 <==> Compare(c1, c2) < 0
    ensures !(c1.timestamp.None? && c2.timestamp.None?) ==> CompareAsWritten(c1, c2) == Compare(c1, c2)
  {
  }

  /** Newest first, undated last. */
  predicate NewestFirst(s: seq<PostComment>)
  {
    forall i, j :: 0 <= i < j < |s| ==> Before(s[i], s[j])
  }

  /** One insertion step of the list sort: `c` goes after every element
      that does not compare greater than it. */
  function Insert(sorted: seq<PostComment>, c: PostComment): seq<PostComment>
  {
    if sorted == [] then [c]
    else
      var last := sorted[|sorted| - 1];
      if Compare(c, last) >= 0 then sorted + [c]
      else Insert(sorted[..|sorted| - 1], c) + [last]
  }

  /** `comments.sort(...)`: a stable insertion sort with the comparator. */
  function SortComments(cs: seq<PostComment>): seq<PostComment>
  {
    if cs == [] then []
    else Insert(SortComments(cs[..|cs| - 1]), cs[|cs| - 1])
  }

  /** Insertion adds the comment and loses none. */
  lemma {:induction false} InsertPermutes(sorted: seq<PostComment>, c: PostComment)
    ensures multiset(Insert(sorted, c)) == multiset(sorted) + multiset{c}
  {
    if sorted != [] {
      var last := sorted[|sorted| - 1];
      var init := sorted[..|sorted| - 1];
      assert sorted == init + [last];
      if Compare(c, last) < 0 {
        InsertPermutes(init, c);
      }
    }
  }

  /** A newest-first list followed by a comment that every element comes
      before is newest first. */
  lemma AppendKeepsOrder(s: seq<PostComment>, x: PostComment)
    requires NewestFirst(s)
    requires forall i :: 0 <= i < |s| ==> Before(s[i], x)
    ensures NewestFirst(s + [x])
  {
  }

  lemma {:induction false} InsertKeepsOrder(sorted: seq<PostComment>, c: PostComment)
    requires NewestFirst(sorted)
    ensures multiset(Insert(sorted, c)) == multiset(sorted) + multiset{c}
    ensures NewestFirst(Insert(sorted, c))
  {
    InsertPermutes(sorted, c);
    if sorted != [] {
      var last := sorted[|sorted| - 1];
      var init := sorted[..|sorted| - 1];
      if Compare(c, last) >= 0 {
        forall i | 0 <= i < |sorted|
          ensures Before(sorted[i], c)
        {
          CompareContract(sorted[i], last, c);
        }
        AppendKeepsOrder(sorted, c);
      } else {
        assert NewestFirst(init);
        InsertKeepsOrder(init, c);
        var r := Insert(init, c);
        forall i | 0 <= i < |r|
          ensures Before(r[i], last)
        {
          assert r[i] in multiset(r);
          if r[i] != c {
            assert r[i] in multiset(init);
            var k :| 0 <= k < |init| && init[k] == r[i];
            assert sorted[k] == r[i];
          }
        }
        AppendKeepsOrder(r, last);
      }
    }
  }

  /** The sort returns the same comments, newest first with the undated ones
      last. */
  lemma {:induction false} SortCommentsSpec(cs: seq<PostComment>)
    ensures multiset(SortComments(cs)) == multiset(cs)
    ensures |SortComments(cs)| == |cs|
    ensures NewestFirst(SortComments(cs))
  {
    if cs != [] {
      var init := cs[..|cs| - 1];
      SortCommentsSpec(init);
      InsertKeepsOrder(SortComments(init), cs[|cs| - 1]);
      assert cs == init + [cs[|cs| - 1]];
    }
    assert |multiset(SortComments(cs))| == |multiset(cs)|;
  }

  /** Sorted comments hold every dated comment before every undated one, and
      the dated ones in non-increasing time. */
  lemma SortedShape(cs: seq<PostComment>, i: int, j: int)
    requires 0 <= i < j < |SortComments(cs)|
    ensures var s := SortComments(cs);
      (s[i].timestamp.None? ==> s[j].timestamp.None?) &&
      (s[i].timestamp.Some? && s[j].timestamp.Some? ==> s[i].timestamp.value >= s[j].timestamp.value)
  {
    SortCommentsSpec(cs);
  }

  // ---------------------------------------------------------------------
  // The post document on the server

  /** One entry of the document's `comments` array. */
  datatype CommentData = CommentData(
    userId: Option<string>,
    username: Option<string>,
    content: Option<string>,
    timestamp: Option<Long>)

  /** `posts/{postId}`: the fields `toObject` reads into a Post (its
      `likesCount` and `commentsCount` are the counters), the `likedBy`
      array and the `comments` array. A missing array is empty. */
  datatype PostDoc = PostDoc(post: Post, likedBy: seq<string>, comments: seq<CommentData>)

  /** The signed-in Firebase user. */
  datatype AuthUser = AuthUser(uid: string, displayName: Option<string>)

  /** `FieldValue.arrayUnion(x)`: appended unless already present. */
  function ArrayUnion<T(==, !new)>(s: seq<T>, x: T): (r: seq<T>)
    ensures x in r
    ensures forall y :: y in r <==> y in s || y == x
    ensures x in s ==> r == s
  {
    if x in s then s else s + [x]
  }

  /** `FieldValue.arrayRemove(x)`: every copy of `x` removed, the rest kept
      in order. */
  function ArrayRemove<T(==, !new)>(s: seq<T>, x: T): (r: seq<T>)
    ensures x !in r
    ensures forall y :: y != x ==> (y in r <==> y in s)
    ensures |r| <= |s|
  {
    if s == [] then []
    else
      var rest := ArrayRemove(s[1..], x);
      if s[0] == x then rest else [s[0]] + rest
  }

  /** Liking and then unliking leaves exactly the other likers. */
  lemma UnionThenRemove<T(!new)>(s: seq<T>, x: T)
    ensures forall y :: y in ArrayRemove(ArrayUnion(s, x), x) <==> y in s && y != x
  {
  }

  /** Removing twice is removing once. */
  lemma {:induction false} RemoveIdempotent<T(!new)>(s: seq<T>, x: T)
    ensures ArrayRemove(ArrayRemove(s, x), x) == ArrayRemove(s, x)
  {
    if s != [] {
      RemoveIdempotent(s[1..], x);
      var rest := ArrayRemove(s[1..], x);
      if s[0] != x {
        assert ([s[0]] + rest)[1..] == rest;
      }
    }
  }

  /** A parsed comment: the four map entries; id and post id stay null. */
  function FromData(d: CommentData): PostComment
  {
    PostComment(None, None, d.userId, d.username, d.content, d.timestamp)
  }

  /** The parsed list, entry by entry. */
  function Parsed(data: seq<CommentData>): (r: seq<PostComment>)
    ensures |r| == |data|
    ensures forall i :: 0 <= i < |data| ==> r[i] == FromData(data[i])
  {
    if data == [] then [] else Parsed(data[..|data| - 1]) + [FromData(data[|data| - 1])]
  }

  /** The comment `addComment` writes, or None when it writes nothing: a
      blank comment or no signed-in user. The author is the display name,
      else "Anonymous". */
  function NewComment(input: string, user: Option<AuthUser>, now: Long): (r: Option<CommentData>)
    ensures r.None? <==> JavaTrim(input) == [] || user.None?
    ensures r.Some? ==> r.value.userId == Some(user.value.uid)
    ensures r.Some? ==> r.value.content == Some(JavaTrim(input))
    ensures r.Some? && user.value.displayName.Some? ==> r.value.username == user.value.displayName
    ensures r.Some? && user.value.displayName.None? ==> r.value.username == Some("Anonymous")
    ensures r.Some? ==> r.value.timestamp == Some(now)
  {
    var content := JavaTrim(input);
    if content == [] then None
    else if user.None? then None
    else
      var username := if user.value.displayName.Some? then user.value.displayName.value else "Anonymous";
      Some(CommentData(Some(user.value.uid), Some(username), Some(content), Some(now)))
  }

  /** The document after `addComment`'s update: the entry joined to the
      `comments` array and `commentsCount` one higher; nothing else changes. */
  function WithComment(d: PostDoc, c: CommentData): (r: PostDoc)
    ensures c in r.comments
    ensures forall e :: e in r.comments <==> e in d.comments || e == c
    ensures r.post == d.post.(commentsCount := d.post.commentsCount + 1)
    ensures r.likedBy == d.likedBy
  {
    d.(comments := ArrayUnion(d.comments, c), post := d.post.(commentsCount := d.post.commentsCount + 1))
  }

  /** What a tap on the send button reports. */
  datatype CommentOutcome = EmptyComment | NotSignedIn | Added | WriteFailed

  /** The parse loop of `loadComments`. */
  method ParseComments(data: seq<CommentData>) returns (comments: seq<PostComment>)
    ensures comments == Parsed(data)
  {
    comments := [];
    var i := 0;
    while i < |data|
      invariant 0 <= i <= |data|
      invariant comments == Parsed(data[..i])
    {
      assert data[..i + 1][..i] == data[..i];
      comments := comments + [FromData(data[i])];
      i := i + 1;
    }
    assert data[..i] == data;
  }

  // ---------------------------------------------------------------------
  // The screen

  class PostDetailScreen {
    const postId: string
    /** The server's copy of `posts/{postId}`; None when it does not exist. */
    var doc: Option<PostDoc>
    var finished: bool
    var currentPost: Option<Post>
    var isLiked: bool
    /** The list handed to the comment adapter, and the header above it. */
    var comments: seq<PostComment>
    var commentsHeader: string
    var noCommentsShown: bool
    var commentInput: string
    var sendEnabled: bool

    /** The like state on screen matches the server for user `uid`. */
    predicate InSync(uid: string)
      reads this
    {
      currentPost.Some? && doc.Some? ==>
        (isLiked <==> uid in doc.value.likedBy) &&
        currentPost.value.likesCount == doc.value.post.likesCount
    }

    /** `onCreate` after the intent's post id was found (a missing id closes
        the screen before any of this). */
    constructor (postId: string, doc: Option<PostDoc>)
      ensures this.postId == postId && this.doc == doc
      ensures !finished && currentPost.None? && !isLiked
      ensures comments == [] && commentInput == [] && sendEnabled
    {
      this.postId := postId;
      this.doc := doc;
      finished := false;
      currentPost := None;
      isLiked := false;
      comments := [];
      commentsHeader := "";
      noCommentsShown := false;
      commentInput := [];
      sendEnabled := true;
    }

    /** `loadPostDetails`: the document becomes the current post, its id set;
        a missing document or a failed read closes the screen. */
    method LoadPostDetails(succeeded: bool)
      modifies this
      ensures succeeded && doc.Some? ==>
        currentPost == Some(doc.value.post.(postId := Some(postId))) && finished == old(finished)
      ensures !(succeeded && doc.Some?) ==> finished && currentPost == old(currentPost)
      ensures doc == old(doc) && isLiked == old(isLiked) && comments == old(comments)
      ensures commentInput == old(commentInput) && sendEnabled == old(sendEnabled)
      ensures commentsHeader == old(commentsHeader) && noCommentsShown == old(noCommentsShown)
    {
      if succeeded && doc.Some? {
        currentPost := Some(doc.value.post.(postId := Some(postId)));
      } else {
        finished := true;
      }
    }

    /** `checkIfUserLiked`: liked iff the user's id is in `likedBy`. Nothing
        happens without a user, a document, or when the read fails. */
    method CheckIfUserLiked(user: Option<AuthUser>, succeeded: bool)
      modifies this
      ensures user.Some? && succeeded && doc.Some? ==> isLiked == (user.value.uid in doc.value.likedBy)
      ensures !(user.Some? && succeeded && doc.Some?) ==> isLiked == old(isLiked)
      ensures doc == old(doc) && currentPost == old(currentPost) && finished == old(finished)
      ensures comments == old(comments) && commentsHeader == old(commentsHeader)
      ensures noCommentsShown == old(noCommentsShown)
      ensures commentInput == old(commentInput) && sendEnabled == old(sendEnabled)
    {
      if user.Some? && succeeded && doc.Some? {
        isLiked := user.value.uid in doc.value.likedBy;
      }
    }

    /** `toggleLike`. Without a loaded post or a signed-in user nothing
        happens. Otherwise the server removes (or adds) the user's id and
        moves `likesCount` by one; only when that write succeeds does the
        screen flip `isLiked` and move its count the same way. An update of
        a missing document fails. */
    method ToggleLike(user: Option<AuthUser>, succeeded: bool)
      modifies this
      ensures var written := old(currentPost).Some? && user.Some? && succeeded && old(doc).Some?;
        var step := if old(isLiked) then -1 else 1;
        (written ==>
          isLiked == !old(isLiked) &&
          currentPost == Some(old(currentPost).value.(likesCount := old(currentPost).value.likesCount + step)) &&
          doc == Some(old(doc).value.(
            likedBy := if old(isLiked) then ArrayRemove(old(doc).value.likedBy, user.value.uid)
                       else ArrayUnion(old(doc).value.likedBy, user.value.uid),
            post := old(doc).value.post.(likesCount := old(doc).value.post.likesCount + step)))) &&
        (!written ==> isLiked == old(isLiked) && currentPost == old(currentPost) && doc == old(doc))
      ensures user.Some? && old(InSync(user.value.uid)) ==> InSync(user.value.uid)
      ensures finished == old(finished) && comments == old(comments)
      ensures commentsHeader == old(commentsHeader) && noCommentsShown == old(noCommentsShown)
      ensures commentInput == old(commentInput) && sendEnabled == old(sendEnabled)
    {
      if currentPost.None? || user.None? {
        return;
      }
      if !succeeded || doc.None? {
        return;
      }
      var uid := user.value.uid;
      var d := doc.value;
      if isLiked {
        doc := Some(d.(likedBy := ArrayRemove(d.likedBy, uid), post := d.post.(likesCount := d.post.likesCount - 1)));
        isLiked := false;
        currentPost := Some(currentPost.value.(likesCount := currentPost.value.likesCount - 1));
      } else {
        doc := Some(d.(likedBy := ArrayUnion(d.likedBy, uid), post := d.post.(likesCount := d.post.likesCount + 1)));
        isLiked := true;
        currentPost := Some(currentPost.value.(likesCount := currentPost.value.likesCount + 1));
      }
    }

    /** `loadComments`: the document's comments parsed, sorted newest first,
        handed to the adapter, and counted in the header. A missing document
        or a failed read changes nothing. */
    method LoadComments(succeeded: bool)
      modifies this
      ensures succeeded && doc.Some? ==>
        comments == SortComments(Parsed(doc.value.comments)) &&
        commentsHeader == IntToString(|doc.value.comments|) &&
        (noCommentsShown <==> doc.value.comments == [])
      ensures !(succeeded && doc.Some?) ==>
        comments == old(comments) && commentsHeader == old(commentsHeader) &&
        noCommentsShown == old(noCommentsShown)
      ensures doc == old(doc) && currentPost == old(currentPost) && isLiked == old(isLiked)
      ensures finished == old(finished)
      ensures commentInput == old(commentInput) && sendEnabled == old(sendEnabled)
    {
      if succeeded && doc.Some? {
        var parsed := ParseComments(doc.value.comments);
        var sorted := SortComments(parsed);
        assert |sorted| == |doc.value.comments| by {
          SortCommentsSpec(parsed);
        }
        comments := sorted;
        commentsHeader := IntToString(|sorted|);
        noCommentsShown := |sorted| == 0;
      }
    }

    /** `addComment`: a blank input or no user is refused with no write.
        Otherwise the comment is added to the server's array (unless an
        identical entry is there) and `commentsCount` moves up by one; on
        success the input is cleared and the comments reloaded. The send
        button, disabled for the write, is enabled again either way. */
    method AddComment(user: Option<AuthUser>, now: Long, succeeded: bool, reloaded: bool)
      returns (outcome: CommentOutcome)
      modifies this
      ensures outcome == EmptyComment <==> JavaTrim(old(commentInput)) == []
      ensures outcome == NotSignedIn <==> JavaTrim(old(commentInput)) != [] && user.None?
      ensures outcome == Added <==> NewComment(old(commentInput), user, now).Some? && succeeded && old(doc).Some?
      ensures outcome == Added ==>
        doc == Some(WithComment(old(doc).value, NewComment(old(commentInput), user, now).value)) &&
        commentInput == []
      ensures outcome != Added ==> doc == old(doc) && commentInput == old(commentInput) && comments == old(comments)
      ensures sendEnabled == (old(sendEnabled) || NewComment(old(commentInput), user, now).Some?)
      ensures outcome == Added && reloaded ==>
        comments == SortComments(Parsed(doc.value.comments)) &&
        commentsHeader == IntToString(|doc.value.comments|)
      ensures currentPost == old(currentPost) && isLiked == old(isLiked) && finished == old(finished)
    {
      var c := NewComment(commentInput, user, now);
      if c.None? {
        outcome := if JavaTrim(commentInput) == [] then EmptyComment else NotSignedIn;
        return;
      }
      sendEnabled := false;
      if succeeded && doc.Some? {
        doc := Some(WithComment(doc.value, c.value));
        commentInput := [];
        sendEnabled := true;
        LoadComments(reloaded);
        outcome := Added;
      } else {
        sendEnabled := true;
        outcome := WriteFailed;
      }
    }
  }

  /** Loading the post and the user's like puts the screen in step with the
      server, and any run of like taps keeps it there. */
  method LikeSession(postId: string, doc: Option<PostDoc>, user: AuthUser, taps: seq<bool>)
    returns (screen: PostDetailScreen)
    ensures screen.InSync(user.uid)
    ensures screen.doc.Some? <==> doc.Some?
  {
    screen := new PostDetailScreen(postId, doc);
    screen.LoadPostDetails(true);
    screen.CheckIfUserLiked(Some(user), true);
    var i := 0;
    while i < |taps|
      invariant screen.InSync(user.uid)
      invariant screen.doc.Some? <==> doc.Some?
      invariant 0 <= i <= |taps|
    {
      screen.ToggleLike(Some(user), taps[i]);
      i := i + 1;
    }
  }
}
