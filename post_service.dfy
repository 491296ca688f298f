/** service/PostService.java: reading the `posts` collection and the
    client-side post search. What `toObject` makes of each document is part
    of the query's answer. */
module PostStore {
  import opened Common
  import opened Models

  /** A document of the collection: its id and the post `toObject` maps it
      to, or None when that throws. */
  datatype StoredPost = StoredPost(id: string, data: Option<Post>)

  /** The answer a load passes to its callback. */
  datatype LoadedPosts = Posts(posts: seq<Post>) | LoadError(message: string)

  function Readable(): StoredPost -> bool { (d: StoredPost) => d.data.Some? }

  /** The post of a readable document, carrying the document's id. */
  function PostOf(d: StoredPost): (p: Post)
    requires d.data.Some?
    ensures p == d.data.value.(postId := Some(d.id))
  {
    d.data.value.(postId := Some(d.id))
  }

  /** The list `loadPosts` builds: the readable documents in the query's
      order, each post with its document's id. */
  function PostsOf(docs: seq<StoredPost>): (r: seq<Post>)
    ensures |r| == |Keep(docs, Readable())|
    ensures forall i :: 0 <= i < |r| ==>
      Keep(docs, Readable())[i].data.Some? && r[i] == PostOf(Keep(docs, Readable())[i])
  {
    var kept := Keep(docs, Readable());
    KeptReadable(docs);
    seq(|kept|, i requires 0 <= i < |kept| => PostOf(kept[i]))
  }

  /** The kept documents are documents of the answer, and readable. */
  lemma KeptReadable(docs: seq<StoredPost>)
    ensures forall i :: 0 <= i < |Keep(docs, Readable())| ==>
      Keep(docs, Readable())[i] in docs && Keep(docs, Readable())[i].data.Some?
  {
    var kept := Keep(docs, Readable());
    forall i | 0 <= i < |kept|
      ensures kept[i] in docs && kept[i].data.Some?
    {
      assert kept[i] in kept;
      KeepMembers(docs, Readable(), kept[i]);
    }
  }

  /** Every readable document gives a loaded post, and every loaded post
      comes from a readable document of the answer and carries its id. */
  lemma {:induction false} PostsOfSpec(docs: seq<StoredPost>, d: StoredPost)
    ensures d in docs && d.data.Some? ==> PostOf(d) in PostsOf(docs)
    ensures forall i :: 0 <= i < |PostsOf(docs)| ==>
      Keep(docs, Readable())[i] in docs && PostsOf(docs)[i].postId == Some(Keep(docs, Readable())[i].id)
  {
    var kept := Keep(docs, Readable());
    KeptReadable(docs);
    KeepMembers(docs, Readable(), d);
    if d in docs && d.data.Some? {
      var k :| 0 <= k < |kept| && kept[k] == d;
      assert PostsOf(docs)[k] == PostOf(d);
      assert PostsOf(docs)[k] in PostsOf(docs);
    }
  }

  /** The parse loop of `loadPosts`: an unreadable document is skipped. */
  method ParsePosts(docs: seq<StoredPost>) returns (posts: seq<Post>)
    ensures posts == PostsOf(docs)
  {
    posts := [];
    var i := 0;
    while i < |docs|
      invariant 0 <= i <= |docs|
      invariant posts == PostsOf(docs[..i])
    {
      KeepStep(docs, i, Readable());
      KeptReadable(docs[..i]);
      KeptReadable(docs[..i + 1]);
      if docs[i].data.Some? {
        posts := posts + [PostOf(docs[i])];
      }
      i := i + 1;
    }
    assert docs[..i] == docs;
  }

  /** `loadPosts`: the parsed documents, or the query's error unchanged. */
  method LoadPosts(answer: Result<seq<StoredPost>>) returns (r: LoadedPosts)
    ensures answer.Failure? ==> r == LoadError(answer.error)
    ensures answer.Success? ==> r == Posts(PostsOf(answer.value))
  {
    if answer.Failure? {
      return LoadError(answer.error);
    }
    var posts := ParsePosts(answer.value);
    return Posts(posts);
  }

  /** `loadPostsWithLimit`: the same over at most `limit` documents; a limit
      below one is refused by the query builder before any read. */
  method LoadPostsWithLimit(limit: int, answer: Result<seq<StoredPost>>) returns (r: Option<LoadedPosts>)
    ensures limit <= 0 <==> r.None?
    ensures limit > 0 && answer.Failure? ==> r == Some(LoadError(answer.error))
    ensures limit > 0 && answer.Success? ==>
      r == Some(Posts(PostsOf(answer.value[..if |answer.value| < limit then |answer.value| else limit])))
    ensures r.Some? && r.value.Posts? ==> |r.value.posts| <= limit
  {
    if limit <= 0 {
      return None;
    }
    if answer.Failure? {
      return Some(LoadError(answer.error));
    }
    var n := if |answer.value| < limit then |answer.value| else limit;
    var posts := ParsePosts(answer.value[..n]);
    return Some(Posts(posts));
  }

  // ---------------------------------------------------------------------
  // Search

  /** A post matches a lower-cased query when its title, content or author
      name contains it, ignoring case. */
  predicate PostMatches(p: Post, lowerQuery: string)
  {
    FieldMatches(p.title, lowerQuery) || FieldMatches(p.content, lowerQuery) ||
    FieldMatches(p.username, lowerQuery)
  }

  function MatchesQuery(lowerQuery: string): Post -> bool
  {
    (p: Post) => PostMatches(p, lowerQuery)
  }

  /** The query as the searches compare it: lower-cased, then trimmed. */
  function LowerQuery(query: string): string
  {
    JavaTrim(Lower(query))
  }

  /** The search loop: each matching post appended. */
  method KeepMatching(all: seq<Post>, lowerQuery: string) returns (filtered: seq<Post>)
    ensures filtered == Keep(all, MatchesQuery(lowerQuery))
  {
    filtered := [];
    var i := 0;
    while i < |all|
      invariant 0 <= i <= |all|
      invariant filtered == Keep(all[..i], MatchesQuery(lowerQuery))
    {
      KeepStep(all, i, MatchesQuery(lowerQuery));
      if PostMatches(all[i], lowerQuery) {
        filtered := filtered + [all[i]];
      }
      i := i + 1;
    }
    assert all[..i] == all;
  }

  /** `searchPosts`: the loaded posts that match, in order; a load error is
      passed on unchanged. */
  method SearchPosts(query: string, loaded: LoadedPosts) returns (r: LoadedPosts)
    ensures loaded.LoadError? ==> r == loaded
    ensures loaded.Posts? ==> r == Posts(Keep(loaded.posts, MatchesQuery(LowerQuery(query))))
  {
    if loaded.LoadError? {
      return loaded;
    }
    var filtered := KeepMatching(loaded.posts, LowerQuery(query));
    return Posts(filtered);
  }

  /** A post is found exactly when it matches. */
  lemma SearchSpec(posts: seq<Post>, query: string, p: Post)
    ensures p in Keep(posts, MatchesQuery(LowerQuery(query))) <==>
      p in posts && PostMatches(p, LowerQuery(query))
  {
    KeepMembers(posts, MatchesQuery(LowerQuery(query)), p);
  }

  /** A blank query keeps only the posts with a title, content or author
      name. */
  lemma BlankQueryNeedsAField(p: Post, query: string)
    requires LowerQuery(query) == []
    ensures PostMatches(p, LowerQuery(query)) <==>
      p.title.Some? || p.content.Some? || p.username.Some?
  {
    if p.title.Some? { ContainsEmpty(Lower(p.title.value)); }
    if p.content.Some? { ContainsEmpty(Lower(p.content.value)); }
    if p.username.Some? { ContainsEmpty(Lower(p.username.value)); }
  }
}
