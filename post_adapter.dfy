/** adapter/PostAdapter.java: the list of posts on the community screen,
    its search filter and the labels bound for each row. */
module PostList {
  import opened Common
  import opened Models
  import opened PostStore

  /** What `filterPosts` displays: every post for a null or blank query,
      otherwise the matching ones in their order. */
  function FilteredPosts(original: seq<Post>, query: Option<string>): seq<Post>
  {
    if query.None? || JavaTrim(query.value) == [] then original
    else Keep(original, MatchesQuery(LowerQuery(query.value)))
  }

  /** A null or blank query shows everything in order; otherwise a post is
      shown exactly when it matches. Unlike the service's search, a blank
      query here also keeps posts with no title, content or author. */
  lemma FilteredPostsSpec(original: seq<Post>, query: Option<string>, p: Post)
    ensures query.None? || JavaTrim(query.value) == [] ==> FilteredPosts(original, query) == original
    ensures query.Some? && JavaTrim(query.value) != [] ==>
      (p in FilteredPosts(original, query) <==> p in original && PostMatches(p, LowerQuery(query.value)))
  {
    if query.Some? {
      KeepMembers(original, MatchesQuery(LowerQuery(query.value)), p);
    }
  }

  /** The title bound for a row: "Untitled Post" when missing. */
  function TitleText(p: Post): (r: string)
    ensures p.title.Some? ==> r == p.title.value
    ensures p.title.None? ==> r == "Untitled Post"
  {
    if p.title.Some? then p.title.value else "Untitled Post"
  }

  /** The author bound for a row: "Anonymous" when missing. */
  function UsernameText(p: Post): (r: string)
    ensures p.username.Some? ==> r == p.username.value
    ensures p.username.None? ==> r == "Anonymous"
  {
    if p.username.Some? then p.username.value else "Anonymous"
  }

  /** The cover image is loaded only for a non-blank URL; otherwise the
      placeholder shows. */
  predicate ShowsCover(p: Post)
  {
    p.coverImageUrl.Some? && JavaTrim(p.coverImageUrl.value) != []
  }

  /** The cover is loaded exactly when the URL holds some character above a
      space: a URL of blanks only shows the placeholder. */
  lemma CoverIffNonBlank(p: Post)
    ensures ShowsCover(p) <==> p.coverImageUrl.Some? && !Blank(p.coverImageUrl.value, JavaSpace)
  {
    if p.coverImageUrl.Some? {
      TrimEmptyIffBlank(p.coverImageUrl.value, JavaSpace);
    }
  }

  class PostAdapter {
    var postList: seq<Post>

    /** Starts empty. */
    constructor ()
      ensures postList == []
    {
      postList := [];
    }

    /** `updatePosts`: the list becomes exactly the new posts, in order. */
    method UpdatePosts(newPosts: seq<Post>)
      modifies this
      ensures postList == newPosts
    {
      postList := newPosts;
    }

    /** `addPosts`: the new posts appended; the returned range is the one
        reported as inserted. */
    method AddPosts(newPosts: seq<Post>) returns (start: nat, count: nat)
      modifies this
      ensures postList == old(postList) + newPosts
      ensures postList[..|old(postList)|] == old(postList)
      ensures start == |old(postList)| && count == |newPosts| && start + count == |postList|
    {
      start := |postList|;
      count := |newPosts|;
      postList := postList + newPosts;
    }

    /** `filterPosts`: the filtered list becomes the displayed one. */
    method FilterPosts(original: seq<Post>, query: Option<string>)
      modifies this
      ensures postList == FilteredPosts(original, query)
    {
      var filtered := original;
      if !(query.None? || JavaTrim(query.value) == []) {
        filtered := KeepMatching(original, LowerQuery(query.value));
      }
      UpdatePosts(filtered);
    }

    /** `getItemCount`. */
    function ItemCount(): nat
      reads this
    {
      |postList|
    }
  }
}
