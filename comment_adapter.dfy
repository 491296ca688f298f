/** adapter/CommentAdapter.java: the comment list and the short relative
    time ("2h ago") shown beside each comment. The clock is `now`. */
module CommentList {
  import opened Common
  import opened Models
  import opened Elapsed

  /** `getTimeAgo` as written: days, then hours, then minutes, the first
      positive one with its letter; "Just now" otherwise. */
  function TimeAgo(createdAt: Long, now: Long): string
  {
    var e := ElapsedOf(LongSub(now, createdAt));
    if e.days > 0 then IntToString(e.days) + "d ago"
    else if e.hours > 0 then IntToString(e.hours) + "h ago"
    else if e.minutes > 0 then IntToString(e.minutes) + "m ago"
    else "Just now"
  }

  /** The short words for an age of at most days. */
  function ShortText(a: Age): (r: string)
    requires !a.Months? && !a.Weeks?
    ensures a.Moment? ==> r == "Just now"
    ensures !a.Moment? ==> |r| >= 6 && r[|r| - 4..] == " ago"
  {
    match a
    case Days(n) => IntToString(n) + "d ago"
    case Hours(n) => IntToString(n) + "h ago"
    case Minutes(n) => IntToString(n) + "m ago"
    case Moment => "Just now"
  }

  /** The text is the largest whole unit among days, hours and minutes of
      the elapsed time. */
  lemma TimeAgoIsAge(createdAt: Long, now: Long)
    ensures TimeAgo(createdAt, now) == ShortText(ShortAgeOf(LongSub(now, createdAt)))
  {
    ShortCascadeIsAge(LongSub(now, createdAt));
  }

  /** A comment dated in the future (a negative difference) reads "Just
      now": truncation leaves every unit at zero or below. */
  lemma FutureIsJustNow(createdAt: Long, now: Long)
    requires 0 <= now <= createdAt
    ensures TimeAgo(createdAt, now) == "Just now"
  {
    TimeAgoIsAge(createdAt, now);
  }

  /** Less than a minute old reads "Just now", a minute or more never does. */
  lemma JustNowBelowAMinute(createdAt: Long, now: Long)
    ensures TimeAgo(createdAt, now) == "Just now" <==> LongSub(now, createdAt) < MINUTE
  {
    TimeAgoIsAge(createdAt, now);
    var a := ShortAgeOf(LongSub(now, createdAt));
    if !a.Moment? {
      var r := ShortText(a);
      assert r[|r| - 4..] != "Just now"[4..];
    }
  }

  /** What `bind` sets as the time: nothing without a creation time (the
      row keeps its previous text). */
  function TimeText(c: ReviewComment, now: Long): (r: Option<string>)
    ensures r.None? <==> c.createdAt.None?
    ensures r.Some? ==> r.value == TimeAgo(c.createdAt.value, now)
  {
    if c.createdAt.None? then None else Some(TimeAgo(c.createdAt.value, now))
  }

  class CommentAdapter {
    var comments: seq<ReviewComment>

    /** Starts with an empty list. */
    constructor ()
      ensures comments == []
    {
      comments := [];
    }

    /** `updateComments`: the given list replaces the old one. */
    method UpdateComments(comments: seq<ReviewComment>)
      modifies this
      ensures this.comments == comments
    {
      this.comments := comments;
    }

    /** `getItemCount`: the size of the list. */
    method ItemCount() returns (n: nat)
      ensures n == |comments|
    {
      n := |comments|;
    }
  }
}
