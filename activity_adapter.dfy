/** ActivityAdapter.java: the list of activities on the notifications
    screen, the labels bound for each, and the relative time shown beside
    it. The clock is the parameter `now`. */
module ActivityFeed {
  import opened Common
  import opened Models
  import opened Elapsed

  // ---------------------------------------------------------------------
  // Relative time

  /** `formatTimestamp` as written: the quotients are tested months first,
      and the day and hour cases keep branches for seven or more days and
      for 24 or more hours. */
  function FormatTimestamp(timestamp: Long, now: Long): string
  {
    var e := ElapsedOf(LongSub(now, timestamp));
    var weeks := JDiv(e.days, 7);
    var months := JDiv(e.days, 30);
    if months > 0 then (if months == 1 then "1 month ago" else IntToString(months) + " months ago")
    else if weeks > 0 then (if weeks == 1 then "1 week ago" else IntToString(weeks) + " weeks ago")
    else if e.days > 0 then
      (if e.days == 1 then "yesterday"
       else if e.days < 7 then IntToString(e.days) + " days ago"
       else "this week")
    else if e.hours > 0 then
      (if e.hours < 24 then (if e.hours == 1 then "1 hour ago" else IntToString(e.hours) + " hours ago")
       else "today")
    else if e.minutes > 0 then (if e.minutes == 1 then "1 minute ago" else IntToString(e.minutes) + " minutes ago")
    else "just now"
  }

  /** The words for an age: singular for one, "yesterday" for one day. */
  function AgeText(a: Age): (r: string)
    ensures a.Moment? <==> r == "just now"
    ensures a == Days(1) <==> r == "yesterday"
  {
    match a
    case Months(n) => if n == 1 then "1 month ago" else IntToString(n) + " months ago"
    case Weeks(n) => if n == 1 then "1 week ago" else IntToString(n) + " weeks ago"
    case Days(n) => if n == 1 then "yesterday" else IntToString(n) + " days ago"
    case Hours(n) => if n == 1 then "1 hour ago" else IntToString(n) + " hours ago"
    case Minutes(n) => if n == 1 then "1 minute ago" else IntToString(n) + " minutes ago"
    case Moment => "just now"
  }

  /** The text shown is the words for the largest whole unit of the elapsed
      time (a month being thirty days, a week seven). */
  lemma FormatTimestampIsAge(timestamp: Long, now: Long)
    ensures FormatTimestamp(timestamp, now) == AgeText(AgeOf(LongSub(now, timestamp)))
  {
    var diff := LongSub(now, timestamp);
    CascadeIsAge(diff);
    AgeBounds(diff);
  }

  /** The "this week" and "today" branches are never taken: seven days make
      a week, and 24 hours make a day. */
  lemma DeadBranchesUnreachable(timestamp: Long, now: Long)
    ensures FormatTimestamp(timestamp, now) != "this week"
    ensures FormatTimestamp(timestamp, now) != "today"
  {
    FormatTimestampIsAge(timestamp, now);
    var a := AgeOf(LongSub(now, timestamp));
    if !a.Moment? {
      var digits := IntToString(a.n);
      assert |digits| >= 1;
    }
  }

  /** A timestamp in the future reads "just now" (both times after the
      epoch, so the difference does not wrap). */
  lemma FutureIsJustNow(timestamp: Long, now: Long)
    requires 0 <= now <= timestamp
    ensures FormatTimestamp(timestamp, now) == "just now"
  {
    FormatTimestampIsAge(timestamp, now);
  }

  // ---------------------------------------------------------------------
  // Bound labels

  /** The user and restaurant names bound for an activity: "Someone" and
      "Unknown" stand in for missing ones. */
  function Names(a: ActivityItem): (r: (string, string))
    ensures a.userName.Some? ==> r.0 == a.userName.value
    ensures a.userName.None? ==> r.0 == "Someone"
    ensures a.restaurantName.Some? ==> r.1 == a.restaurantName.value
    ensures a.restaurantName.None? ==> r.1 == "Unknown"
  {
    (if a.userName.Some? then a.userName.value else "Someone",
     if a.restaurantName.Some? then a.restaurantName.value else "Unknown")
  }

  /** The action text: set only for an accurate vote and for a comment;
      otherwise the row's previous text is left in place (None). */
  function ActionText(a: ActivityItem): (r: Option<string>)
    ensures r.Some? <==> a.kind == Some(CommentActivity) || (a.kind == Some(Vote) && a.voteType == Some(true))
  {
    if a.kind == Some(Vote) then
      (if a.voteType == Some(true) then Some("voted accurate on your review") else None)
    else if a.kind == Some(CommentActivity) then Some("commented on your review")
    else None
  }

  /** The avatar image is loaded only for a non-blank URL; otherwise the
      placeholder is shown. */
  predicate ShowsAvatar(a: ActivityItem)
  {
    a.userAvatarUrl.Some? && JavaTrim(a.userAvatarUrl.value) != ""
  }

  /** The avatar is loaded exactly when the URL holds some character above
      a space: a URL of blanks only shows the placeholder. */
  lemma AvatarIffNonBlank(a: ActivityItem)
    ensures ShowsAvatar(a) <==> a.userAvatarUrl.Some? && !Blank(a.userAvatarUrl.value, JavaSpace)
  {
    if a.userAvatarUrl.Some? {
      TrimEmptyIffBlank(a.userAvatarUrl.value, JavaSpace);
    }
  }

  /** The time text: empty without a timestamp. */
  function TimeText(a: ActivityItem, now: Long): (r: string)
    ensures a.timestamp.None? <==> r == ""
  {
    if a.timestamp.None? then ""
    else
      FormatTimestampIsAge(a.timestamp.value, now);
      FormatTimestamp(a.timestamp.value, now)
  }

  // ---------------------------------------------------------------------
  // The adapter

  class ActivityAdapter {
    var activities: seq<ActivityItem>

    /** A null list becomes an empty one. */
    constructor (activities: Option<seq<ActivityItem>>)
      ensures this.activities == (if activities.None? then [] else activities.value)
    {
      this.activities := if activities.None? then [] else activities.value;
    }

    /** `setActivities`: the new list replaces the old; null is empty. */
    method SetActivities(activities: Option<seq<ActivityItem>>)
      modifies this
      ensures this.activities == (if activities.None? then [] else activities.value)
    {
      this.activities := if activities.None? then [] else activities.value;
    }

    /** `getItemCount`. */
    function ItemCount(): nat
      reads this
    {
      |activities|
    }
  }
}
