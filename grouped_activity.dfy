/** GroupedActivityAdapter.java: the activity list with a date-group header
    before the first activity and before every activity whose group differs
    from the previous one's. One `now` stands for the clock throughout a
    rebuild. */
module GroupedActivity {
  import opened Common
  import opened Models
  import opened Elapsed
  import ActivityFeed

  // ---------------------------------------------------------------------
  // Date groups

  /** `getDateGroup`: whole days elapsed (truncating), bucketed. */
  function DateGroup(timestamp: Option<Long>, now: Long): (g: string)
    ensures timestamp.None? <==> g == "Unknown"
  {
    if timestamp.None? then "Unknown"
    else
      var days := JDiv(LongSub(now, timestamp.value), DAY);
      if days == 0 then "Today"
      else if days == 1 then "Yesterday"
      else if days < 7 then "This Week"
      else if days < 30 then "This Month"
      else "Older"
  }

  /** The groups as ranges of the millisecond difference. A timestamp more
      than a day in the future has a negative day count and falls in "This
      Week". */
  lemma DateGroupRanges(timestamp: Long, now: Long)
    ensures var diff := LongSub(now, timestamp);
      var g := DateGroup(Some(timestamp), now);
      (g == "Today" <==> -DAY < diff < DAY)
      && (g == "Yesterday" <==> DAY <= diff < 2 * DAY)
      && (g == "This Week" <==> (2 * DAY <= diff < 7 * DAY || diff <= -DAY))
      && (g == "This Month" <==> 7 * DAY <= diff < 30 * DAY)
      && (g == "Older" <==> 30 * DAY <= diff)
  {
  }

  // ---------------------------------------------------------------------
  // Grouping

  /** An entry of `items`: a header label (a String) or an activity. */
  datatype Item = Header(title: string) | Activity(activity: ActivityItem)

  /** Whether activity `i` starts a new group: the first one does, and so
      does one whose group differs from its predecessor's. */
  predicate StartsGroup(activities: seq<ActivityItem>, i: nat, groupOf: ActivityItem -> string)
    requires i < |activities|
  {
    i == 0 || groupOf(activities[i - 1]) != groupOf(activities[i])
  }

  /** An activity's date group at time `now`. */
  function GroupAt(now: Long): ActivityItem -> string
  {
    (a: ActivityItem) => DateGroup(a.timestamp, now)
  }

  /** The items built from a non-null list, each activity's group given by
      `groupOf`. */
  function Grouped(activities: seq<ActivityItem>, groupOf: ActivityItem -> string): seq<Item>
  {
    if activities == [] then []
    else
      var i := |activities| - 1;
      var a := activities[i];
      Grouped(activities[..i], groupOf)
      + (if StartsGroup(activities, i, groupOf) then [Header(groupOf(a))] else [])
      + [Activity(a)]
  }

  /** `groupActivities`: nothing for a null or empty list. */
  function ItemsOf(activities: Option<seq<ActivityItem>>, now: Long): seq<Item>
  {
    if activities.None? then [] else Grouped(activities.value, GroupAt(now))
  }

  /** The activities among the items, in order. */
  function ActivitiesOf(items: seq<Item>): seq<ActivityItem>
  {
    if items == [] then []
    else
      var last := items[|items| - 1];
      ActivitiesOf(items[..|items| - 1]) + (if last.Activity? then [last.activity] else [])
  }

  /** How many activities start a group. */
  function GroupStarts(activities: seq<ActivityItem>, groupOf: ActivityItem -> string): nat
  {
    if activities == [] then 0
    else
      var i := |activities| - 1;
      GroupStarts(activities[..i], groupOf) + (if StartsGroup(activities, i, groupOf) then 1 else 0)
  }

  /** Every header is immediately followed by an activity of its group. */
  predicate HeadersLead(items: seq<Item>, groupOf: ActivityItem -> string)
  {
    forall i :: 0 <= i < |items| && items[i].Header? ==>
      i + 1 < |items| && items[i + 1].Activity? && items[i].title == groupOf(items[i + 1].activity)
  }

  lemma {:induction false} ActivitiesOfAppend(xs: seq<Item>, ys: seq<Item>)
    ensures ActivitiesOf(xs + ys) == ActivitiesOf(xs) + ActivitiesOf(ys)
    decreases |ys|
  {
    if ys == [] {
      assert xs + ys == xs;
    } else {
      var init := ys[..|ys| - 1];
      assert (xs + ys)[..|xs + ys| - 1] == xs + init;
      ActivitiesOfAppend(xs, init);
    }
  }

  /** One more activity grouped. */
  lemma GroupedStep(activities: seq<ActivityItem>, i: nat, groupOf: ActivityItem -> string)
    requires i < |activities|
    ensures Grouped(activities[..i + 1], groupOf) ==
      Grouped(activities[..i], groupOf)
      + (if StartsGroup(activities, i, groupOf) then [Header(groupOf(activities[i]))] else [])
      + [Activity(activities[i])]
  {
    var p := activities[..i + 1];
    assert p[..i] == activities[..i];
    assert StartsGroup(p, i, groupOf) == StartsGroup(activities, i, groupOf);
  }

  /** Removing the headers gives back the input list. */
  lemma {:induction false} HeadersRemoved(activities: seq<ActivityItem>, groupOf: ActivityItem -> string)
    ensures ActivitiesOf(Grouped(activities, groupOf)) == activities
    decreases |activities|
  {
    if activities != [] {
      var i := |activities| - 1;
      var a := activities[i];
      var head := if StartsGroup(activities, i, groupOf) then [Header(groupOf(a))] else [];
      var prefix := Grouped(activities[..i], groupOf);
      assert Grouped(activities, groupOf) == prefix + head + [Activity(a)];
      assert ActivitiesOf(head) == [] by {
        if head != [] {
          assert head[..0] == [];
        }
      }
      assert ActivitiesOf([Activity(a)]) == [a] by {
        assert [Activity(a)][..0] == [];
      }
      calc {
        ActivitiesOf(prefix + head + [Activity(a)]);
        { ActivitiesOfAppend(prefix + head, [Activity(a)]); }
        ActivitiesOf(prefix + head) + [a];
        { ActivitiesOfAppend(prefix, head); }
        ActivitiesOf(prefix) + [a];
        { HeadersRemoved(activities[..i], groupOf); }
        activities[..i] + [a];
      }
      assert activities == activities[..i] + [a];
    }
  }

  /** The item count is the number of activities plus one header per group
      start. */
  lemma {:induction false} ItemCount(activities: seq<ActivityItem>, groupOf: ActivityItem -> string)
    ensures |Grouped(activities, groupOf)| == |activities| + GroupStarts(activities, groupOf)
    decreases |activities|
  {
    if activities != [] {
      ItemCount(activities[..|activities| - 1], groupOf);
    }
  }

  /** A non-empty list's items open with the first activity's header. */
  lemma {:induction false} OpensWithHeader(activities: seq<ActivityItem>, groupOf: ActivityItem -> string)
    requires activities != []
    ensures Grouped(activities, groupOf)[0] == Header(groupOf(activities[0]))
    decreases |activities|
  {
    if |activities| > 1 {
      var i := |activities| - 1;
      OpensWithHeader(activities[..i], groupOf);
      assert activities[..i][0] == activities[0];
    }
  }

  /** Every header leads an activity of its group, so no two headers are
      adjacent and no header ends the list. */
  lemma {:induction false} GroupedHeadersLead(activities: seq<ActivityItem>, groupOf: ActivityItem -> string)
    ensures HeadersLead(Grouped(activities, groupOf), groupOf)
    ensures activities != [] ==> Grouped(activities, groupOf)[|Grouped(activities, groupOf)| - 1].Activity?
    decreases |activities|
  {
    if activities != [] {
      var i := |activities| - 1;
      var a := activities[i];
      var head := if StartsGroup(activities, i, groupOf) then [Header(groupOf(a))] else [];
      var prefix := Grouped(activities[..i], groupOf);
      GroupedHeadersLead(activities[..i], groupOf);
      var items := prefix + head + [Activity(a)];
      forall k | 0 <= k < |items| && items[k].Header?
        ensures k + 1 < |items| && items[k + 1].Activity? && items[k].title == groupOf(items[k + 1].activity)
      {
        if k < |prefix| {
          assert items[k] == prefix[k];
          if k + 1 < |prefix| {
            assert items[k + 1] == prefix[k + 1];
          } else {
            assert false;
          }
        } else {
          assert k == |prefix| && head != [];
          assert items[k + 1] == Activity(a);
        }
      }
      assert Grouped(activities, groupOf) == items;
    }
  }

  /** An unsorted list can repeat a group: three activities alternating
      between "Unknown" and "Today" give three headers. */
  lemma RepeatedGroups(x: ActivityItem, y: ActivityItem, now: Long)
    requires x.timestamp.None? && y.timestamp == Some(now)
    ensures GroupStarts([x, y, x], GroupAt(now)) == 3
  {
    var s := [x, y, x];
    var g := GroupAt(now);
    assert g(x) == "Unknown";
    assert g(y) == "Today" by {
      assert LongSub(now, now) == 0;
    }
    assert s[..2] == [x, y] && [x, y][..1] == [x] && [x][..0] == [];
    assert GroupStarts([x], g) == 1;
    assert StartsGroup([x, y], 1, g);
    assert GroupStarts([x, y], g) == 2;
    assert StartsGroup(s, 2, g);
  }

  // ---------------------------------------------------------------------
  // Relative time

  /** `formatTimestamp`: the count of the first positive unit among months
      (days / 30), weeks, days, hours and minutes, with one letter; "now"
      below a minute. */
  function FormatTimestamp(timestamp: Long, now: Long): string
  {
    var e := ElapsedOf(LongSub(now, timestamp));
    var weeks := JDiv(e.days, 7);
    var months := JDiv(e.days, 30);
    if months > 0 then IntToString(months) + "m"
    else if weeks > 0 then IntToString(weeks) + "w"
    else if e.days > 0 then IntToString(e.days) + "d"
    else if e.hours > 0 then IntToString(e.hours) + "h"
    else if e.minutes > 0 then IntToString(e.minutes) + "m"
    else "now"
  }

  /** The letter for an age. */
  function AgeLetter(a: Age): (r: string)
    ensures |r| >= 2
  {
    match a
    case Months(n) => IntToString(n) + "m"
    case Weeks(n) => IntToString(n) + "w"
    case Days(n) => IntToString(n) + "d"
    case Hours(n) => IntToString(n) + "h"
    case Minutes(n) => IntToString(n) + "m"
    case Moment => "now"
  }

  /** The text shown is the largest whole unit of the elapsed time, and it
      agrees with the long form of ActivityAdapter.java on that unit. */
  lemma FormatTimestampIsAge(timestamp: Long, now: Long)
    ensures FormatTimestamp(timestamp, now) == AgeLetter(AgeOf(LongSub(now, timestamp)))
    ensures ActivityFeed.FormatTimestamp(timestamp, now) == ActivityFeed.AgeText(AgeOf(LongSub(now, timestamp)))
  {
    CascadeIsAge(LongSub(now, timestamp));
    ActivityFeed.FormatTimestampIsAge(timestamp, now);
  }

  /** One month and one minute both read "1m". */
  lemma MonthLooksLikeMinute()
    ensures FormatTimestamp(0, MINUTE) == FormatTimestamp(0, 30 * DAY) == "1m"
  {
    FormatTimestampIsAge(0, MINUTE);
    FormatTimestampIsAge(0, 30 * DAY);
  }

  /** "Older" is exactly the group whose activities show a month count. */
  lemma OlderIsMonths(timestamp: Long, now: Long)
    ensures DateGroup(Some(timestamp), now) == "Older" <==> AgeOf(LongSub(now, timestamp)).Months?
  {
  }

  // ---------------------------------------------------------------------
  // The adapter

  /** `getItemViewType`'s two values. */
  const VIEW_TYPE_HEADER := 0
  const VIEW_TYPE_ACTIVITY := 1

  class GroupedActivityAdapter {
    var items: seq<Item>

    constructor (activities: Option<seq<ActivityItem>>, now: Long)
      ensures items == ItemsOf(activities, now)
    {
      items := [];
      new;
      GroupActivities(activities, now);
    }

    /** `groupActivities`: clears the items, then walks the list keeping
        the current group; a header goes in whenever the group changes. */
    method GroupActivities(activities: Option<seq<ActivityItem>>, now: Long)
      modifies this
      ensures items == ItemsOf(activities, now)
    {
      items := [];
      if activities.None? || activities.value == [] {
        return;
      }
      var list := activities.value;
      var currentGroup: Option<string> := None;
      var i := 0;
      assert list[..0] == [];
      while i < |list|
        invariant 0 <= i <= |list|
        invariant items == Grouped(list[..i], GroupAt(now))
        invariant currentGroup == if i == 0 then None else Some(DateGroup(list[i - 1].timestamp, now))
      {
        GroupedStep(list, i, GroupAt(now));
        var group := DateGroup(list[i].timestamp, now);
        if currentGroup != Some(group) {
          items := items + [Header(group)];
          currentGroup := Some(group);
        }
        items := items + [Activity(list[i])];
        i := i + 1;
      }
      assert list[..i] == list;
    }

    /** `setActivities`: the items are rebuilt from scratch. */
    method SetActivities(activities: Option<seq<ActivityItem>>, now: Long)
      modifies this
      ensures items == ItemsOf(activities, now)
    {
      GroupActivities(activities, now);
    }

    /** `getItemViewType`: a header exactly for a String item. */
    method GetItemViewType(position: nat) returns (viewType: int)
      requires position < |items|
      ensures viewType == VIEW_TYPE_HEADER <==> items[position].Header?
      ensures viewType == VIEW_TYPE_ACTIVITY <==> items[position].Activity?
    {
      viewType := if items[position].Header? then VIEW_TYPE_HEADER else VIEW_TYPE_ACTIVITY;
    }
  }

  /** The labels an activity row binds: "User" and "Restaurant" stand in for
      missing names, and the time is empty without a timestamp. */
  function RowNames(a: ActivityItem): (r: (string, string))
    ensures a.userName.Some? ==> r.0 == a.userName.value
    ensures a.userName.None? ==> r.0 == "User"
    ensures a.restaurantName.Some? ==> r.1 == a.restaurantName.value
    ensures a.restaurantName.None? ==> r.1 == "Restaurant"
  {
    (if a.userName.Some? then a.userName.value else "User",
     if a.restaurantName.Some? then a.restaurantName.value else "Restaurant")
  }

  function RowTime(a: ActivityItem, now: Long): (r: string)
    ensures a.timestamp.None? <==> r == ""
  {
    if a.timestamp.None? then ""
    else
      FormatTimestampIsAge(a.timestamp.value, now);
      FormatTimestamp(a.timestamp.value, now)
  }
}
