/** dialogs/ReviewDetailsDialog.java: accuracy voting on a review, and the
    caption and author texts the dialog shows.

    The dialog keeps the review it shows, the signed-in user's id and that
    user's current vote. A vote changes the local map first, sends `votes`
    and `accuracyPercent` to the review document in one update, and undoes
    the local change when that update fails. */
module ReviewDetails {
  import opened Common
  import opened ReviewData

  // ---------------------------------------------------------------------
  // Accuracy

  /** The users whose vote is a non-null `true`. */
  function AccurateVoters(m: Votes): set<string>
  {
    set k | k in m && m[k] == Some(true)
  }

  /** `calculateAccuracyFromVotes`: 0 without votes, otherwise the share of
      `true` votes among all entries (null entries included), in percent. */
  function Accuracy(votes: Option<Votes>): real
  {
    if votes.None? || |votes.value| == 0 then 0.0
    else (|AccurateVoters(votes.value)| * 100) as real / |votes.value| as real
  }

  lemma {:induction false} SubsetCardinality(a: set<string>, b: set<string>)
    requires a <= b
    ensures |a| <= |b|
  {
    if a != {} {
      var x :| x in a;
      SubsetCardinality(a - {x}, b - {x});
    }
  }

  /** Accuracy is a percentage. */
  lemma AccuracyBounds(votes: Option<Votes>)
    ensures 0.0 <= Accuracy(votes) <= 100.0
  {
    if votes.Some? && |votes.value| > 0 {
      var m := votes.value;
      SubsetCardinality(AccurateVoters(m), m.Keys);
    }
  }

  /** The percentage of `a` out of `n` is 100 exactly when `a == n`, 0 exactly when `a == 0`. */
  lemma PercentExtremes(a: nat, n: nat)
    requires 0 < n && a <= n
    ensures (a * 100) as real / n as real == 100.0 <==> a == n
    ensures (a * 100) as real / n as real == 0.0 <==> a == 0
  {
    var x := (a * 100) as real / n as real;
    assert x * n as real == (a * 100) as real;
  }

  /** 100% exactly when there is a vote and every vote is `true`. */
  lemma AccuracyFull(votes: Option<Votes>)
    ensures Accuracy(votes) == 100.0 <==>
      (votes.Some? && |votes.value| > 0 && forall k :: k in votes.value ==> votes.value[k] == Some(true))
  {
    if votes.Some? && |votes.value| > 0 {
      var m := votes.value;
      var a := AccurateVoters(m);
      SubsetCardinality(a, m.Keys);
      PercentExtremes(|a|, |m|);
      if forall k :: k in m ==> m[k] == Some(true) {
        assert a == m.Keys;
      } else {
        var k :| k in m && m[k] != Some(true);
        assert a <= m.Keys - {k};
        SubsetCardinality(a, m.Keys - {k});
      }
    }
  }

  /** 0% exactly when there is no `true` vote. */
  lemma AccuracyZero(votes: Option<Votes>)
    ensures Accuracy(votes) == 0.0 <==>
      (votes.None? || forall k :: k in votes.value ==> votes.value[k] != Some(true))
  {
    if votes.Some? && |votes.value| > 0 {
      var m := votes.value;
      var a := AccurateVoters(m);
      SubsetCardinality(a, m.Keys);
      PercentExtremes(|a|, |m|);
      if forall k :: k in m ==> m[k] != Some(true) {
        assert a == {};
      } else {
        var k :| k in m && m[k] == Some(true);
        assert k in a;
      }
    }
  }

  /** The counting loop of `calculateAccuracyFromVotes`, over the map's entries. */
  method CalculateAccuracyFromVotes(votes: Option<Votes>) returns (acc: real)
    ensures acc == Accuracy(votes)
  {
    if votes.None? || |votes.value| == 0 {
      return 0.0;
    }
    var m := votes.value;
    var accurate := 0;
    var total := |m|;
    var pending := m.Keys;
    while pending != {}
      invariant pending <= m.Keys
      invariant accurate == |AccurateVoters(m) - pending|
      decreases |pending|
    {
      var k :| k in pending;
      ghost var doneBefore := AccurateVoters(m) - pending;
      if m[k] == Some(true) {
        assert AccurateVoters(m) - (pending - {k}) == doneBefore + {k};
        accurate := accurate + 1;
      } else {
        assert AccurateVoters(m) - (pending - {k}) == doneBefore;
      }
      pending := pending - {k};
    }
    assert AccurateVoters(m) - pending == AccurateVoters(m);
    acc := if total > 0 then (accurate * 100) as real / total as real else 0.0;
  }

  // ---------------------------------------------------------------------
  // Voting

  /** `vote(accurate)` on the local map: pressing the button that matches the
      user's non-null vote withdraws it; otherwise the vote is set. */
  function ApplyVote(m: Votes, uid: string, accurate: bool): (r: Votes)
  {
    if uid in m && m[uid] == Some(accurate) then m - {uid} else m[uid := Some(accurate)]
  }

  /** The failure handler: the user's entry as it was in `before`. */
  function RevertVote(m: Votes, uid: string, before: Votes): (r: Votes)
  {
    if uid in before then m[uid := before[uid]] else m - {uid}
  }

  /** `updateVoteButtons`: the user's vote, null when absent. */
  function UserVote(m: Votes, uid: string): Option<bool>
  {
    if uid in m then m[uid] else None
  }

  /** A vote withdraws a matching vote and otherwise records the chosen one,
      and never touches another user's entry. */
  lemma ApplyVoteEffect(m: Votes, uid: string, accurate: bool)
    ensures UserVote(m, uid) == Some(accurate) ==> uid !in ApplyVote(m, uid, accurate)
    ensures UserVote(m, uid) != Some(accurate) ==> UserVote(ApplyVote(m, uid, accurate), uid) == Some(accurate)
    ensures forall k :: k != uid ==>
      (k in ApplyVote(m, uid, accurate) <==> k in m) &&
      (k in m ==> ApplyVote(m, uid, accurate)[k] == m[k])
  {
  }

  /** Undoing a vote gives back exactly the map it was applied to. */
  lemma {:induction false} RevertUndoesVote(m: Votes, uid: string, accurate: bool)
    ensures RevertVote(ApplyVote(m, uid, accurate), uid, m) == m
  {
    var r := RevertVote(ApplyVote(m, uid, accurate), uid, m);
    assert r.Keys == m.Keys;
    forall k | k in m ensures r[k] == m[k] {
    }
  }

  /** Pressing the same button twice from "no vote" leaves no vote. */
  lemma {:induction false} VoteTwiceFromNone(m: Votes, uid: string, accurate: bool)
    requires uid !in m
    ensures ApplyVote(ApplyVote(m, uid, accurate), uid, accurate) == m
  {
    var once := ApplyVote(m, uid, accurate);
    assert once[uid] == Some(accurate);
    assert once - {uid} == m;
  }

  /** The dialog. `sentUpdates` records the `{votes, accuracyPercent}` updates
      sent to the review document. `voteCountLine` is the text of the
      vote-count view, `None` while no view is bound: the layout has none,
      so it is never bound. */
  class ReviewDetailsDialog {
    var review: Review
    const currentUserId: Option<string>
    var currentUserVote: Option<bool>
    var sentUpdates: seq<(Votes, real)>
    var voteCountLine: Option<string>

    constructor (review: Review, currentUserId: Option<string>)
      ensures this.review == review && this.currentUserId == currentUserId
      ensures currentUserVote.None? && sentUpdates == []
      ensures voteCountLine.None?
    {
      this.review := review;
      this.currentUserId := currentUserId;
      currentUserVote := None;
      sentUpdates := [];
      voteCountLine := None;
      new;
      UpdateVoteDisplay();
    }

    /** `updateVoteDisplay`: nothing without a bound view; with one, the
        line as written, counting every entry. */
    method UpdateVoteDisplay()
      modifies this
      ensures voteCountLine == if old(voteCountLine).None? then None else Some(VoteCountTextAsWritten(review.votes))
      ensures review == old(review) && currentUserVote == old(currentUserVote) && sentUpdates == old(sentUpdates)
    {
      if voteCountLine.Some? {
        voteCountLine := Some(VoteCountTextAsWritten(review.votes));
      }
    }

    /** `updateAccuracyDisplay`: recompute and store `accuracyPercent`. */
    method UpdateAccuracyDisplay()
      modifies this
      ensures review == old(review).(accuracyPercent := Accuracy(old(review).votes))
      ensures currentUserVote == old(currentUserVote) && sentUpdates == old(sentUpdates)
      ensures voteCountLine == old(voteCountLine)
    {
      var acc := CalculateAccuracyFromVotes(review.votes);
      review := review.(accuracyPercent := acc);
    }

    /** `vote(accurate)`; `writeOk` is the outcome of the document update. */
    method Vote(accurate: bool, writeOk: bool)
      modifies this
      ensures currentUserId.None? ==>
        review == old(review) && currentUserVote == old(currentUserVote) &&
        sentUpdates == old(sentUpdates) && voteCountLine == old(voteCountLine)
      ensures currentUserId.Some? ==>
        var uid := currentUserId.value;
        var before := if old(review).votes.None? then map[] else old(review).votes.value;
        var after := ApplyVote(before, uid, accurate);
        var now := if writeOk then after else before;
        sentUpdates == old(sentUpdates) + [(after, Accuracy(Some(after)))] &&
        review == old(review).(votes := Some(now), accuracyPercent := Accuracy(Some(now))) &&
        currentUserVote == UserVote(now, uid) &&
        voteCountLine == if old(voteCountLine).None? then None else Some(VoteCountTextAsWritten(Some(now)))
    {
      if currentUserId.None? {
        return;
      }
      var uid := currentUserId.value;
      if review.votes.None? {
        review := review.(votes := Some(map[]));
      }
      var before := review.votes.value;
      review := review.(votes := Some(ApplyVote(before, uid, accurate)));
      UpdateVoteDisplay();
      currentUserVote := UserVote(review.votes.value, uid);
      UpdateAccuracyDisplay();
      sentUpdates := sentUpdates + [(review.votes.value, review.accuracyPercent)];
      if !writeOk {
        RevertUndoesVote(before, uid, accurate);
        review := review.(votes := Some(RevertVote(review.votes.value, uid, before)));
        UpdateVoteDisplay();
        currentUserVote := UserVote(review.votes.value, uid);
        UpdateAccuracyDisplay();
      }
    }
  }

  /** A vote never moves the accuracy out of [0, 100], and a failed vote
      leaves the user's own entry as it was. */
  lemma VoteOutcome(before: Votes, uid: string, accurate: bool)
    ensures 0.0 <= Accuracy(Some(ApplyVote(before, uid, accurate))) <= 100.0
    ensures UserVote(RevertVote(ApplyVote(before, uid, accurate), uid, before), uid) == UserVote(before, uid)
  {
    AccuracyBounds(Some(ApplyVote(before, uid, accurate)));
    RevertUndoesVote(before, uid, accurate);
  }

  // ---------------------------------------------------------------------
  // Vote-count line

  /** The text `updateVoteDisplay` would set: the number of entries, so
      inaccurate votes are counted as people who "found this accurate". The
      method runs only behind a null check on a view that is never bound,
      so no such text is ever shown. */
  function VoteCountTextAsWritten(votes: Option<Votes>): string
  {
    if votes.None? then "0 people found this accurate"
    else if |votes.value| == 1 then "1 person found this accurate"
    else IntToString(|votes.value|) + " people found this accurate"
  }

  /** As written, a first "inaccurate" vote turns "0 people found this
      accurate" into "1 person found this accurate", while accuracy stays 0. */
  lemma VoteCountTextAsWrittenMiscounts()
    ensures VoteCountTextAsWritten(Some(map[])) == "0 people found this accurate"
    ensures VoteCountTextAsWritten(Some(map["u" := Some(false)])) == "1 person found this accurate"
    ensures Accuracy(Some(map["u" := Some(false)])) == 0.0
  {
    assert Digit(0) == '0';
    assert IntToString(0) == "0";
    assert "0" + " people found this accurate" == "0 people found this accurate";
    var m: Votes := map["u" := Some(false)];
    assert |m| == 1;
    assert AccurateVoters(m) == {};
    assert Accuracy(Some(m)) == (0 * 100) as real / 1 as real;
  }

  /** The vote-count text counting only `true` votes, as its words say. */
  function VoteCountText(votes: Option<Votes>): string
  {
    var n := if votes.None? then 0 else |AccurateVoters(votes.value)|;
    if n == 1 then "1 person found this accurate"
    else IntToString(n) + " people found this accurate"
  }

  /** With the corrected line, a new "inaccurate" vote never changes the count shown. */
  lemma InaccurateVoteKeepsCount(m: Votes, uid: string)
    requires uid !in m
    ensures VoteCountText(Some(m[uid := Some(false)])) == VoteCountText(Some(m))
  {
    assert AccurateVoters(m[uid := Some(false)]) == AccurateVoters(m);
  }

  // ---------------------------------------------------------------------
  // Caption and author texts

  /** A text view's content: the string resource placeholder, or a text. */
  datatype Label = Placeholder | Shown(text: string)

  predicate NonBlank(s: Option<string>) { s.Some? && JavaTrim(s.value) != "" }

  /** The collapsed caption line. */
  function CaptionText(caption: Option<string>): (l: Label)
    ensures l.Placeholder? <==> !NonBlank(caption)
    ensures l.Shown? ==> l.text == JavaTrim(caption.value) && l.text != ""
  {
    if !NonBlank(caption) then Placeholder else Shown(JavaTrim(caption.value))
  }

  /** The expanded text: trimmed caption, a blank line only when both parts
      are present, trimmed description. */
  function ExpandedText(caption: Option<string>, description: Option<string>): string
  {
    var head := if NonBlank(caption) then JavaTrim(caption.value) else "";
    if NonBlank(description) then
      (if |head| > 0 then head + "\n\n" else head) + JavaTrim(description.value)
    else head
  }

  /** The "read more" button. */
  predicate ShowExpandButton(caption: Option<string>, description: Option<string>)
  {
    NonBlank(description) || (caption.Some? && |JavaTrim(caption.value)| > 50)
  }

  /** The expanded text is the caption part followed by the description part,
      with the separator exactly when both are non-blank. */
  lemma ExpandedTextParts(caption: Option<string>, description: Option<string>)
    ensures var c := if NonBlank(caption) then JavaTrim(caption.value) else "";
            var d := if NonBlank(description) then JavaTrim(description.value) else "";
            ExpandedText(caption, description) ==
              c + (if c != "" && d != "" then "\n\n" else "") + d
  {
  }

  /** Without the button, expanding would show nothing the caption line does
      not: the expanded text is the collapsed caption (or empty), and that
      caption is at most 50 characters. */
  lemma NoButtonNothingHidden(caption: Option<string>, description: Option<string>)
    requires !ShowExpandButton(caption, description)
    ensures CaptionText(caption).Shown? ==>
      ExpandedText(caption, description) == CaptionText(caption).text &&
      |CaptionText(caption).text| <= 50
    ensures CaptionText(caption).Placeholder? ==> ExpandedText(caption, description) == ""
  {
  }

  /** What the `users/{userId}` lookup delivered. */
  datatype UserDocFetch =
    | FetchFailed
    | NoDocument
    | Document(name: Option<string>, username: Option<string>)

  /** `fetchUsername`: the untrimmed non-blank `name`, else the non-blank
      `username`, else the placeholder (also when there is no author id). */
  function AuthorLabel(userId: Option<string>, fetch: UserDocFetch): (l: Label)
    ensures l.Shown? ==>
      (userId.Some? && fetch.Document? &&
       ((NonBlank(fetch.name) && l.text == fetch.name.value) ||
        (!NonBlank(fetch.name) && NonBlank(fetch.username) && l.text == fetch.username.value)))
    ensures userId.Some? && fetch.Document? && NonBlank(fetch.name) ==> l == Shown(fetch.name.value)
    ensures userId.Some? && fetch.Document? && !NonBlank(fetch.name) && NonBlank(fetch.username) ==>
      l == Shown(fetch.username.value)
  {
    if userId.None? then Placeholder
    else match fetch
      case FetchFailed => Placeholder
      case NoDocument => Placeholder
      case Document(name, username) =>
        if NonBlank(name) then Shown(name.value)
        else if NonBlank(username) then Shown(username.value)
        else Placeholder
  }
}
