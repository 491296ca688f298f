# Food review app: a Dafny model of its core

The app lets diners sign in, post reviews of restaurants with photos,
vote on how accurate other people's reviews are, write community posts
with star ratings and quick comments, comment on and like posts, and
manage a profile with an avatar. Its data lives in Firestore collections
(`users`, `reviews`, `posts`, `restaurants`), its images in Firebase
Storage and a Supabase bucket, and a few settings in Android
SharedPreferences.

This project models the logic of the app's screens, adapters and
services, one Dafny module per source file:

- **Shared pieces.**
  - `common.dfy`: nullable values, the JVM's two trims, ASCII case folding, substring search, Java `long` subtraction and truncating division, decimal rendering.
  - `preferences.dfy`: a SharedPreferences file as a typed map.
  - `models.dfy`: the Firestore documents as values.
  - `review.dfy`: `data/Review.java` with its vote map and accuracy.
  - `elapsed.dfy`: the elapsed-time arithmetic every "time ago" label uses.
- **Sign-in and account screens.**
  - `login.dfy`: the guard chain and the 30-day remember-me state.
  - `register.dfy`: password-strength messages and the sign-up chain.
  - `forgot_password.dfy`: the reset-request guards and messages.
  - `change_password.dfy`: validation, reauthentication, then the update.
  - `profile_fragment.dfy`: the profile and password guard chains.
  - `settings.dfy`: the name/bio form, first-visit profile creation and the displayed-name fallback.
  - `profile_cache.dfy`: one profile cached as JSON for five minutes.
- **Reviews.**
  - `home.dfy`: the feed, its search filter and empty state.
  - `review_widget.dfy`: the review grid with its eight skeleton cards.
  - `review_details.dfy`: accuracy voting with rollback on a failed write, and the caption and author texts.
  - `add_fragment.dfy`: the new-review form, its checks, the sequential photo uploads and the saved document.
  - `review_service.dfy`: loading and searching reviews, and the saved field map.
- **Posts.**
  - `create_post.dfy`: the post text built from ratings and chips, the author lookup, the optional photo and the restaurant picker.
  - `post_detail.dfy`: likes, comments newest first, and the comment time labels.
  - `post_adapter.dfy`: the community list and its filter.
  - `comment_adapter.dfy`: the comment list.
  - `post_service.dfy`: loading and searching posts.
- **Activity.**
  - `activity_adapter.dfy`: the notifications list.
  - `grouped_activity.dfy`: the same list with date-group headers.
- **Restaurants and pictures.**
  - `restaurant_sync.dfy`: paged Google Places fetches, key normalisation, de-duplication and the 200-write cap.
  - `supabase_storage.dfy`: the profile picture in the Supabase bucket.
  - `avatar_fragment.dfy`: changing or removing the picture through that bucket.
  - `avatar_dialog.dfy`: the older dialog that uses Firebase Storage.

Objects whose fields the source updates in place are classes: screens,
dialogs, adapters and buckets. Their methods state every field's new
value. Pure computations are functions, and loops are methods with
invariants, proved against a specification function.

Every remote call is modelled by its outcome, given as a parameter:
Firestore, Firebase Auth, the storage services and HTTP. The clock is a
parameter `now`, in epoch milliseconds. Remote collections and buckets are
maps held in fields, and the requests sent are recorded as sequences. What
a screen shows is a field or a function result: texts, visibility, enabled
buttons and list contents.

`settings.dfy` follows the HEAD side of `SettingsFragment.java`, which
contains an unresolved merge conflict. The other side's two guard chains
are stated as separate functions.

## Model

| member | source | states |
|---|---|---|
| Common.EmailPrefix | app/src/main/java/com/example/food/SettingsFragment.java:299 | the part of an e-mail before its first '@'; the empty string for an empty address; an exception exactly when the address is made only of '@' |
| Common.LongSub | app/src/main/java/com/example/food/adapters/ActivityAdapter.java:152 | Java `long` subtraction: the true difference when it fits, otherwise that difference wrapped modulo 2^64 |
| Common.JDiv | app/src/main/java/com/example/food/adapters/ActivityAdapter.java:154 | Java division by a positive divisor: exact floor for non-negative operands, and for a negative operand minus the quotient of its magnitude, so it rounds toward zero |
| Common.JDivNegate | app/src/main/java/com/example/food/adapters/ActivityAdapter.java:154 | negating the dividend negates the quotient, so positive and negative differences round alike toward zero |
| Elapsed.ElapsedOf | app/src/main/java/com/example/food/adapters/ActivityAdapter.java:152-157 | the chained truncating divisions give each unit as the difference divided directly by that unit's length in milliseconds |
| Elapsed.AgeOf | app/src/main/java/com/example/food/adapters/ActivityAdapter.java:154-159 | every unit's count is at least one; the age is "a moment" exactly when less than a minute has passed |
| Elapsed.ShortAgeOf | app/src/main/java/com/example/food/adapter/CommentAdapter.java:106-109 | never months or weeks; a positive count; "a moment" exactly below one minute |
| Elapsed.CascadeIsAge | app/src/main/java/com/example/food/adapters/ActivityAdapter.java:154-183 | the first positive quotient of months, weeks, days, hours and minutes is the age read off the difference |
| Elapsed.ShortCascadeIsAge | app/src/main/java/com/example/food/adapter/CommentAdapter.java:106-119 | the first positive quotient of days, hours and minutes is the short age |
| Elapsed.AgeBounds | app/src/main/java/com/example/food/adapters/ActivityAdapter.java:165-180 | a day count stays below 7, an hour count below 24 and a minute count below 60, so the "this week" and "today" branches are dead |
| CommentList.ShortText | app/src/main/java/com/example/food/adapter/CommentAdapter.java:111-119 | "Just now" for a moment; every other age ends in " ago" |
| CommentList.TimeAgo | app/src/main/java/com/example/food/adapter/CommentAdapter.java:101-120 | the comment's relative time; TimeAgoIsAge, FutureIsJustNow and JustNowBelowAMinute state what it shows |
| CommentList.TimeAgoIsAge | app/src/main/java/com/example/food/adapter/CommentAdapter.java:101-120 | the text is the short form of the largest of days, hours and minutes with a positive count |
| CommentList.FutureIsJustNow | app/src/main/java/com/example/food/adapter/CommentAdapter.java:102-118 | a creation time in the future reads "Just now" |
| CommentList.JustNowBelowAMinute | app/src/main/java/com/example/food/adapter/CommentAdapter.java:106-118 | "Just now" exactly when less than a minute has passed |
| CommentList.TimeText | app/src/main/java/com/example/food/adapter/CommentAdapter.java:88-96 | no time text without a creation time, otherwise the relative time |
| CommentList.CommentAdapter.constructor | app/src/main/java/com/example/food/adapter/CommentAdapter.java:38-40 | the list starts empty |
| CommentList.CommentAdapter.UpdateComments | app/src/main/java/com/example/food/adapter/CommentAdapter.java:45-48 | the given list replaces the old one |
| CommentList.CommentAdapter.ItemCount | app/src/main/java/com/example/food/adapter/CommentAdapter.java:64-67 | the count is the list's size |
| ActivityFeed.AgeText | app/src/main/java/com/example/food/adapters/ActivityAdapter.java:161-183 | "just now" exactly for a moment and "yesterday" exactly for one day |
| ActivityFeed.FormatTimestamp | app/src/main/java/com/example/food/adapters/ActivityAdapter.java:150-184 | the feed's relative-time text; FormatTimestampIsAge, DeadBranchesUnreachable and FutureIsJustNow state what it shows |
| ActivityFeed.FormatTimestampIsAge | app/src/main/java/com/example/food/adapters/ActivityAdapter.java:150-184 | the text is the words for the age of now minus the timestamp |
| ActivityFeed.DeadBranchesUnreachable | app/src/main/java/com/example/food/adapters/ActivityAdapter.java:168-178 | "this week" and "today" are never shown |
| ActivityFeed.FutureIsJustNow | app/src/main/java/com/example/food/adapters/ActivityAdapter.java:150-183 | a timestamp in the future reads "just now" |
| ActivityFeed.ShowsAvatar | app/src/main/java/com/example/food/adapters/ActivityAdapter.java:105-118 | whether the avatar image is loaded; AvatarIffNonBlank states when |
| ActivityFeed.AvatarIffNonBlank | app/src/main/java/com/example/food/adapters/ActivityAdapter.java:105-118 | the avatar is loaded exactly when the URL is present and holds a character above a space; a URL of blanks only shows the placeholder |
| ActivityFeed.Names | app/src/main/java/com/example/food/adapters/ActivityAdapter.java:120-126 | the user's name or "Someone", the restaurant's name or "Unknown" |
| ActivityFeed.ActionText | app/src/main/java/com/example/food/adapters/ActivityAdapter.java:128-140 | a text exactly for a comment or an accurate vote |
| ActivityFeed.TimeText | app/src/main/java/com/example/food/adapters/ActivityAdapter.java:142-147 | empty exactly without a timestamp |
| ActivityFeed.ActivityAdapter.constructor | app/src/main/java/com/example/food/adapters/ActivityAdapter.java:37-40 | a null list becomes an empty one |
| ActivityFeed.ActivityAdapter.SetActivities | app/src/main/java/com/example/food/adapters/ActivityAdapter.java:61-64 | the new list replaces the old; null becomes empty |
| ReviewData.NewReview | app/src/main/java/com/example/food/data/Review.java:63-82 | every given field is kept; a new review has no update time, no helpful votes, 100% accuracy, no votes, no comments and a square first image |
| ReviewData.ImageTypesExclusive | app/src/main/java/com/example/food/data/Review.java:140-158 | at most one orientation test holds, and none without a type |
| GroupedActivity.DateGroup | app/src/main/java/com/example/food/adapters/GroupedActivityAdapter.java:68-86 | "Unknown" exactly when there is no timestamp; otherwise one of the five day groups |
| GroupedActivity.DateGroupRanges | app/src/main/java/com/example/food/adapters/GroupedActivityAdapter.java:72-85 | each group as a range of the millisecond difference; a timestamp more than a day ahead lands in "This Week" because the division truncates |
| GroupedActivity.ActivitiesOfAppend | app/src/main/java/com/example/food/adapters/GroupedActivityAdapter.java:58-65 | dropping headers distributes over concatenation |
| GroupedActivity.GroupedStep | app/src/main/java/com/example/food/adapters/GroupedActivityAdapter.java:58-65 | one more activity appends a header only when its group differs from its predecessor's, then the activity |
| GroupedActivity.Grouped | app/src/main/java/com/example/food/adapters/GroupedActivityAdapter.java:49-66 | the headers-and-activities list the loop builds; GroupedStep, HeadersRemoved, ItemCount, OpensWithHeader and GroupedHeadersLead state its shape |
| GroupedActivity.HeadersRemoved | app/src/main/java/com/example/food/adapters/GroupedActivityAdapter.java:49-66 | removing the headers gives back the input list, in order |
| GroupedActivity.ItemCount | app/src/main/java/com/example/food/adapters/GroupedActivityAdapter.java:119-122 | the item count is the number of activities plus the number of group changes |
| GroupedActivity.OpensWithHeader | app/src/main/java/com/example/food/adapters/GroupedActivityAdapter.java:57-62 | a non-empty list opens with the first activity's group header |
| GroupedActivity.GroupedHeadersLead | app/src/main/java/com/example/food/adapters/GroupedActivityAdapter.java:56-65 | every header is followed by an activity of that group, and the list ends with an activity |
| GroupedActivity.RepeatedGroups | app/src/main/java/com/example/food/adapters/GroupedActivityAdapter.java:56-65 | an unsorted list repeats a group: "Unknown", "Today", "Unknown" give three headers |
| GroupedActivity.AgeLetter | app/src/main/java/com/example/food/adapters/GroupedActivityAdapter.java:258-270 | every short label has at least two characters: a count and a letter, or "now" |
| GroupedActivity.FormatTimestamp | app/src/main/java/com/example/food/adapters/GroupedActivityAdapter.java:247-271 | the short age label; FormatTimestampIsAge, AgeLetter and MonthLooksLikeMinute state what it shows |
| GroupedActivity.FormatTimestampIsAge | app/src/main/java/com/example/food/adapters/GroupedActivityAdapter.java:247-271 | the short label and the long activity text are both read off the same age |
| GroupedActivity.MonthLooksLikeMinute | app/src/main/java/com/example/food/adapters/GroupedActivityAdapter.java:258-267 | one month and one minute both read "1m" |
| GroupedActivity.OlderIsMonths | app/src/main/java/com/example/food/adapters/GroupedActivityAdapter.java:81-85 | "Older" is exactly the group whose activities show a month count |
| GroupedActivity.GroupedActivityAdapter.constructor | app/src/main/java/com/example/food/adapters/GroupedActivityAdapter.java:43-47 | the items are the grouped list |
| GroupedActivity.GroupedActivityAdapter.GroupActivities | app/src/main/java/com/example/food/adapters/GroupedActivityAdapter.java:49-66 | the items become the headers-and-activities list; empty for a null or empty input |
| GroupedActivity.GroupedActivityAdapter.SetActivities | app/src/main/java/com/example/food/adapters/GroupedActivityAdapter.java:124-127 | the items are rebuilt from the new list |
| GroupedActivity.GroupedActivityAdapter.GetItemViewType | app/src/main/java/com/example/food/adapters/GroupedActivityAdapter.java:89-92 | the header type exactly for a header, the activity type exactly for an activity |
| GroupedActivity.RowNames | app/src/main/java/com/example/food/adapters/GroupedActivityAdapter.java:199-205 | the names, with "User" and "Restaurant" for missing ones |
| GroupedActivity.RowTime | app/src/main/java/com/example/food/adapters/GroupedActivityAdapter.java:239-244 | empty exactly without a timestamp |
| RestaurantSync.BuildRestaurantKey | app/src/main/java/com/example/food/service/GooglePlacesRestaurantSyncService.java:252-255 | the key is empty exactly when the name or the address is missing or empty |
| RestaurantSync.KeyIgnoresSurroundingBlanks | app/src/main/java/com/example/food/service/GooglePlacesRestaurantSyncService.java:252-255 | blanks around either part do not change a key |
| RestaurantSync.KeyIgnoresCase | app/src/main/java/com/example/food/service/GooglePlacesRestaurantSyncService.java:252-255 | upper- and lower-case spellings of a name and address give one key |
| RestaurantSync.SplitOnSpace | app/src/main/java/com/example/food/service/GooglePlacesRestaurantSyncService.java:241 | `split(" ")` gives at least one piece and no piece holds a space |
| RestaurantSync.Words | app/src/main/java/com/example/food/service/GooglePlacesRestaurantSyncService.java:243-244 | the non-empty pieces, never more than the pieces |
| RestaurantSync.CapitalizeWord | app/src/main/java/com/example/food/service/GooglePlacesRestaurantSyncService.java:246-247 | the first character upper-cased, the rest kept |
| RestaurantSync.CapitalizeAll | app/src/main/java/com/example/food/service/GooglePlacesRestaurantSyncService.java:243-248 | each word capitalised, in order |
| RestaurantSync.JoinSpaced | app/src/main/java/com/example/food/service/GooglePlacesRestaurantSyncService.java:245 | one word is itself; two or more never join to the empty string |
| RestaurantSync.JoinedEmpty | app/src/main/java/com/example/food/service/GooglePlacesRestaurantSyncService.java:249 | the loop's result is empty exactly when there is no non-empty piece, which is when "Restaurant" is returned |
| RestaurantSync.WordsStep | app/src/main/java/com/example/food/service/GooglePlacesRestaurantSyncService.java:243-244 | an empty piece is skipped; any other piece is the next word |
| RestaurantSync.CapitalizeStep | app/src/main/java/com/example/food/service/GooglePlacesRestaurantSyncService.java:245-247 | the next word's capitalised form follows a space, unless it is the first word |
| RestaurantSync.JoinStep | app/src/main/java/com/example/food/service/GooglePlacesRestaurantSyncService.java:243-248 | the text built after one more piece is the capitalised words so far joined by spaces |
| RestaurantSync.JoinCapitalized | app/src/main/java/com/example/food/service/GooglePlacesRestaurantSyncService.java:242-248 | the loop builds the capitalised non-empty words joined by single spaces |
| RestaurantSync.Capitalize | app/src/main/java/com/example/food/service/GooglePlacesRestaurantSyncService.java:240-250 | `capitalize` returns the capitalised words joined by single spaces, or "Restaurant" when there is none |
| RestaurantSync.SplitJoin | app/src/main/java/com/example/food/service/GooglePlacesRestaurantSyncService.java:241-248 | splitting words joined by spaces gives the words back |
| RestaurantSync.CapitalizeKeepsWords | app/src/main/java/com/example/food/service/GooglePlacesRestaurantSyncService.java:240-250 | capitalising keeps the word count and capitalises each word |
| RestaurantSync.FallbackCapitalized | app/src/main/java/com/example/food/service/GooglePlacesRestaurantSyncService.java:249 | the fallback "Restaurant" is its own capitalisation |
| RestaurantSync.CapitalizeIdempotent | app/src/main/java/com/example/food/service/GooglePlacesRestaurantSyncService.java:240-250 | capitalising a second time changes nothing |
| RestaurantSync.ReplaceUnderscores | app/src/main/java/com/example/food/service/GooglePlacesRestaurantSyncService.java:235 | no underscore is left and every other character is kept |
| RestaurantSync.FirstSpecific | app/src/main/java/com/example/food/service/GooglePlacesRestaurantSyncService.java:230-236 | the index of the first non-generic type; none exactly when every type is generic |
| RestaurantSync.CategorySkipsGeneric | app/src/main/java/com/example/food/service/GooglePlacesRestaurantSyncService.java:227-238 | generic types in front of a list do not change its category |
| RestaurantSync.GetCategory | app/src/main/java/com/example/food/service/GooglePlacesRestaurantSyncService.java:227-238 | the loop returns the category of the first specific type, or "Restaurant" |
| RestaurantSync.ParsePlace | app/src/main/java/com/example/food/service/GooglePlacesRestaurantSyncService.java:208-225 | a place exactly when id, name, geometry, location, latitude and longitude are all present; its fields come from the JSON, with the address falling back to `vicinity` |
| RestaurantSync.ParsedKeyEmptyIffNoAddress | app/src/main/java/com/example/food/service/GooglePlacesRestaurantSyncService.java:110-111 | a parsed place escapes de-duplication exactly when its address is empty |
| RestaurantSync.ParseAll | app/src/main/java/com/example/food/service/GooglePlacesRestaurantSyncService.java:167-170 | the places that parse, never more than the results |
| RestaurantSync.FetchFrom | app/src/main/java/com/example/food/service/GooglePlacesRestaurantSyncService.java:159-178 | never more requests than the pages left |
| RestaurantSync.Fetch | app/src/main/java/com/example/food/service/GooglePlacesRestaurantSyncService.java:154-181 | at most ten requests |
| RestaurantSync.FetchFromRequests | app/src/main/java/com/example/food/service/GooglePlacesRestaurantSyncService.java:159-178 | the first request carries the given token, later ones a non-empty token, and the loop stops only for a failure, the page limit, 200 places or a missing token |
| RestaurantSync.FetchRequests | app/src/main/java/com/example/food/service/GooglePlacesRestaurantSyncService.java:154-181 | between one and ten requests, the first without a token; it stops only for the reasons above |
| RestaurantSync.AddParsed | app/src/main/java/com/example/food/service/GooglePlacesRestaurantSyncService.java:166-171 | every result that parses is appended, in order; an absent array adds nothing |
| RestaurantSync.FetchFromStep | app/src/main/java/com/example/food/service/GooglePlacesRestaurantSyncService.java:159-178 | one page unfolded: a failure stops, a page adds its places and goes on only with a token |
| RestaurantSync.FetchPlaces | app/src/main/java/com/example/food/service/GooglePlacesRestaurantSyncService.java:154-181 | the loop returns the places, the tokens sent and the success that the specification `Fetch` gives |
| RestaurantSync.Dedup | app/src/main/java/com/example/food/service/GooglePlacesRestaurantSyncService.java:107-125 | at most 200 places pass, never more than offered; the known keys only grow and hold every passed key |
| RestaurantSync.DedupWritesNewKeys | app/src/main/java/com/example/food/service/GooglePlacesRestaurantSyncService.java:110-111 | no place written has a key already in the collection, and no two places written share a non-empty key |
| RestaurantSync.DedupKeepsKeyless | app/src/main/java/com/example/food/service/GooglePlacesRestaurantSyncService.java:111 | places without a key are all written, up to 200 |
| RestaurantSync.DedupSaturated | app/src/main/java/com/example/food/service/GooglePlacesRestaurantSyncService.java:108 | once 200 places are written the rest of the list changes nothing |
| RestaurantSync.DedupStep | app/src/main/java/com/example/food/service/GooglePlacesRestaurantSyncService.java:107-125 | one more place: skipped at 200 or for a known key, otherwise passed and its key remembered |
| RestaurantSync.PlaceData | app/src/main/java/com/example/food/service/GooglePlacesRestaurantSyncService.java:113-119 | exactly the six fields name, address, latitude, longitude, category and region |
| RestaurantSync.Merge | app/src/main/java/com/example/food/service/GooglePlacesRestaurantSyncService.java:121 | a merge write leaves exactly one more document id, the written one, in the collection |
| RestaurantSync.MergeFields | app/src/main/java/com/example/food/service/GooglePlacesRestaurantSyncService.java:121 | a merge write sets the given fields, keeps the document's other fields and touches no other document |
| RestaurantSync.ApplyWrites | app/src/main/java/com/example/food/service/GooglePlacesRestaurantSyncService.java:107-125 | the writes never remove a document |
| RestaurantSync.ApplyWritesCreates | app/src/main/java/com/example/food/service/GooglePlacesRestaurantSyncService.java:121 | every place written has a document afterwards, and every document was there before or was written |
| RestaurantSync.ApplyWritesStep | app/src/main/java/com/example/food/service/GooglePlacesRestaurantSyncService.java:121 | one more write merges that place's data |
| RestaurantSync.DedupPrefix | app/src/main/java/com/example/food/service/GooglePlacesRestaurantSyncService.java:106-127 | the places written after part of the list are the first of those written after the whole list |
| RestaurantSync.WriteStops | app/src/main/java/com/example/food/service/GooglePlacesRestaurantSyncService.java:121 | when a write throws, the writes already done are exactly the ones before it in the full list |
| RestaurantSync.WriteLoop | app/src/main/java/com/example/food/service/GooglePlacesRestaurantSyncService.java:106-127 | the loop stops at the end of the list, at 200 writes, or at the first new place whose write throws; what it has written is everything de-duplicated so far |
| RestaurantSync.WriteNewPlaces | app/src/main/java/com/example/food/service/GooglePlacesRestaurantSyncService.java:103-127 | without a failing write, the loop writes exactly the de-duplicated places and both counts are their number; a write that throws stops the loop, and only the writes before it are done |
| RestaurantSync.RestaurantSyncService.constructor | app/src/main/java/com/example/food/service/GooglePlacesRestaurantSyncService.java:48-55 | the configured key and the current collection, no request yet |
| RestaurantSync.CollectKeys | app/src/main/java/com/example/food/service/GooglePlacesRestaurantSyncService.java:92-97 | no key set when some document's name or address is not a string, since `getString` throws; otherwise the non-empty keys of every document |
| RestaurantSync.RestaurantSyncService.ExistingKeys | app/src/main/java/com/example/food/service/GooglePlacesRestaurantSyncService.java:92-97 | the non-empty keys of the existing documents, or none when some name or address is not a string |
| RestaurantSync.RestaurantSyncService.SyncRestaurants | app/src/main/java/com/example/food/service/GooglePlacesRestaurantSyncService.java:81-134 | without an API key nothing is read, requested or written; a failed read, or a name or address that is not a string, fails before any request; a failed request writes nothing; a write that throws fails the sync, keeping the writes before it; otherwise the de-duplicated places are merged and both counts equal their number |
| ReviewDetails.Accuracy | app/src/main/java/com/example/food/dialogs/ReviewDetailsDialog.java:264-279 | the accuracy percentage of a vote map; AccuracyBounds, AccuracyFull, AccuracyZero and CalculateAccuracyFromVotes state it |
| ReviewDetails.AccuracyBounds | app/src/main/java/com/example/food/dialogs/ReviewDetailsDialog.java:264-279 | the accuracy is a percentage between 0 and 100 |
| ReviewDetails.AccuracyFull | app/src/main/java/com/example/food/dialogs/ReviewDetailsDialog.java:264-279 | 100% exactly when there is a vote and every entry is a `true` vote |
| ReviewDetails.AccuracyZero | app/src/main/java/com/example/food/dialogs/ReviewDetailsDialog.java:264-279 | 0% exactly when no entry is a `true` vote, including when there are no votes |
| ReviewDetails.PercentExtremes | app/src/main/java/com/example/food/dialogs/ReviewDetailsDialog.java:278 | a share is 100% exactly when all count and 0% exactly when none does |
| ReviewDetails.CalculateAccuracyFromVotes | app/src/main/java/com/example/food/dialogs/ReviewDetailsDialog.java:264-279 | the counting loop gives the share of `true` entries among all entries, null ones included, and 0 without votes |
| ReviewDetails.ApplyVote | app/src/main/java/com/example/food/dialogs/ReviewDetailsDialog.java:430-438 | the vote map after a press; ApplyVoteEffect and VoteTwiceFromNone state it |
| ReviewDetails.ApplyVoteEffect | app/src/main/java/com/example/food/dialogs/ReviewDetailsDialog.java:430-438 | pressing the button of one's own non-null vote withdraws it, otherwise the chosen vote is recorded; no other user's entry changes |
| ReviewDetails.RevertVote | app/src/main/java/com/example/food/dialogs/ReviewDetailsDialog.java:461-466 | the failure handler's map; RevertUndoesVote states that it restores the map the vote was applied to |
| ReviewDetails.RevertUndoesVote | app/src/main/java/com/example/food/dialogs/ReviewDetailsDialog.java:461-466 | the failure handler restores exactly the map the vote was applied to |
| ReviewDetails.VoteTwiceFromNone | app/src/main/java/com/example/food/dialogs/ReviewDetailsDialog.java:430-438 | pressing the same button twice from no vote leaves no vote |
| ReviewDetails.ReviewDetailsDialog.constructor | app/src/main/java/com/example/food/dialogs/ReviewDetailsDialog.java:91-96 | the review is shown as given, with no vote of the user known, nothing sent and no vote-count view bound (the layout has none) |
| ReviewDetails.ReviewDetailsDialog.UpdateAccuracyDisplay | app/src/main/java/com/example/food/dialogs/ReviewDetailsDialog.java:255-262 | only the review's `accuracyPercent` changes, to the accuracy of its votes |
| ReviewDetails.ReviewDetailsDialog.Vote | app/src/main/java/com/example/food/dialogs/ReviewDetailsDialog.java:419-471 | signed out nothing changes; otherwise the new votes and their accuracy are sent in one update, and afterwards the review and the user's vote reflect the new map if the update succeeded and the old map if it failed; the vote-count view stays unbound |
| ReviewDetails.ReviewDetailsDialog.UpdateVoteDisplay | app/src/main/java/com/example/food/dialogs/ReviewDetailsDialog.java:281-293 | without a bound vote-count view nothing changes; with one it would show the as-written count of every entry |
| ReviewDetails.VoteOutcome | app/src/main/java/com/example/food/dialogs/ReviewDetailsDialog.java:433-469 | a vote keeps the accuracy a percentage, and a failed vote leaves the user's entry as it was |
| ReviewDetails.VoteCountTextAsWritten | app/src/main/java/com/example/food/dialogs/ReviewDetailsDialog.java:281-293 | the text the unreachable display code would set; VoteCountTextAsWrittenMiscounts shows it counting inaccurate votes |
| ReviewDetails.VoteCountTextAsWrittenMiscounts | app/src/main/java/com/example/food/dialogs/ReviewDetailsDialog.java:281-293 | as written, the text the unreachable display code would set for one "inaccurate" vote is "1 person found this accurate" while the accuracy is 0% |
| ReviewDetails.VoteCountText | app/src/main/java/com/example/food/dialogs/ReviewDetailsDialog.java:281-293 | the corrected count of `true` votes only; InaccurateVoteKeepsCount states that an inaccurate vote leaves it unchanged |
| ReviewDetails.InaccurateVoteKeepsCount | app/src/main/java/com/example/food/dialogs/ReviewDetailsDialog.java:281-293 | counting only `true` votes, a new "inaccurate" vote never changes the text |
| ReviewDetails.CaptionText | app/src/main/java/com/example/food/dialogs/ReviewDetailsDialog.java:612-617 | the placeholder exactly for a missing or blank caption, else the trimmed caption |
| ReviewDetails.ExpandedText | app/src/main/java/com/example/food/dialogs/ReviewDetailsDialog.java:622-634 | the expanded caption text; ExpandedTextParts states its parts |
| ReviewDetails.ExpandedTextParts | app/src/main/java/com/example/food/dialogs/ReviewDetailsDialog.java:622-634 | the expanded text is the trimmed caption, a blank line only when both parts are present, then the trimmed description |
| ReviewDetails.ShowExpandButton | app/src/main/java/com/example/food/dialogs/ReviewDetailsDialog.java:636-663 | whether "read more" shows; NoButtonNothingHidden states that without it nothing is hidden |
| ReviewDetails.NoButtonNothingHidden | app/src/main/java/com/example/food/dialogs/ReviewDetailsDialog.java:636-663 | without the "read more" button, expanding would show nothing more than the caption line, which is at most 50 characters |
| ReviewDetails.AuthorLabel | app/src/main/java/com/example/food/dialogs/ReviewDetailsDialog.java:295-326 | the untrimmed name when it is non-blank, else the non-blank username, else the placeholder; the placeholder also without an author, a document or on failure |
| Register.Failing | app/src/main/java/com/example/food/RegisterActivity.java:280-298 | a rule is listed exactly when the password fails it |
| Register.ConcatAppend | app/src/main/java/com/example/food/RegisterActivity.java:278-298 | the builder's text for two runs of failed rules is the two texts in sequence |
| Register.ConcatIfFails | app/src/main/java/com/example/food/RegisterActivity.java:280-298 | each check appends its bullet exactly when the password fails it |
| Register.StrengthErrorsIsConcat | app/src/main/java/com/example/food/RegisterActivity.java:278-298 | the builder holds exactly the pieces of the failed rules, in rule order |
| Register.ConcatIsJoin | app/src/main/java/com/example/food/RegisterActivity.java:281-297 | the pieces are the bullets joined by newlines, with a trailing newline unless the last failed rule is the special-character one |
| Register.FailingSpecialLast | app/src/main/java/com/example/food/RegisterActivity.java:296-298 | the special-character rule can only be the last failed one |
| Register.JoinLinesEnds | app/src/main/java/com/example/food/RegisterActivity.java:281-297 | every joined message starts with a bullet and ends with a letter, so trimming cuts only a trailing newline |
| Register.TrimmedErrors | app/src/main/java/com/example/food/RegisterActivity.java:300 | the trimmed builder is the failed rules' bullets joined by newlines |
| Register.ValidatePasswordStrength | app/src/main/java/com/example/food/RegisterActivity.java:277-306 | the message the rule checks build; its meaning is stated by StrengthMessage, TrimmedErrors and StrongIff: empty exactly for a strong password, otherwise a header and the failed rules' bullets |
| Register.StrengthMessage | app/src/main/java/com/example/food/RegisterActivity.java:277-306 | empty when every rule holds; otherwise the header followed by the failed rules' bullets, one per line, in rule order |
| Register.StrongIff | app/src/main/java/com/example/food/RegisterActivity.java:277-306 | a password is accepted exactly when it has at least eight characters and, with no line terminator, an upper-case letter, a lower-case letter, a digit and a special character |
| Register.DecideRegistration | app/src/main/java/com/example/food/RegisterActivity.java:154-220 | the checks of `registerUser` on the trimmed inputs, in source order; CreateAccountIff, MismatchBeforeStrength and DecisionIgnoresSurroundingBlanks state what it decides |
| Register.CreateAccountIff | app/src/main/java/com/example/food/RegisterActivity.java:154-220 | an account is requested exactly when every check passes on the trimmed inputs, and then with the trimmed name, e-mail and password |
| Register.MismatchBeforeStrength | app/src/main/java/com/example/food/RegisterActivity.java:204-216 | a confirmation mismatch is reported even when the password is also weak |
| Register.DecisionIgnoresSurroundingBlanks | app/src/main/java/com/example/food/RegisterActivity.java:155-158 | surrounding blanks in any field never change the decision |
| Register.RegisterOutcome | app/src/main/java/com/example/food/RegisterActivity.java:171-270 | a rejection shows one message under its field and writes nothing; an accepted sign-up shows no error, and only a created account whose document is stored writes name and e-mail under its uid and moves on to login |
| Register.RegisterActivity.constructor | app/src/main/java/com/example/food/RegisterActivity.java:57-58 | not loading, no error, both passwords hidden |
| Register.RegisterActivity.TogglePassword | app/src/main/java/com/example/food/RegisterActivity.java:124-135 | flips the password's visibility and nothing else |
| Register.RegisterActivity.ToggleConfirmPassword | app/src/main/java/com/example/food/RegisterActivity.java:137-148 | flips the confirmation's visibility and nothing else |
| Register.RegisterActivity.RegisterUser | app/src/main/java/com/example/food/RegisterActivity.java:154-238 | the screen ends as the sign-up outcome of the decision says, with the loading state off on every path |
| Register.RegisterActivity.Finish | app/src/main/java/com/example/food/RegisterActivity.java:171-270 | after the checks: the rejection, or the account creation and the `users` write, with the loading state off |
| ChangePassword.ValidatePasswordStrengthKt | app/src/main/java/com/example/food/ChangePasswordDialog.kt:225-254 | the Kotlin strength builder with Kotlin's trim; SameStrengthMessage proves it equals the sign-up screen's message for every password |
| ChangePassword.SameStrengthMessage | app/src/main/java/com/example/food/ChangePasswordDialog.kt:225-254 | the Kotlin strength message equals the sign-up screen's for every password, although the two trims differ |
| ChangePassword.Show | app/src/main/java/com/example/food/ChangePasswordDialog.kt:214-218 | `showError` sets the message of its one field and leaves the other two as they were |
| ChangePassword.Overlay | app/src/main/java/com/example/food/ChangePasswordDialog.kt:178-206 | a field shows the newly raised message when there is one, otherwise what it showed |
| ChangePassword.InputErrors | app/src/main/java/com/example/food/ChangePasswordDialog.kt:178-206 | every field is checked independently: the current password exactly when empty; the new one when empty or weak, with the strength message; the confirmation when empty or different from the new password |
| ChangePassword.InputsValidIff | app/src/main/java/com/example/food/ChangePasswordDialog.kt:178-206 | the inputs pass exactly when all three are filled, the new password meets the sign-up rules and the confirmation equals it |
| ChangePassword.AllEmptyShowsThree | app/src/main/java/com/example/food/ChangePasswordDialog.kt:181-203 | three empty fields show three errors at once |
| ChangePassword.PasswordChangeError | app/src/main/java/com/example/food/ChangePasswordDialog.kt:163-176 | "wrong-password" or "invalid-credential" goes under the current password; otherwise "weak-password" gives the too-weak text under the new one; anything else, a null message included, shows "Current password is incorrect" under the new password |
| ChangePassword.AuthCalls | app/src/main/java/com/example/food/ChangePasswordDialog.kt:141-146 | no call without an e-mail; otherwise a reauthentication with the current password, followed by the update exactly when that succeeded |
| ChangePassword.RunFailure | app/src/main/java/com/example/food/ChangePasswordDialog.kt:141-159 | a run fails unless there is an e-mail and both calls succeed; a missing e-mail fails with no message |
| ChangePassword.SendOutcome | app/src/main/java/com/example/food/ChangePasswordDialog.kt:134-160 | signed out: one error and no call; otherwise the calls are made and the dialog is dismissed with confirm disabled, or the mapped failure is shown and confirm is enabled again |
| ChangePassword.SubmitOutcome | app/src/main/java/com/example/food/ChangePasswordDialog.kt:128-161 | invalid input shows its errors and calls nothing; valid input proceeds to the auth calls |
| ChangePassword.ChangePasswordDialog.constructor | app/src/main/java/com/example/food/ChangePasswordDialog.kt:27-43 | no error, confirm enabled, every password hidden, no call made |
| ChangePassword.ChangePasswordDialog.ToggleCurrentPassword | app/src/main/java/com/example/food/ChangePasswordDialog.kt:83-94 | flips the current password's visibility and nothing else |
| ChangePassword.ChangePasswordDialog.ToggleNewPassword | app/src/main/java/com/example/food/ChangePasswordDialog.kt:96-107 | flips the new password's visibility and nothing else |
| ChangePassword.ChangePasswordDialog.ToggleConfirmPassword | app/src/main/java/com/example/food/ChangePasswordDialog.kt:109-120 | flips the confirmation's visibility and nothing else |
| ChangePassword.ChangePasswordDialog.ValidateInputs | app/src/main/java/com/example/food/ChangePasswordDialog.kt:178-206 | valid exactly when no field has an error; the raised errors are shown over the existing ones |
| ChangePassword.ChangePasswordDialog.ChangePassword | app/src/main/java/com/example/food/ChangePasswordDialog.kt:123-161 | the three inputs are trimmed, then the dialog ends as the submission outcome says |
| ChangePassword.ChangePasswordDialog.Submit | app/src/main/java/com/example/food/ChangePasswordDialog.kt:128-161 | errors are cleared, then the dialog ends as the submission outcome says |
| ChangePassword.ChangePasswordDialog.Send | app/src/main/java/com/example/food/ChangePasswordDialog.kt:134-160 | the dialog ends as the send outcome says |
| ChangePassword.UpdateOnlyAfterReauth | app/src/main/java/com/example/food/ChangePasswordDialog.kt:143-145 | the password is only ever updated right after a successful reauthentication with the current password |
| ProfileScreen.DecideProfileUpdate | app/src/main/java/com/example/food/ProfileFragment.java:86-125 | an empty username, then an empty e-mail, is rejected; signed out nothing happens; otherwise `name` is written, and `email` too exactly when it differs from the auth e-mail |
| ProfileScreen.WrittenFieldsAreTrimmed | app/src/main/java/com/example/food/ProfileFragment.java:83-84 | blanks around the username or the e-mail never reach the store, and the written name is never empty |
| ProfileScreen.ProblemText | app/src/main/java/com/example/food/ProfileFragment.java:147-169 | the message each failed password check sets on its field |
| ProfileScreen.PasswordDialogCheck | app/src/main/java/com/example/food/ProfileFragment.java:147-169 | current empty, new empty, new shorter than 6, mismatch, in that order, the first failure stopping; passing exactly when none applies |
| ProfileScreen.ConfirmPasswordDialog | app/src/main/java/com/example/food/ProfileFragment.java:142-196 | a field error exactly when a check fails; otherwise reauthentication, then the update only when it succeeded, and the dialog is dismissed exactly when there is an e-mail and both calls succeed |
| ProfileScreen.PasswordChangedOnlyAfterReauth | app/src/main/java/com/example/food/ProfileFragment.java:177-196 | the password is updated only after a successful reauthentication, and a dismissed dialog means the trimmed new password was sent |
| Settings.NameError | app/src/main/java/com/example/food/SettingsFragment.java:395-413 | a name is valid exactly when its trimmed length is between 2 and 30; the empty, too-short and too-long messages are checked in that order; the bio is never checked |
| Settings.NewProfileName | app/src/main/java/com/example/food/SettingsFragment.java:297-300 | the display name when it is non-blank, otherwise the e-mail's part before '@', with the exceptions of a null e-mail or one made only of '@' |
| Settings.FallbackNameIsEmailPrefix | app/src/main/java/com/example/food/SettingsFragment.java:298-300 | a fallback name holds no '@' and is a prefix of the e-mail |
| Settings.ShownName | app/src/main/java/com/example/food/SettingsFragment.java:331-334 | the profile's name, or "Food Explorer" when it is null or blank |
| Settings.ShownNameNotBlank | app/src/main/java/com/example/food/SettingsFragment.java:331-337 | the name shown is never blank |
| Settings.SettingsScreen.constructor | app/src/main/java/com/example/food/SettingsFragment.java:128-135 | no profile loaded, no update in flight, no error, button enabled |
| Settings.Unchanged | app/src/main/java/com/example/food/SettingsFragment.java:355-360 | the stored profile already holds the name and bio; UpdateProfile states that nothing is sent then |
| Settings.SettingsScreen.UpdateProfile | app/src/main/java/com/example/food/SettingsFragment.java:346-370 | nothing with no user or while an update is in flight; otherwise the name error is shown and a write is started exactly when the name is valid and name or bio differs from the stored profile; the button is disabled exactly while a write is in flight |
| Settings.SettingsScreen.CompleteUpdate | app/src/main/java/com/example/food/SettingsFragment.java:371-392 | the flag and button are reset on both outcomes; only a write that succeeds, which needs the user's document to exist, changes the stored document, the local profile and the cache |
| Settings.SettingsScreen.CreateUserProfile | app/src/main/java/com/example/food/SettingsFragment.java:294-325 | the first profile has the fallback name in both name fields and an empty bio; it is shown at once, stored and cached only when the write succeeds; nothing happens without a user or when the e-mail prefix throws |
| Settings.FirstProfile | app/src/main/java/com/example/food/SettingsFragment.java:297-308 | the profile created on first visit carries the user's id and e-mail, the fallback name in both name fields, an empty bio, no picture, and `now` as both times; it exists exactly when the name can be computed |
| Settings.IncomingUsernameError | app/src/main/java/com/example/food/SettingsFragment.java:499-506 | the other side of the conflict refuses exactly an empty trimmed username |
| Settings.IncomingPasswordError | app/src/main/java/com/example/food/SettingsFragment.java:590-620 | the other side's password dialog checks current, new, length 6 and mismatch in order, like ProfileFragment's |
| Login.ClearRememberMe | app/src/main/java/com/example/food/LoginActivity.java:204-210 | REMEMBER_ME is false, no e-mail and no login time remain, and every other key is kept |
| Login.SaveRememberMe | app/src/main/java/com/example/food/LoginActivity.java:189-201 | the box's state is stored; when ticked the e-mail and the time are stored, otherwise both are removed; every other key is kept |
| Login.RememberValid | app/src/main/java/com/example/food/LoginActivity.java:163-181 | whether a remembered state is still valid; RememberRoundTrip and RememberExpires state its thirty-day window |
| Login.RememberedEmail | app/src/main/java/com/example/food/LoginActivity.java:163-181 | an e-mail is prefilled exactly when the state is remembered, less than thirty days old by `long` subtraction, and the stored e-mail is non-empty |
| Login.RememberRoundTrip | app/src/main/java/com/example/food/LoginActivity.java:167-175 | saving with the box ticked and loading less than thirty days later gives the e-mail back |
| Login.RememberExpires | app/src/main/java/com/example/food/LoginActivity.java:172-185 | thirty days or more after saving the remembered state is no longer valid |
| Login.UncheckedForgets | app/src/main/java/com/example/food/LoginActivity.java:196-199 | saving with the box clear forgets the e-mail at once |
| Login.ProblemText | app/src/main/java/com/example/food/LoginActivity.java:111-127 | the message each failed login check sets on its field |
| Login.LoginCheck | app/src/main/java/com/example/food/LoginActivity.java:111-127 | an empty e-mail, then an empty password, then one shorter than 6 characters, in that order; passing exactly when none applies |
| Login.LoginScreen.constructor | app/src/main/java/com/example/food/LoginActivity.java:34 | empty fields, box clear, password hidden, no error, no request |
| Login.LoginScreen.TogglePassword | app/src/main/java/com/example/food/LoginActivity.java:90-103 | flips the password's visibility and nothing else |
| Login.LoginScreen.SetRememberChecked | app/src/main/java/com/example/food/LoginActivity.java:32 | the box's state changes and nothing else |
| Login.LoginScreen.LoadRememberMe | app/src/main/java/com/example/food/LoginActivity.java:163-187 | the box shows the stored flag; a valid state prefills the e-mail and moves on only with a signed-in user; an expired one is cleared |
| Login.LoginScreen.LoginUser | app/src/main/java/com/example/food/LoginActivity.java:105-150 | a failed check sets its field error and sends nothing; otherwise one sign-in is requested with the trimmed inputs and the button is enabled again; success saves the remember-me state and moves on, failure shows the error and leaves the preferences unchanged |
| Login.LoginScreen.Submit | app/src/main/java/com/example/food/LoginActivity.java:109-149 | the same, on the trimmed inputs |
| ForgotPassword.FailureMessage | app/src/main/java/com/example/food/ForgotPasswordActivity.java:124-131 | "email not found" exactly when the exception's message contains "user-not-found"; the generic failure otherwise, including a missing exception or message |
| ForgotPassword.ForgotPasswordScreen.constructor | app/src/main/java/com/example/food/ForgotPasswordActivity.java:56-63 | both message lines hidden, the button enabled, no request |
| ForgotPassword.ForgotPasswordScreen.ShowError | app/src/main/java/com/example/food/ForgotPasswordActivity.java:149-153 | the error line shows the message and the success line is hidden |
| ForgotPassword.ForgotPasswordScreen.ShowSuccess | app/src/main/java/com/example/food/ForgotPasswordActivity.java:158-162 | the success line shows the message and the error line is hidden |
| ForgotPassword.ForgotPasswordScreen.HideAllMessages | app/src/main/java/com/example/food/ForgotPasswordActivity.java:167-170 | both lines hidden, their texts kept |
| ForgotPassword.ForgotPasswordScreen.SendPasswordResetEmail | app/src/main/java/com/example/food/ForgotPasswordActivity.java:86-135 | exactly one line is visible afterwards; an empty e-mail or a malformed one shows its error and sends nothing; otherwise one request is sent, the button is enabled again on both outcomes, and the result shows the sent message or the mapped failure |
| ProfileCache.ClearKeys | app/src/main/java/com/example/food/cache/ProfileCacheManager.java:97-102 | exactly the profile and the timestamp keys go; every other key is kept |
| ProfileCache.Expired | app/src/main/java/com/example/food/cache/ProfileCacheManager.java:74 | more than five minutes since caching, by `long` subtraction; CachedProfile and CacheExpires state its effect |
| ProfileCache.CachedProfile | app/src/main/java/com/example/food/cache/ProfileCacheManager.java:69-92 | nothing after more than five minutes or without an entry; a returned profile is what the stored JSON parses to |
| ProfileCache.HasCached | app/src/main/java/com/example/food/cache/ProfileCacheManager.java:108-111 | an entry present and at most five minutes old; ReturnedOnlyWhenPresent ties it to the returned profile |
| ProfileCache.ReturnedOnlyWhenPresent | app/src/main/java/com/example/food/cache/ProfileCacheManager.java:69-111 | `hasCachedProfile` uses the same five-minute boundary: a profile is returned only when it reports one |
| ProfileCache.ProfileCacheManager.constructor | app/src/main/java/com/example/food/cache/ProfileCacheManager.java:37-40 | the store and the codec as given |
| ProfileCache.ProfileCacheManager.CacheUserProfile | app/src/main/java/com/example/food/cache/ProfileCacheManager.java:55-63 | null is ignored; otherwise the JSON and the time are stored and nothing else changes |
| ProfileCache.ProfileCacheManager.GetCachedUserProfile | app/src/main/java/com/example/food/cache/ProfileCacheManager.java:69-92 | returns the cached profile as specified; an expired cache or one that does not parse is cleared, and nothing else changes |
| ProfileCache.ProfileCacheManager.ClearCache | app/src/main/java/com/example/food/cache/ProfileCacheManager.java:97-102 | the store without the two cache keys |
| ProfileCache.ProfileCacheManager.HasCachedProfile | app/src/main/java/com/example/food/cache/ProfileCacheManager.java:108-111 | an entry is present and at most five minutes old |
| ProfileCache.CacheRoundTrip | app/src/main/java/com/example/food/cache/ProfileCacheManager.java:55-92 | with a codec that round-trips, a profile cached at one time is read back unchanged up to five minutes later |
| ProfileCache.CacheExpires | app/src/main/java/com/example/food/cache/ProfileCacheManager.java:69-77 | more than five minutes after caching, nothing is returned |
| PostDetail.AgeWords | app/src/main/java/com/example/food/PostDetailActivity.java:346-354 | a moment reads "Just now"; any other age ends in " ago" |
| PostDetail.TimeAgo | app/src/main/java/com/example/food/PostDetailActivity.java:336-355 | the comment's relative time; TimeAgoIsAge and JustNowBelowAMinute state what it shows |
| PostDetail.TimeAgoIsAge | app/src/main/java/com/example/food/PostDetailActivity.java:336-355 | the text names the largest positive whole unit among days, hours and minutes of the elapsed time |
| PostDetail.JustNowBelowAMinute | app/src/main/java/com/example/food/PostDetailActivity.java:336-355 | "Just now" exactly when less than a minute has passed, a time in the future included |
| PostDetail.CompareAsWritten | app/src/main/java/com/example/food/PostDetailActivity.java:217-221 | the comparator answers -1, 0 or 1, and 1 whenever the first comment is undated |
| PostDetail.AsWrittenNotAntisymmetric | app/src/main/java/com/example/food/PostDetailActivity.java:217-221 | two undated comments each compare greater than the other, breaking the comparator's sign symmetry |
| PostDetail.Compare | app/src/main/java/com/example/food/PostDetailActivity.java:217-221 | the corrected comparator is at most 0 exactly when the first comment may come first in newest-first, undated-last order |
| PostDetail.CompareContract | app/src/main/java/com/example/food/PostDetailActivity.java:217-221 | swapping the arguments negates the result; the order is total and transitive |
| PostDetail.AsWrittenAgreesOnNegative | app/src/main/java/com/example/food/PostDetailActivity.java:217-221 | the two comparators agree on every pair except two undated comments, and always agree on which results are negative |
| PostDetail.InsertKeepsOrder | app/src/main/java/com/example/food/PostDetailActivity.java:217-221 | one insertion step keeps the list newest-first and adds exactly the one comment |
| PostDetail.SortComments | app/src/main/java/com/example/food/PostDetailActivity.java:216-221 | the sort of the comments with the corrected comparator; SortCommentsSpec and SortedShape state its result |
| PostDetail.SortCommentsSpec | app/src/main/java/com/example/food/PostDetailActivity.java:216-221 | the sorted list is a permutation of the comments, newest first with the undated ones last |
| PostDetail.SortedShape | app/src/main/java/com/example/food/PostDetailActivity.java:216-221 | after sorting, an undated comment is followed only by undated ones, and dated ones never go up in time |
| PostDetail.ArrayUnion | app/src/main/java/com/example/food/PostDetailActivity.java:272 | the id is in the array afterwards, nothing else is added, and an array already holding it is unchanged |
| PostDetail.ArrayRemove | app/src/main/java/com/example/food/PostDetailActivity.java:255 | every copy of the id is gone, every other element stays, and the array never grows |
| PostDetail.UnionThenRemove | app/src/main/java/com/example/food/PostDetailActivity.java:252-273 | liking then unliking leaves exactly the other likers |
| PostDetail.RemoveIdempotent | app/src/main/java/com/example/food/PostDetailActivity.java:255 | removing twice is removing once |
| PostDetail.Parsed | app/src/main/java/com/example/food/PostDetailActivity.java:204-214 | one comment per entry, in order, with the entry's author, name, text and time and no ids |
| PostDetail.NewComment | app/src/main/java/com/example/food/PostDetailActivity.java:289-310 | nothing is written for a blank input or without a user; otherwise the trimmed text, the user's id, the display name or "Anonymous", and the current time |
| PostDetail.WithComment | app/src/main/java/com/example/food/PostDetailActivity.java:316-318 | the entry joins the comments array, the comment counter moves up by one, the likers are untouched |
| PostDetail.ParseComments | app/src/main/java/com/example/food/PostDetailActivity.java:204-214 | the loop builds exactly the parsed list |
| PostDetail.PostDetailScreen.constructor | app/src/main/java/com/example/food/PostDetailActivity.java:67-89 | the screen starts with no post loaded, not liked, no comments, an empty input and the send button enabled |
| PostDetail.PostDetailScreen.LoadPostDetails | app/src/main/java/com/example/food/PostDetailActivity.java:146-166 | an existing document becomes the current post carrying the screen's id; a missing document or a failed read closes the screen |
| PostDetail.PostDetailScreen.CheckIfUserLiked | app/src/main/java/com/example/food/PostDetailActivity.java:123-136 | liked exactly when the user's id is among the likers; no user, no document or a failed read changes nothing |
| PostDetail.PostDetailScreen.ToggleLike | app/src/main/java/com/example/food/PostDetailActivity.java:241-287 | only a successful write flips the like and moves both the server's and the screen's count by one; the screen stays in step with the server |
| PostDetail.PostDetailScreen.LoadComments | app/src/main/java/com/example/food/PostDetailActivity.java:196-239 | the document's comments, parsed and sorted, reach the adapter, the header counts them and the empty note shows exactly when there are none |
| PostDetail.PostDetailScreen.AddComment | app/src/main/java/com/example/food/PostDetailActivity.java:289-334 | a blank input or no user is refused without a write; a successful write adds the comment, raises the counter, clears the input and reloads; the send button is enabled again either way |
| PostDetail.LikeSession | app/src/main/java/com/example/food/PostDetailActivity.java:86-88 | after loading, any sequence of like taps, succeeding or failing, leaves the like state on screen in step with the server |
| ReviewWidget.ItemCount | app/src/main/java/com/example/food/adapters/ReviewWidgetAdapter.java:78-81 | the number of reviews, eight more while loading, a null list counting as empty |
| ReviewWidget.ViewType | app/src/main/java/com/example/food/adapters/ReviewWidgetAdapter.java:41-47 | a skeleton exactly at the first eight positions while loading, a review row otherwise |
| ReviewWidget.BoundReview | app/src/main/java/com/example/food/adapters/ReviewWidgetAdapter.java:63-76 | a review row binds the review eight places earlier while loading (the same place otherwise) when that index is inside the list, and nothing otherwise |
| ReviewWidget.EveryRowFilled | app/src/main/java/com/example/food/adapters/ReviewWidgetAdapter.java:41-81 | every position below the item count is a skeleton or binds a review, never both |
| ReviewWidget.EachReviewOnce | app/src/main/java/com/example/food/adapters/ReviewWidgetAdapter.java:41-81 | each review is shown at exactly one position, eight further down while loading |
| ReviewWidget.ClickedRestaurant | app/src/main/java/com/example/food/adapters/ReviewWidgetAdapter.java:117-123 | the restaurant from the map when the review's restaurant id is in it; otherwise a stand-in with the review's id and name (or "Unknown Restaurant"), category "Restaurant" and region "Melbourne" |
| ReviewWidget.Click | app/src/main/java/com/example/food/adapters/ReviewWidgetAdapter.java:111-127 | a tap reports a review and its restaurant exactly when the row is a review row holding a review |
| ReviewWidget.ReviewWidgetAdapter.constructor | app/src/main/java/com/example/food/adapters/ReviewWidgetAdapter.java:35-39 | the given list, an empty restaurant map, not loading |
| ReviewWidget.ReviewWidgetAdapter.SetReviews | app/src/main/java/com/example/food/adapters/ReviewWidgetAdapter.java:83-86 | the list is replaced and nothing else changes |
| ReviewWidget.ReviewWidgetAdapter.SetLoading | app/src/main/java/com/example/food/adapters/ReviewWidgetAdapter.java:88-91 | the loading flag is set and nothing else changes |
| ReviewWidget.ReviewWidgetAdapter.SetRestaurantMap | app/src/main/java/com/example/food/adapters/ReviewWidgetAdapter.java:93-96 | the given map is installed, an empty one in place of null |
| ReviewStore.ReviewFields | app/src/main/java/com/example/food/service/ReviewService.java:157-170 | the saved map has exactly the eleven listed fields, never the author's or restaurant's name or the id, with the rating and accuracy as numbers |
| ReviewStore.ReviewOf | app/src/main/java/com/example/food/service/ReviewService.java:72-73 | the parsed review carries its document's id, and for a document that converts its `int` properties lie in the 32-bit range |
| ReviewStore.UnsavedPropertiesRead | app/src/main/java/com/example/food/data/Review.java:109-125 | a document holding `helpfulCount` 3 and `accuracy` -2.5 converts, giving 3 and -2 (truncation toward zero), although `saveReview` never writes either |
| ReviewStore.MistypedUnsavedPropertySkipped | app/src/main/java/com/example/food/service/ReviewService.java:71-77 | a number under `userName`, or a `helpfulCount` beyond the `int` range, makes the conversion throw, so the document is skipped |
| ReviewStore.SaveThenRead | app/src/main/java/com/example/food/service/ReviewService.java:72-73 | a saved field map always parses back, as the same review with the document's id and the left-out fields at their defaults (also lines 157-170) |
| ReviewStore.ReviewsOf | app/src/main/java/com/example/food/service/ReviewService.java:69-78 | one review per parsing document, in the query's order, each read from its document |
| ReviewStore.LoadedIds | app/src/main/java/com/example/food/service/ReviewService.java:69-78 | every loaded review comes from a document of the answer that parses, and carries that document's id |
| ReviewStore.ParseDocs | app/src/main/java/com/example/food/service/ReviewService.java:69-78 | the loop keeps exactly the documents that parse, skipping the others |
| ReviewStore.LoadReviews | app/src/main/java/com/example/food/service/ReviewService.java:64-86 | the parsed reviews on success; the query's error unchanged on failure |
| ReviewStore.LoadReviewsWithLimit | app/src/main/java/com/example/food/service/ReviewService.java:93-116 | no answer for a limit below one; otherwise the same as a load over the first limit documents, so never more than limit reviews |
| ReviewStore.KeepMatching | app/src/main/java/com/example/food/service/ReviewService.java:129-138 | the loop keeps exactly the matching reviews, in order |
| ReviewStore.SearchReviews | app/src/main/java/com/example/food/service/ReviewService.java:124-149 | the loaded reviews whose description, caption or restaurant name contains the lower-cased, trimmed query ignoring case; a load error passed on |
| ReviewStore.SearchSpec | app/src/main/java/com/example/food/service/ReviewService.java:129-138 | a review is found exactly when it was loaded and matches |
| ReviewStore.BlankQueryNeedsAField | app/src/main/java/com/example/food/service/ReviewService.java:130-135 | a blank query keeps exactly the reviews with at least one of the three fields present |
| Home.Filtered | app/src/main/java/com/example/food/HomeFragment.java:254-273 | the reviews the grid shows for a query; FilteredSpec and FilteredAppend state it |
| Home.FilteredSpec | app/src/main/java/com/example/food/HomeFragment.java:254-273 | a blank query shows every review in order; otherwise a review is shown exactly when it matches the lower-cased, trimmed query |
| Home.FilteredAppend | app/src/main/java/com/example/food/HomeFragment.java:257-269 | filtering a longer list extends the shown list at its end, so the shown reviews keep the feed's order |
| Home.RestaurantIds | app/src/main/java/com/example/food/HomeFragment.java:213-218 | the restaurant ids looked up; RestaurantIdsSpec states them |
| Home.RestaurantIdsSpec | app/src/main/java/com/example/food/HomeFragment.java:213-218 | the collected ids have no repeats, and an id is collected exactly when some review names it |
| Home.CollectRestaurantIds | app/src/main/java/com/example/food/HomeFragment.java:213-218 | the loop collects exactly the distinct non-null restaurant ids, in order of first appearance |
| Home.LookedUp | app/src/main/java/com/example/food/HomeFragment.java:225-247 | the map gains exactly the collected ids whose document can be read, each restaurant carrying its id |
| Home.LoadedStep | app/src/main/java/com/example/food/HomeFragment.java:229-242 | one answered lookup adds its restaurant, or nothing when the document is missing |
| Home.PutLoaded | app/src/main/java/com/example/food/HomeFragment.java:225-247 | after every lookup the map is the old one updated with every readable restaurant |
| Home.HomeScreen.constructor | app/src/main/java/com/example/food/HomeFragment.java:69-85 | the grid is built before the review list exists, so the adapter starts with a null list and an empty map; no reviews, refreshing (also lines 100-114) |
| Home.HomeScreen.UpdateEmptyState | app/src/main/java/com/example/food/HomeFragment.java:289-299 | the empty panel shows exactly when the grid has no rows |
| Home.HomeScreen.UpdateUI | app/src/main/java/com/example/food/HomeFragment.java:278-284 | the grid shows all loaded reviews with the current restaurant map, and the empty panel follows |
| Home.HomeScreen.FilterReviews | app/src/main/java/com/example/food/HomeFragment.java:254-273 | the grid shows exactly the reviews the query selects, the loaded list and map untouched |
| Home.HomeScreen.LoadRestaurants | app/src/main/java/com/example/food/HomeFragment.java:207-248 | the map gains every readable restaurant of the reviews and the grid is refreshed with it |
| Home.HomeScreen.OnReviewsLoaded | app/src/main/java/com/example/food/HomeFragment.java:145-202 | on success the list is replaced and its restaurants looked up; on error nothing is shown differently; the refresh indicator stops either way |
| Home.EmptyStateIffNoReviews | app/src/main/java/com/example/food/HomeFragment.java:289-299 | since the adapter never enters its loading mode here, the empty panel shows exactly when there are no reviews to show |
| PostList.FilteredPosts | app/src/main/java/com/example/food/adapter/PostAdapter.java:132-149 | the posts shown for a query; FilteredPostsSpec states them |
| PostList.FilteredPostsSpec | app/src/main/java/com/example/food/adapter/PostAdapter.java:132-149 | a null or blank query shows every post in order; otherwise a post is shown exactly when its title, content or author contains the lower-cased, trimmed query |
| PostList.ShowsCover | app/src/main/java/com/example/food/adapter/PostAdapter.java:111-127 | whether the cover image is loaded; CoverIffNonBlank states when |
| PostList.CoverIffNonBlank | app/src/main/java/com/example/food/adapter/PostAdapter.java:111-127 | the cover is loaded exactly when the URL is present and holds a character above a space; a URL of blanks only shows the placeholder |
| PostList.TitleText | app/src/main/java/com/example/food/adapter/PostAdapter.java:102 | the post's title, "Untitled Post" when it has none |
| PostList.UsernameText | app/src/main/java/com/example/food/adapter/PostAdapter.java:103 | the post's author, "Anonymous" when it has none |
| PostList.PostAdapter.constructor | app/src/main/java/com/example/food/adapter/PostAdapter.java:39-43 | the list starts empty |
| PostList.PostAdapter.UpdatePosts | app/src/main/java/com/example/food/adapter/PostAdapter.java:49-53 | the list becomes exactly the new posts, in order |
| PostList.PostAdapter.AddPosts | app/src/main/java/com/example/food/adapter/PostAdapter.java:55-59 | the new posts are appended after the old ones, which are kept, and the range reported as inserted is exactly theirs |
| PostList.PostAdapter.FilterPosts | app/src/main/java/com/example/food/adapter/PostAdapter.java:132-149 | the displayed list becomes the filtered posts |
| PostStore.PostsOf | app/src/main/java/com/example/food/service/PostService.java:43-52 | one post per readable document, in the query's order, each carrying its document's id |
| PostStore.KeptReadable | app/src/main/java/com/example/food/service/PostService.java:44-51 | every kept document belongs to the answer and is readable |
| PostStore.PostsOfSpec | app/src/main/java/com/example/food/service/PostService.java:43-52 | every readable document gives a loaded post, and every loaded post carries the id of a document of the answer |
| PostStore.ParsePosts | app/src/main/java/com/example/food/service/PostService.java:43-52 | the loop keeps exactly the readable documents, skipping those that throw |
| PostStore.LoadPosts | app/src/main/java/com/example/food/service/PostService.java:38-60 | the parsed posts on success; the query's error unchanged on failure |
| PostStore.LoadPostsWithLimit | app/src/main/java/com/example/food/service/PostService.java:65-88 | no answer for a limit below one; otherwise the same as a load over the first limit documents, so never more than limit posts |
| PostStore.KeepMatching | app/src/main/java/com/example/food/service/PostService.java:98-107 | the loop keeps exactly the matching posts, in order |
| PostStore.SearchPosts | app/src/main/java/com/example/food/service/PostService.java:93-118 | the loaded posts whose title, content or author contains the lower-cased, trimmed query ignoring case; a load error passed on |
| PostStore.SearchSpec | app/src/main/java/com/example/food/service/PostService.java:98-107 | a post is found exactly when it was loaded and matches |
| PostStore.BlankQueryNeedsAField | app/src/main/java/com/example/food/service/PostService.java:99-104 | a blank query keeps exactly the posts with a title, content or author name |
| AddReview.RestaurantOf | app/src/main/java/com/example/food/AddFragment.java:182-185 | a readable document's restaurant carries the document's id |
| AddReview.KeptReadable | app/src/main/java/com/example/food/AddFragment.java:181-187 | every kept document is readable |
| AddReview.RestaurantsOf | app/src/main/java/com/example/food/AddFragment.java:180-187 | one restaurant per readable document, in the query's order, each with its document's id |
| AddReview.EveryReadableOffered | app/src/main/java/com/example/food/AddFragment.java:180-187 | every readable document of the answer is offered, under its own id |
| AddReview.ParseRestaurants | app/src/main/java/com/example/food/AddFragment.java:180-187 | the loop keeps exactly the readable documents, skipping a null conversion |
| AddReview.SpinnerNames | app/src/main/java/com/example/food/AddFragment.java:199-211 | the spinner shows the "Select Restaurant" prompt first, then each restaurant's name at the next position |
| AddReview.SelectedAt | app/src/main/java/com/example/food/AddFragment.java:147-154 | the prompt row selects nothing; any other row selects exactly the restaurant whose name that row shows |
| AddReview.Selection | app/src/main/java/com/example/food/AddFragment.java:260-273 | at most three photos: the first three of a multiple choice in order, else the single one, else none |
| AddReview.PickClipItems | app/src/main/java/com/example/food/AddFragment.java:263-269 | the loop takes exactly the first three items, or all of them when there are fewer |
| AddReview.Validate | app/src/main/java/com/example/food/AddFragment.java:320-343 | the first failing check among caption, description, restaurant and rating is reported, and a form passes exactly when all four hold |
| AddReview.BlankCaptionRejected | app/src/main/java/com/example/food/AddFragment.java:322-325 | a caption of blanks only is rejected as missing |
| AddReview.FirstFailure | app/src/main/java/com/example/food/AddFragment.java:362-394 | none exactly when every upload ends with a URL; otherwise the earliest that does not |
| AddReview.LeadingUrls | app/src/main/java/com/example/food/AddFragment.java:362-394 | one URL per photo up to the first failure, each the URL of the photo at the same place |
| AddReview.UploadEach | app/src/main/java/com/example/food/AddFragment.java:362-394 | the chain gathers exactly the leading URLs, stops at the first failure, and starts one upload more than it completed unless that photo could not be read, which throws before its upload starts |
| AddReview.ReviewFor | app/src/main/java/com/example/food/AddFragment.java:400-440 | the review carries the user, the selected restaurant, the trimmed texts, the rating, the URLs and the visit date; accuracy 100, a square first photo, no votes, no comments and no names |
| AddReview.ReviewForIsNewReview | app/src/main/java/com/example/food/AddFragment.java:428-440 | the setters on an empty review give the same review as the full constructor with no id, no names and accuracy 0 |
| AddReview.SubmittedReadsBack | app/src/main/java/com/example/food/AddFragment.java:443 | a submitted review, saved and read back under its new document id, is the same review with that id |
| AddReview.Submission | app/src/main/java/com/example/food/AddFragment.java:303-394 | how a tap on Submit ends; SubmissionSpec and SubmittedReadsBack state it |
| AddReview.SubmissionSpec | app/src/main/java/com/example/food/AddFragment.java:303-394 | a review is created only for a valid form whose photos all uploaded, with the URLs in the order the photos were picked; the chain stops at the first photo without a URL |
| AddReview.AddScreen.constructor | app/src/main/java/com/example/food/AddFragment.java:96-130 | no restaurants, an empty form dated today, no URLs, the button enabled |
| AddReview.AddScreen.LoadRestaurants | app/src/main/java/com/example/food/AddFragment.java:176-194 | on success the readable restaurants replace the list; a failed query leaves it |
| AddReview.AddScreen.OnItemSelected | app/src/main/java/com/example/food/AddFragment.java:147-154 | the prompt row clears the restaurant, any other row selects the restaurant shown there |
| AddReview.AddScreen.OnNothingSelected | app/src/main/java/com/example/food/AddFragment.java:157-159 | the restaurant is cleared and nothing else changes |
| AddReview.AddScreen.OnDateSet | app/src/main/java/com/example/food/AddFragment.java:221-226 | the visit date is replaced and nothing else changes |
| AddReview.AddScreen.OnActivityResult | app/src/main/java/com/example/food/AddFragment.java:257-277 | an OK answer with data to the picker's request replaces the selection, keeping at most three photos; any other answer leaves it |
| AddReview.AddScreen.ClearForm | app/src/main/java/com/example/food/AddFragment.java:471-481 | empty texts, no stars, the prompt row, today, no photos and no URLs |
| AddReview.AddScreen.SubmitReview | app/src/main/java/com/example/food/AddFragment.java:303-313 | an invalid form starts nothing and changes nothing; a valid one runs the upload chain with the button disabled, starting uploads in order up to the first failure, the failing photo included only when it could be read |
| AddReview.AddScreen.UploadImagesAndCreateReview | app/src/main/java/com/example/food/AddFragment.java:348-394 | with no photos the review is created at once; otherwise uploads start in order up to the first failure, the failing photo's included only when it could be read; the button stays disabled only after a lost download URL; a saved review clears the form (also lines 443-489) |
| CreatePost.RankOfComment | app/src/main/java/com/example/food/CreatePostActivity.java:210-227 | each chip's comment is told apart from the other three |
| CreatePost.CommentsFromSpec | app/src/main/java/com/example/food/CreatePostActivity.java:210-227 | from a given chip on, a chip's comment is collected exactly when it is checked, and the collected comments come in chip order |
| CreatePost.SelectedComments | app/src/main/java/com/example/food/CreatePostActivity.java:210-227 | the checked chips' comments; SelectedCommentsSpec and CommentsFromSpec state them |
| CreatePost.SelectedCommentsSpec | app/src/main/java/com/example/food/CreatePostActivity.java:210-227 | a chip's comment is in the list exactly when the chip is checked, nothing else is, and the comments come in the fixed chip order, each once |
| CreatePost.BuildContentFromComments | app/src/main/java/com/example/food/CreatePostActivity.java:229-247 | the builder produces the summary followed, when any chip is checked, by the "Comments:" line and one bullet per comment |
| CreatePost.AppendBullets | app/src/main/java/com/example/food/CreatePostActivity.java:241-243 | the loop appends one bullet line per comment, in order |
| CreatePost.UntilNewline | app/src/main/java/com/example/food/CreatePostActivity.java:242 | the longest start of the text without a line break, ending where the first break is |
| CreatePost.FirstLine | app/src/main/java/com/example/food/CreatePostActivity.java:242 | a bullet line ends at its own line break |
| CreatePost.BulletsFront | app/src/main/java/com/example/food/CreatePostActivity.java:241-243 | the bullets of a list are its first bullet followed by the rest's |
| CreatePost.BulletsRoundTrip | app/src/main/java/com/example/food/CreatePostActivity.java:241-243 | comments without line breaks read back exactly from their bullet lines |
| CreatePost.ContentRoundTrip | app/src/main/java/com/example/food/CreatePostActivity.java:229-247 | the text starts with the rating summary, and the comments read back from what follows it |
| CreatePost.RatingLine | app/src/main/java/com/example/food/CreatePostActivity.java:234-236 | one rating line of the post's text; RatingShownTruncated states how the rating shows |
| CreatePost.RatingShownTruncated | app/src/main/java/com/example/food/CreatePostActivity.java:234-236 | a rating between 0 and 5 shows as the single digit of its whole part |
| CreatePost.ChipCommentsReadBack | app/src/main/java/com/example/food/CreatePostActivity.java:210-247 | the checked chips' comments always read back from the post's text |
| CreatePost.FallbackName | app/src/main/java/com/example/food/CreatePostActivity.java:164-165 | the part of the e-mail before the first '@', "Anonymous" without an e-mail, and nothing where the split leaves no part (also lines 188-189) |
| CreatePost.Username | app/src/main/java/com/example/food/CreatePostActivity.java:158-166 | the stored name when the user document has one; the e-mail fallback otherwise, a failed lookup included (also lines 185-189) |
| CreatePost.FailedLookupFallsBack | app/src/main/java/com/example/food/CreatePostActivity.java:185-189 | a failed lookup gives the same name as a missing one |
| CreatePost.FallbackIsEmailStart | app/src/main/java/com/example/food/CreatePostActivity.java:164-165 | the fallback name holds no '@' and is a prefix of the e-mail |
| CreatePost.NewPost | app/src/main/java/com/example/food/CreatePostActivity.java:169-177 | the title, text, author, user and time are set, no likes, no comments, the "Restaurant Review" category, no cover and no restaurant |
| CreatePost.ToSave | app/src/main/java/com/example/food/CreatePostActivity.java:267-277 | the cover is set only for a URL, the three restaurant fields only when a restaurant was picked, and nothing else changes |
| CreatePost.WithIds | app/src/main/java/com/example/food/CreatePostActivity.java:359-361 | each restaurant of the answer carries its document's id |
| CreatePost.SearchMatch | app/src/main/java/com/example/food/CreatePostActivity.java:364-366 | an empty query keeps everything; otherwise a match on the lower-cased name, then the address; a missing name, or a missing address after a name that does not match, throws |
| CreatePost.SearchResults | app/src/main/java/com/example/food/CreatePostActivity.java:357-369 | the app crashes exactly when the filter throws on some restaurant; otherwise the matching restaurants, in order |
| CreatePost.SearchStep | app/src/main/java/com/example/food/CreatePostActivity.java:359-369 | one more document filtered extends the result or ends it |
| CreatePost.EmptyQueryKeepsAll | app/src/main/java/com/example/food/CreatePostActivity.java:364 | the initial empty query lists every restaurant in order |
| CreatePost.SearchSpec | app/src/main/java/com/example/food/CreatePostActivity.java:364-367 | when every restaurant has a name and an address nothing throws, and a restaurant is listed exactly when its name or address contains the query ignoring case |
| CreatePost.FilterRestaurants | app/src/main/java/com/example/food/CreatePostActivity.java:357-369 | the loop gives the search results, stopping at the first restaurant the filter throws on |
| CreatePost.DraftText | app/src/main/java/com/example/food/CreatePostActivity.java:133-139 | the text built from the form's three ratings and checked chips |
| CreatePost.CreationSpec | app/src/main/java/com/example/food/CreatePostActivity.java:124-297 | a post is sent only with a non-blank title and a signed-in user, and carries the trimmed title, the built text, the user, the name, no likes or comments, the uploaded photo exactly when one was picked, and the picked restaurant |
| CreatePost.CreatePostScreen.constructor | app/src/main/java/com/example/food/CreatePostActivity.java:67-79 | an empty form with the Post button enabled and no search results |
| CreatePost.CreatePostScreen.OnImagePicked | app/src/main/java/com/example/food/CreatePostActivity.java:96-110 | an OK answer with data sets the photo to its URI, possibly null; any other answer keeps the photo |
| CreatePost.CreatePostScreen.OnRestaurantClicked | app/src/main/java/com/example/food/CreatePostActivity.java:338-344 | the tapped restaurant becomes the picked one |
| CreatePost.CreatePostScreen.LoadRestaurants | app/src/main/java/com/example/food/CreatePostActivity.java:354-385 | the app crashes exactly when the query succeeds and the filter throws on some restaurant; otherwise the filtered list replaces the shown one and "no results" shows exactly when it is empty, and a failed query leaves both |
| CreatePost.CreatePostScreen.OnSearchTextChanged | app/src/main/java/com/example/food/CreatePostActivity.java:330-334 | the trimmed text is searched for, crashing the app exactly when the filter throws on some restaurant |
| CreatePost.CreatePostScreen.CreatePost | app/src/main/java/com/example/food/CreatePostActivity.java:124-208 | the outcome is the one the form and the answers lead to; the form is never cleared; the screen closes without a user or once the post is saved; the button comes back only after a refusal or a failure |
| CreatePost.CreatePostScreen.PostTitled | app/src/main/java/com/example/food/CreatePostActivity.java:141-166 | with a title and text, a missing user closes the screen; otherwise the button is disabled and the name looked up |
| CreatePost.CreatePostScreen.OnUserLookedUp | app/src/main/java/com/example/food/CreatePostActivity.java:158-207 | the post is built with the name or its fallback, then the photo, if any, is uploaded and the post saved |
| CreatePost.CreatePostScreen.UploadImageAndCreatePost | app/src/main/java/com/example/food/CreatePostActivity.java:249-265 | the post is saved with the photo's URL once it comes; a failed upload re-enables the button; a failed URL request leaves the button disabled |
| CreatePost.CreatePostScreen.SavePostToFirestore | app/src/main/java/com/example/food/CreatePostActivity.java:267-297 | the post with its cover and restaurant is sent; once saved the screen closes, after a failure the button comes back |
| SupabaseStorage.ProfilePath | app/src/main/java/com/example/food/SupabaseStorageService.kt:45 | "pfp/" then the user id then ".jpg" (also line 67) |
| SupabaseStorage.ProfilePathInjective | app/src/main/java/com/example/food/SupabaseStorageService.kt:45 | two users never share a path, and a user always gets the same one (also line 67) |
| SupabaseStorage.SignedUrl | app/src/main/java/com/example/food/SupabaseStorageService.kt:52 | the project URL, then "/storage/v1/", then the signed path |
| SupabaseStorage.SignedUrlInjective | app/src/main/java/com/example/food/SupabaseStorageService.kt:52 | for one project URL, different signed paths give different URLs |
| SupabaseStorage.Bucket.constructor | app/src/main/java/com/example/food/SupabaseStorageService.kt:23-29 | the bucket holds the given objects and has received no signing request |
| SupabaseStorage.Bucket.Upload | app/src/main/java/com/example/food/SupabaseStorageService.kt:48 | with upsert an existing object is replaced, without it an existing path is refused; an unreachable store changes nothing |
| SupabaseStorage.Bucket.CreateSignedUrl | app/src/main/java/com/example/food/SupabaseStorageService.kt:51 | the request for the path and lifetime is recorded and the store's answer returned; no object changes |
| SupabaseStorage.Bucket.Delete | app/src/main/java/com/example/food/SupabaseStorageService.kt:68 | the path's object is removed, a missing one included, when the store is reachable |
| SupabaseStorage.SupabaseStorageService.constructor | app/src/main/java/com/example/food/SupabaseStorageService.kt:17-29 | the service talks to the configured project URL and bucket |
| SupabaseStorage.SupabaseStorageService.UploadProfilePicture | app/src/main/java/com/example/food/SupabaseStorageService.kt:32-63 | a URL exactly when the picture could be read, uploaded and signed; then the bytes sit at the user's path and one 365-day signing request was made; nothing is written when the picture cannot be read |
| SupabaseStorage.SupabaseStorageService.DeleteProfilePicture | app/src/main/java/com/example/food/SupabaseStorageService.kt:65-74 | true exactly when the delete does not throw, and then the user's object is gone |
| SupabaseStorage.ReuploadOverwrites | app/src/main/java/com/example/food/SupabaseStorageService.kt:45-48 | a second upload replaces the first, and the bucket gains at most the user's one path |
| SupabaseStorage.OtherUsersUntouched | app/src/main/java/com/example/food/SupabaseStorageService.kt:45-48 | another user's picture is never touched by an upload or a delete (also lines 67-68) |
| AvatarFragment.BorderWidth | app/src/main/java/com/example/food/ChangeProfilePictureDialogFragment.kt:204 | no border exactly around the placeholder, a border of 4 around any image (also lines 213, 219, 265, 362) |
| AvatarFragment.LoadedPreview | app/src/main/java/com/example/food/ChangeProfilePictureDialogFragment.kt:191-222 | the stored avatar exactly when there is a user, the read succeeds and the URL is neither null nor empty; the placeholder otherwise |
| AvatarFragment.WithAvatar | app/src/main/java/com/example/food/ChangeProfilePictureDialogFragment.kt:320-321 | an update of one user's avatar URL changes that field of that profile only when it succeeds on an existing document; no profile appears or disappears (also lines 349-350) |
| AvatarFragment.AfterUpload | app/src/main/java/com/example/food/ChangeProfilePictureDialogFragment.kt:280-333 | the user's avatar URL becomes the signed URL exactly when the whole upload and the write succeed; every other profile is untouched |
| AvatarFragment.AfterRemoval | app/src/main/java/com/example/food/ChangeProfilePictureDialogFragment.kt:345-372 | the user's avatar URL is cleared to "" when the clear succeeds; every other profile is untouched |
| AvatarFragment.ChangeAvatarFragment.constructor | app/src/main/java/com/example/food/ChangeProfilePictureDialogFragment.kt:33-57 | no listener, no picture picked or captured, the placeholder shown, nothing launched |
| AvatarFragment.ChangeAvatarFragment.SetOnProfilePictureChangedListener | app/src/main/java/com/example/food/ChangeProfilePictureDialogFragment.kt:46-48 | a listener is installed |
| AvatarFragment.ChangeAvatarFragment.LoadCurrentProfilePicture | app/src/main/java/com/example/food/ChangeProfilePictureDialogFragment.kt:191-222 | the preview becomes the loaded picture |
| AvatarFragment.ChangeAvatarFragment.OpenCamera | app/src/main/java/com/example/food/ChangeProfilePictureDialogFragment.kt:224-249 | the new file's URI is remembered and the camera launched once |
| AvatarFragment.ChangeAvatarFragment.CheckCameraPermissionAndOpenCamera | app/src/main/java/com/example/food/ChangeProfilePictureDialogFragment.kt:172-189 | with the permission the camera opens at once; without it the permission is requested and the camera does not open |
| AvatarFragment.ChangeAvatarFragment.OnCameraPermissionResult | app/src/main/java/com/example/food/ChangeProfilePictureDialogFragment.kt:59-70 | a grant opens the camera, a denial changes nothing |
| AvatarFragment.ChangeAvatarFragment.OnCameraResult | app/src/main/java/com/example/food/ChangeProfilePictureDialogFragment.kt:73-98 | an OK result with a remembered file logs a small file, then previews and uploads the picture whatever its size: the bucket holds the bytes at the user's path exactly when there is a user, the picture is readable and the service is reachable, and the profile and dialog follow the upload; anything else changes nothing |
| AvatarFragment.ChangeAvatarFragment.OnGalleryResult | app/src/main/java/com/example/food/ChangeProfilePictureDialogFragment.kt:100-130 | an OK result replaces the selection, a null one too, and a present picture is previewed and uploaded, with the bucket, the profile and the dialog as after the upload; other results change nothing |
| AvatarFragment.ChangeAvatarFragment.UpdateProfilePicturePreview | app/src/main/java/com/example/food/ChangeProfilePictureDialogFragment.kt:260-278 | a selected picture is shown and uploaded: the bucket holds its bytes at the user's path exactly when there is a user, the picture is readable and the service is reachable, and the profile and dialog follow the upload; without one nothing happens |
| AvatarFragment.ChangeAvatarFragment.UploadProfilePicture | app/src/main/java/com/example/food/ChangeProfilePictureDialogFragment.kt:280-310 | nothing without a user; otherwise the bytes go to the user's path and only a signed URL leads to the profile write |
| AvatarFragment.ChangeAvatarFragment.UpdateUserProfilePicture | app/src/main/java/com/example/food/ChangeProfilePictureDialogFragment.kt:312-333 | a successful write stores the URL, runs the listener and closes the dialog; a failure changes nothing |
| AvatarFragment.ChangeAvatarFragment.RemoveProfilePicture | app/src/main/java/com/example/food/ChangeProfilePictureDialogFragment.kt:345-372 | the avatar URL is cleared first, and only after that succeeds is the stored picture deleted; a failed delete is swallowed; the placeholder, the listener and the closing follow a successful clear; a failed clear deletes nothing |
| AvatarFragment.NoUrlNoWrite | app/src/main/java/com/example/food/ChangeProfilePictureDialogFragment.kt:294-303 | without a stream, a completed upload or a signed path, no profile is touched |
| AvatarFragment.SavedAvatarIsSignedUrl | app/src/main/java/com/example/food/ChangeProfilePictureDialogFragment.kt:294-299 | a saved avatar is the full signed URL, stored under the user's own profile |
| AvatarDialog.StorageKey | app/src/main/java/com/example/food/ChangeProfilePictureDialog.kt:82 | "profile_pictures/" then the user id then ".jpg", the same key for the load, the upload and the removal (also lines 153, 187) |
| AvatarDialog.StorageKeyInjective | app/src/main/java/com/example/food/ChangeProfilePictureDialog.kt:82 | different users have different keys (also lines 153, 187) |
| AvatarDialog.AfterUpload | app/src/main/java/com/example/food/ChangeProfilePictureDialog.kt:150-182 | the user's avatar URL becomes the download URL exactly when the put, the URL request and the write all succeed; every other profile is untouched |
| AvatarDialog.AfterRemoval | app/src/main/java/com/example/food/ChangeProfilePictureDialog.kt:184-206 | the avatar URL is cleared only when the storage delete succeeded and the clear goes through; every other profile is untouched |
| AvatarDialog.ChangeAvatarDialog.constructor | app/src/main/java/com/example/food/ChangeProfilePictureDialog.kt:46-54 | nothing selected, the placeholder shown, the dialog open |
| AvatarDialog.ChangeAvatarDialog.LoadCurrentProfilePicture | app/src/main/java/com/example/food/ChangeProfilePictureDialog.kt:79-92 | without a user nothing happens; otherwise the stored picture's download URL, or the placeholder when it cannot be had |
| AvatarDialog.ChangeAvatarDialog.HandleImageResult | app/src/main/java/com/example/food/ChangeProfilePictureDialog.kt:112-128 | a camera bitmap is saved to the cache file and uploaded from there; a gallery answer replaces the selection, a null one too, and a present one is uploaded; anything else uploads nothing |
| AvatarDialog.ChangeAvatarDialog.UpdateProfilePicturePreview | app/src/main/java/com/example/food/ChangeProfilePictureDialog.kt:138-148 | a selected picture is shown and uploaded; without one nothing happens |
| AvatarDialog.ChangeAvatarDialog.UploadProfilePicture | app/src/main/java/com/example/food/ChangeProfilePictureDialog.kt:150-167 | nothing without a user; the file is put at the user's key, and only after that succeeds and the download URL arrives is the profile written |
| AvatarDialog.ChangeAvatarDialog.UpdateUserProfilePicture | app/src/main/java/com/example/food/ChangeProfilePictureDialog.kt:169-182 | the dialog closes only once the avatar URL write succeeds |
| AvatarDialog.ChangeAvatarDialog.RemoveProfilePicture | app/src/main/java/com/example/food/ChangeProfilePictureDialog.kt:184-206 | the stored picture is deleted first; only after that succeeds is the avatar URL cleared, and only a successful clear shows the placeholder and closes the dialog |
| AvatarDialog.RemovalOrdersDiffer | app/src/main/java/com/example/food/ChangeProfilePictureDialog.kt:184-206 | when the delete fails but the clear would succeed, the newer dialog has already cleared the avatar URL while this one leaves the profile untouched |
| AvatarDialog.FailedPutWritesNothing | app/src/main/java/com/example/food/ChangeProfilePictureDialog.kt:157-166 | a failed put or URL request never writes the profile |

## Left out

- Views, layouts, toasts, Glide image loading, `Log` calls and navigation between screens (intents, `finish`, fragment transactions): the model keeps only the state these read or set.
- Coroutine and callback scheduling: each asynchronous chain is modelled in the order its callbacks run, with every remote outcome given in advance. Two chains that interleave are not modelled.
- Firestore and Firebase Auth exceptions beyond success or failure: a failure is one bool or the error's message.
- `toObject` outside ReviewStore: whether a document converts is a predicate over the document, given with the query's answer. For reviews ReviewStore computes the conversion itself, with every bean property the class has setters for. The `float` narrowing of `rating` is not modelled.
- SharedPreferences values stored under another type: read as missing; Android would throw `ClassCastException`, and the app never stores one.
- Floating-point ratings and accuracies: modelled as `real`. Rounding of `float` and `double` is not captured. The `(int)` casts truncate toward zero, as in Java.
- `toLowerCase` and `toUpperCase`: ASCII case mapping only, without locale rules. Date formatting with `SimpleDateFormat` is not modelled, beyond the group a date falls in.
- `Patterns.EMAIL_ADDRESS`: a predicate parameter of the registration, forgot-password and profile checks.
- LoginActivity navigation: the intents to the register, forgot-password and main screens are not modelled, nor is the Firebase session itself.
- ProfileFragment `loadUserData` and `logout`: they only fill views and navigate.
- ProfileCacheManager `getInstance`: the singleton is left out; the cache is a value handed to each call.
- ProfileCache.CacheRoundTrip: holds only for a JSON codec whose `fromJson` inverts `toJson`, which the model takes as a requirement because Gson is not part of this model.
- SettingsFragment `onDestroyView` and the click-listener wiring: not modelled. The other merge side is modelled as separate functions, not as a second screen.
- ReviewWidgetAdapter with a null list: a null list is shown as empty, either as no rows or as eight skeleton rows that have no click listener (adapters/ReviewWidgetAdapter.java:43-47, 80). The model represents a null list by the empty sequence.
- PostAdapter `updatePosts`: when the list passed in is the adapter's own list, `clear` empties it before `addAll`. The model copies the value, so this aliasing is not captured.
- AddFragment `createReview`: it saves the list of uploaded URLs that `clearForm` later clears. The model saves a copy, so the aliasing is not captured.
- AddFragment `createReview`: the user name it computes and never uses is left out.
- AddFragment and CreatePostActivity upload file names: they embed a random UUID, which the model takes as part of each upload's answer.
- AddFragment: the initial rating value and the spinner listener are modelled only through the selected position.
- AddReview.AddScreen.SubmitReview: requires the submit button enabled, since a disabled button takes no tap.
- AddFragment, HomeFragment and avatar screens: the `getActivity()` and `requireContext()` null checks are not modelled, including HomeFragment's early returns when its activity is gone; a detached fragment is out of scope.
- String lengths: Java's `length()` counts UTF-16 code units, while a Dafny `string` counts characters, so a character outside the Basic Multilingual Plane counts as 2 in the app and 1 here. This touches the length checks in Settings.NameError, Register.StrengthErrors, ProfileScreen.PasswordDialogCheck and Login.LoginCheck.
- SettingsFragment `createUserProfile`: without a display name it takes the e-mail's prefix. A null e-mail, or one made only of '@' characters (which `split` turns into an empty array), throws there and crashes the screen. Settings.SettingsScreen.CreateUserProfile models that case as doing nothing.
- ReviewDetailsDialog `updateVoteDisplay`: its view `tvVoteCount` is declared (line 77) but never bound, since the layout has none (line 156), so the null check at line 282 always skips the body. ReviewDetails.ReviewDetailsDialog keeps the view as `None`, and no vote-count line is shown.
- CreatePost.CreatePostScreen.CreatePost: requires the post button enabled, since a disabled button takes no tap. The chain is split at its callbacks into `PostTitled` and `OnUserLookedUp`; the latter runs while the button is disabled.
- CreatePostActivity `savePostToFirestore`: reads the restaurant selected when the save runs; the model reads it at the tap.
- ChangeProfilePictureDialog (the older dialog): `openCamera` and `openGallery` only start activities, and are not modelled beyond their results.
- ChangeProfilePictureDialogFragment `setupDialog`, `openGallery` and `showRemoveConfirmationDialog`: UI only. The gallery file-size log is not modelled. The `FileProvider` URI is a parameter. Bitmap compression is a parameter: the bytes the picture turns into.
- Config: the project URL is a constant parameter of the Supabase service; the build-time default `""` is not modelled further.
- GooglePlacesRestaurantSyncService: the URL building and encoding of each request, and the delay between pages, are left out. Each page is answered by the `respond` parameter.
- PostDetail.SortComments: modelled as a stable insertion sort, which is what `Collections.sort` (TimSort) does on lists under 32 elements. The model matches the app only below 32 comments, or when at most one comment has no date. With 32 or more comments and two undated ones the comparator is not a total preorder: TimSort's merge and gallop may order them differently, or throw `IllegalArgumentException`.
- PostDetailActivity passes `model.Comment` objects to `adapter.CommentAdapter`, which expects `data.Comment`. The model keeps the screen's own comment list and models the adapter separately.
- GroupedActivityAdapter `groupActivities`: `getDateGroup` reads `System.currentTimeMillis()` once per activity (GroupedActivityAdapter.java:71). The model uses one `now` for the whole rebuild, so a rebuild that crosses midnight or another group boundary can group activities differently in the app.
- GroupedActivityAdapter's click listener and its `reviewMap` lookup: they only open a dialog.
- Avatar borders in the adapters: presentation only.

## Findings

| source | as written | input that shows it | evidently intended | confidence | as-written member | corrected member |
|---|---|---|---|---|---|---|
| app/src/main/java/com/example/food/PostDetailActivity.java:217-221 | the comment comparator returns 1 when both timestamps are null, in both argument orders, which breaks the `Comparator` contract | two comments without a timestamp | two undated comments compare equal (0) | not executed | PostDetail.AsWrittenNotAntisymmetric | PostDetail.CompareContract |
| app/src/main/java/com/example/food/dialogs/ReviewDetailsDialog.java:281-293 | `updateVoteDisplay` would write "N people found this accurate" counting every vote, including "inaccurate" ones; the method sits behind a null check on a view that is never bound (lines 77 and 156), so no user sees the line | a review whose only vote is "inaccurate": the text computed is "1 person found this accurate" while the accuracy is 0% | only "accurate" votes are counted, should the view come back | not executed | ReviewDetails.VoteCountTextAsWrittenMiscounts | ReviewDetails.InaccurateVoteKeepsCount |
