/** The app's plain data holders (Firestore documents), as values. Every
    reference-typed Java field is an `Option`, since Firestore leaves a field
    null when the document lacks it. Dates and Firestore timestamps are epoch
    milliseconds. */
module Models {
  import opened Common

  /** model/Post.java. The three restaurant fields are written by
      CreatePostActivity.savePostToFirestore; model/Post.java itself does not
      declare them. */
  datatype Post = Post(
    postId: Option<string>,
    title: Option<string>,
    content: Option<string>,
    username: Option<string>,
    userId: Option<string>,
    coverImageUrl: Option<string>,
    timestamp: Option<Long>,
    likesCount: int,
    commentsCount: int,
    category: Option<string>,
    restaurantId: Option<string>,
    restaurantName: Option<string>,
    restaurantAddress: Option<string>)

  /** The no-argument `new Post()`: every reference null, counters zero. */
  const EmptyPost: Post :=
    Post(None, None, None, None, None, None, None, 0, 0, None, None, None, None)

  /** model/Restaurant.java; coordinates are kept as reals. */
  datatype Restaurant = Restaurant(
    id: Option<string>,
    name: Option<string>,
    address: Option<string>,
    latitude: real,
    longitude: real,
    category: Option<string>,
    region: Option<string>)

  /** data/ActivityItem.java. */
  datatype ActivityType = Vote | CommentActivity

  datatype ActivityItem = ActivityItem(
    id: Option<string>,
    kind: Option<ActivityType>,
    userId: Option<string>,
    userName: Option<string>,
    userAvatarUrl: Option<string>,
    reviewId: Option<string>,
    reviewCaption: Option<string>,
    restaurantName: Option<string>,
    timestamp: Option<Long>,
    voteType: Option<bool>,
    commentText: Option<string>,
    reviewFirstImageUrl: Option<string>)

  /** data/Comment.java: a comment stored inside a review. */
  datatype ReviewComment = ReviewComment(
    id: Option<string>,
    userId: Option<string>,
    userName: Option<string>,
    text: Option<string>,
    createdAt: Option<Long>)

  /** model/Comment.java: a comment on a post. */
  datatype PostComment = PostComment(
    commentId: Option<string>,
    postId: Option<string>,
    userId: Option<string>,
    username: Option<string>,
    content: Option<string>,
    timestamp: Option<Long>)

  /** data/UserProfile.java, without the floating-point scores and the stats map. */
  datatype UserProfile = UserProfile(
    uid: Option<string>,
    name: Option<string>,
    displayName: Option<string>,
    email: Option<string>,
    bio: Option<string>,
    avatarUrl: Option<string>,
    createdAt: Long,
    updatedAt: Long)
}
