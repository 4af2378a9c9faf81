/** The feed slice: the post list, the post shown on a detail view, and the
    loading/error status of the last request. */
module FeedSlice {
  import opened Nullable
  import opened Entities
  import opened Thunk

  datatype FeedState = FeedState(
    posts: seq<Post>,
    selectedPost: Option<Post>,
    isLoading: bool,
    error: Option<string>)

  const InitialState := FeedState([], None, false, None)

  datatype FeedAction =
    | ClearSelectedPost
    | ClearFeedError
    | FetchPosts(all: AsyncAction<seq<Post>>)
    | FetchPostById(one: AsyncAction<Post>)
  {
    predicate IsPending()
    {
      (FetchPosts? && all.Pending?) || (FetchPostById? && one.Pending?)
    }

    predicate IsRejectedWith(msg: string)
    {
      (FetchPosts? && all == Rejected(msg)) || (FetchPostById? && one == Rejected(msg))
    }
  }

  const FetchPostsFailed := "Failed to fetch posts"
  const FetchPostFailed := "Failed to fetch post"

  /** `fetchPosts`: GET /feed; the message is the error body's `error` field. */
  function FetchPostsThunk(resp: Response<seq<Post>>): (a: FeedAction)
    ensures a.FetchPosts? && !a.all.Pending?
    ensures a.all.Fulfilled? <==> resp.Ok?
    ensures a.all.Fulfilled? ==> a.all.payload == resp.data
    ensures a.all.Rejected? ==> a.all.message == RejectionMessage(resp.body, ErrorKey, "Failed to fetch posts")
    ensures a.all.Rejected? ==> a.all.message != ""
  {
    FetchPosts(Settle(resp, ErrorKey, FetchPostsFailed))
  }

  /** `fetchPostById`: GET /feed/{id}; also reads the `error` field. */
  function FetchPostByIdThunk(resp: Response<Post>): (a: FeedAction)
    ensures a.FetchPostById? && !a.one.Pending?
    ensures a.one.Fulfilled? <==> resp.Ok?
    ensures a.one.Fulfilled? ==> a.one.payload == resp.data
    ensures a.one.Rejected? ==> a.one.message == RejectionMessage(resp.body, ErrorKey, "Failed to fetch post")
    ensures a.one.Rejected? ==> a.one.message != ""
  {
    FetchPostById(Settle(resp, ErrorKey, FetchPostFailed))
  }

  /** The slice reducer. */
  function Reduce(s: FeedState, a: FeedAction): (s': FeedState)
    ensures !(s.isLoading && s.error.Some?) ==> !(s'.isLoading && s'.error.Some?)
    ensures s'.isLoading <==> a.IsPending() || ((a.ClearSelectedPost? || a.ClearFeedError?) && s.isLoading)
    ensures s'.error.Some? ==> s'.error == s.error || a.IsRejectedWith(s'.error.value)
    // the list changes only by a whole fetched list
    ensures s'.posts != s.posts ==> a.FetchPosts? && a.all.Fulfilled? && s'.posts == a.all.payload
    // the selection changes only when cleared or a single post is fetched
    ensures s'.selectedPost != s.selectedPost ==>
              a.ClearSelectedPost? || (a.FetchPostById? && a.one.Fulfilled? && s'.selectedPost == Some(a.one.payload))
  {
    match a
    case ClearSelectedPost => s.(selectedPost := None)
    case ClearFeedError => s.(error := None)
    case FetchPosts(r) =>
      (match r
         case Pending => s.(isLoading := true, error := None)
         case Fulfilled(posts) => s.(isLoading := false, posts := posts)
         case Rejected(msg) => s.(isLoading := false, error := Some(msg)))
    case FetchPostById(r) =>
      (match r
         case Pending => s.(isLoading := true, error := None)
         case Fulfilled(post) => s.(isLoading := false, selectedPost := Some(post))
         case Rejected(msg) => s.(isLoading := false, error := Some(msg)))
  }

  /** Both `pending` actions start loading and clear the error, and leave
      the list and the selection alone. */
  lemma PendingStartsRequest(s: FeedState, a: FeedAction)
    requires a.IsPending()
    ensures Reduce(s, a) == s.(isLoading := true, error := None)
  {
  }

  /** A fetched list replaces the posts with exactly that list, in order. */
  lemma FetchPostsFulfilledReplaces(s: FeedState, posts: seq<Post>)
    ensures Reduce(s, FetchPosts(Fulfilled(posts))) == s.(isLoading := false, posts := posts)
  {
  }

  /** A failed fetch leaves the list and the selection as they were. */
  lemma RejectedRecordsError(s: FeedState, a: FeedAction, msg: string)
    requires a == FetchPosts(Rejected(msg)) || a == FetchPostById(Rejected(msg))
    ensures Reduce(s, a) == s.(isLoading := false, error := Some(msg))
  {
  }

  /** A fetched post is selected; it is not merged into the list. */
  lemma FetchPostByIdFulfilledSelects(s: FeedState, post: Post)
    ensures Reduce(s, FetchPostById(Fulfilled(post))) == s.(isLoading := false, selectedPost := Some(post))
  {
  }

  /** Each clear action changes only its own field, and repeating it changes
      nothing. */
  lemma ClearActionsTouchOwnField(s: FeedState)
    ensures Reduce(s, ClearSelectedPost) == s.(selectedPost := None)
    ensures Reduce(s, ClearFeedError) == s.(error := None)
    ensures Reduce(Reduce(s, ClearSelectedPost), ClearSelectedPost) == Reduce(s, ClearSelectedPost)
    ensures Reduce(Reduce(s, ClearFeedError), ClearFeedError) == Reduce(s, ClearFeedError)
  {
  }

  /** The list carried by the last successful `fetchPosts` in `acts`. */
  function LastFetched(acts: seq<FeedAction>): Option<seq<Post>>
    decreases |acts|
  {
    if |acts| == 0 then None
    else
      var a := acts[|acts| - 1];
      if a.FetchPosts? && a.all.Fulfilled? then Some(a.all.payload)
      else LastFetched(acts[..|acts| - 1])
  }

  /** After any sequence of actions the post list is exactly the list of the
      last successful `fetchPosts`, or the starting list if none succeeded:
      the last response to arrive wins, and failures never clear it. */
  lemma {:induction false} ReplayPostsAreLastFetched(s: FeedState, acts: seq<FeedAction>)
    ensures Replay(Reduce, s, acts).posts == LastFetched(acts).GetOr(s.posts)
  {
    if |acts| > 0 {
      ReplayPostsAreLastFetched(s, acts[..|acts| - 1]);
    }
  }

  /** The feed reads the `error` field of the error body: each fetch
      rejects with the server's non-empty `error`, otherwise with its own
      fallback, so a body carrying only `message` gives the fallback. */
  lemma ThunkRejectionMessages(resp: Response<seq<Post>>, one: Response<Post>)
    requires resp.Failed? && one.Failed?
    ensures FetchPostsThunk(resp) == FetchPosts(Rejected(RejectionMessage(resp.body, ErrorKey, "Failed to fetch posts")))
    ensures FetchPostByIdThunk(one) == FetchPostById(Rejected(RejectionMessage(one.body, ErrorKey, "Failed to fetch post")))
    ensures resp.body.Some? && resp.body.value.error.None? ==> FetchPostsThunk(resp) == FetchPosts(Rejected("Failed to fetch posts"))
  {
  }
}
