/** The community feed page: liking a post and publishing a new one. The post list is the
    page's state; each handler maps the old state to the new one. */
module Feed {
  import opened Options
  import opened JsString

  datatype Post = Post(
    id: int,
    author: string,
    role: string,
    timestamp: string,
    content: string,
    image: Option<string>,
    likes: int,
    comments: int,
    isLiked: bool)

  /** The likes a post has from everyone other than the viewer. */
  function OthersLikes(p: Post): int {
    p.likes - if p.isLiked then 1 else 0
  }

  /** The like button of one post: the viewer's like flips and the count follows it, so the
      likes from everyone else stay put; nothing else about the post changes. */
  function ToggleLike(p: Post): (r: Post)
    ensures r.isLiked != p.isLiked
    ensures OthersLikes(r) == OthersLikes(p)
    ensures r.(likes := p.likes, isLiked := p.isLiked) == p
  {
    p.(likes := if p.isLiked then p.likes - 1 else p.likes + 1, isLiked := !p.isLiked)
  }

  /** `handleLike(postId)`: every post with that id is toggled, every other post is kept,
      and the list keeps its length, order and ids. */
  function HandleLike(posts: seq<Post>, postId: int): (r: seq<Post>)
    ensures |r| == |posts|
    ensures forall i :: 0 <= i < |posts| ==> r[i].id == posts[i].id
    ensures forall i :: 0 <= i < |posts| && posts[i].id != postId ==> r[i] == posts[i]
    ensures forall i :: 0 <= i < |posts| && posts[i].id == postId ==> r[i] == ToggleLike(posts[i])
    decreases |posts|
  {
    if |posts| == 0 then []
    else
      var first := if posts[0].id == postId then ToggleLike(posts[0]) else posts[0];
      [first] + HandleLike(posts[1..], postId)
  }

  lemma ToggleLikeTwice(p: Post)
    ensures ToggleLike(ToggleLike(p)) == p
  {
  }

  /** Liking the same post twice gives back the original list. */
  lemma LikeTwiceRestores(posts: seq<Post>, postId: int)
    ensures HandleLike(HandleLike(posts, postId), postId) == posts
  {
    var once := HandleLike(posts, postId);
    var twice := HandleLike(once, postId);
    forall i | 0 <= i < |posts| ensures twice[i] == posts[i] {
      if posts[i].id == postId {
        ToggleLikeTwice(posts[i]);
      }
    }
  }

  /** The feed page's state: the posts, newest first, and the text in the composer. */
  datatype FeedState = FeedState(posts: seq<Post>, draft: string)

  const FallbackAuthor := "John Doe"
  const ComposerRole := "UI/UX Designer"
  const JustNow := "Just now"

  /** `handleSubmitPost()`: a blank draft changes nothing; otherwise the draft, as typed,
      becomes a new unliked post with no likes or comments at the top of the list, numbered
      one past the current length, and the composer is cleared. `sessionName` is the signed-in
      user's name, if any. */
  function SubmitPost(f: FeedState, sessionName: Option<string>): (r: FeedState)
    ensures IsBlank(f.draft) ==> r == f
    ensures !IsBlank(f.draft) ==>
      && r.draft == ""
      && |r.posts| == |f.posts| + 1
      && r.posts[1..] == f.posts
      && r.posts[0] == Post(|f.posts| + 1, OrElse(sessionName, FallbackAuthor), ComposerRole, JustNow,
                            f.draft, None, 0, 0, false)
  {
    if IsBlank(f.draft) then f
    else
      var post := Post(|f.posts| + 1, OrElse(sessionName, FallbackAuthor), ComposerRole, JustNow,
                       f.draft, None, 0, 0, false);
      FeedState([post] + f.posts, "")
  }

  /** The ids carried by a list of posts. */
  function Ids(posts: seq<Post>): set<int> {
    set i | 0 <= i < |posts| :: posts[i].id
  }

  /** The posts carry exactly the ids 1 through n. */
  ghost predicate NumberedOneTo(posts: seq<Post>, n: int) {
    forall k :: k in Ids(posts) <==> 1 <= k <= n
  }

  /** If the posts are numbered 1..n with n the list length, they still are after a submit. */
  lemma SubmitKeepsNumbering(f: FeedState, sessionName: Option<string>)
    requires NumberedOneTo(f.posts, |f.posts|)
    ensures NumberedOneTo(SubmitPost(f, sessionName).posts, |SubmitPost(f, sessionName).posts|)
  {
    var r := SubmitPost(f, sessionName);
    if !IsBlank(f.draft) {
      var n := |f.posts|;
      forall k | k in Ids(r.posts) ensures 1 <= k <= n + 1 {
        var i :| 0 <= i < |r.posts| && r.posts[i].id == k;
        if i > 0 {
          assert r.posts[i] == f.posts[i - 1];
          assert k in Ids(f.posts);
        }
      }
      forall k | 1 <= k <= n + 1 ensures k in Ids(r.posts) {
        if k <= n {
          assert k in Ids(f.posts);
          var i :| 0 <= i < n && f.posts[i].id == k;
          assert r.posts[i + 1] == f.posts[i];
        } else {
          assert r.posts[0].id == k;
        }
      }
    }
  }

  /** Liking keeps the set of ids. */
  lemma LikeKeepsIds(posts: seq<Post>, postId: int)
    ensures Ids(HandleLike(posts, postId)) == Ids(posts)
  {
    var r := HandleLike(posts, postId);
    forall k | k in Ids(posts) ensures k in Ids(r) {
      var i :| 0 <= i < |posts| && posts[i].id == k;
      assert r[i].id == k;
    }
  }
}
