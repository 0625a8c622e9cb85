/** The community feed of goddessgpt-ui/components/community/CommunityChat.tsx:
    liking a post and publishing a new one. */
module CommunityFeed {
  import opened Wrappers
  import opened Js

  datatype Author = Author(name: string, image: Option<string>)

  datatype Post = Post(id: string, author: Author, content: string, likes: nat, replies: nat)

  /** `handleLikePost`: one more like on every post with the given id. */
  function LikePost(posts: seq<Post>, postId: string): (r: seq<Post>)
    ensures |r| == |posts|
    ensures forall k :: 0 <= k < |posts| && posts[k].id == postId ==>
              r[k] == posts[k].(likes := posts[k].likes + 1)
    ensures forall k :: 0 <= k < |posts| && posts[k].id != postId ==> r[k] == posts[k]
  {
    seq(|posts|, k requires 0 <= k < |posts| =>
      if posts[k].id == postId then posts[k].(likes := posts[k].likes + 1) else posts[k])
  }

  /** The total number of likes in the feed. */
  function TotalLikes(posts: seq<Post>): nat {
    if posts == [] then 0 else TotalLikes(posts[..|posts| - 1]) + posts[|posts| - 1].likes
  }

  /** How many posts carry the id. */
  function CountId(posts: seq<Post>, postId: string): nat {
    if posts == [] then 0
    else CountId(posts[..|posts| - 1], postId) + (if posts[|posts| - 1].id == postId then 1 else 0)
  }

  /** Liking adds one like per post with that id, and none elsewhere. */
  lemma {:induction false} LikePostTotal(posts: seq<Post>, postId: string)
    ensures TotalLikes(LikePost(posts, postId)) == TotalLikes(posts) + CountId(posts, postId)
    decreases |posts|
  {
    if posts != [] {
      var init := posts[..|posts| - 1];
      assert LikePost(posts, postId)[..|posts| - 1] == LikePost(init, postId);
      LikePostTotal(init, postId);
    }
  }

  /** `user.name || "Anonymous"`. */
  function AuthorName(userName: Option<string>): (name: string)
    ensures Truthy(userName) ==> name == userName.value
    ensures !Truthy(userName) ==> name == "Anonymous"
  {
    Or(userName, Some("Anonymous")).GetOr("Anonymous")
  }

  class CommunityChat {
    var posts: seq<Post>
    var input: string
    var isPosting: bool

    constructor ()
      ensures posts == [] && input == "" && !isPosting
    {
      posts := [];
      input := "";
      isPosting := false;
    }

    method HandleLikePost(postId: string)
      modifies this`posts
      ensures posts == LikePost(old(posts), postId)
    {
      posts := LikePost(posts, postId);
    }

    /** `handlePostMessage`, run to the end of its `finally`. Whitespace-only
        input changes nothing. Otherwise one post with the untrimmed input, no
        likes and no replies is appended, and the input is cleared. `newId`
        stands for `nanoid()`. */
    method HandlePostMessage(newId: string, userName: Option<string>, userImage: Option<string>)
      modifies this`posts, this`input, this`isPosting
      ensures Trim(old(input)) == "" ==>
                posts == old(posts) && input == old(input) && isPosting == old(isPosting)
      ensures Trim(old(input)) != "" ==>
                && posts == old(posts) + [Post(newId, Author(AuthorName(userName), userImage), old(input), 0, 0)]
                && input == "" && !isPosting
    {
      if Trim(input) == "" {
        return;
      }
      isPosting := true;
      var newPost := Post(newId, Author(AuthorName(userName), userImage), input, 0, 0);
      posts := posts + [newPost];
      input := "";
      isPosting := false;
    }
  }
}
