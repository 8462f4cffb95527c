/** The post service: creation stamped with the caller as author, the base
    scope of the feed, and delete and update of one post behind the
    NOT_FOUND-then-FORBIDDEN ownership guard. */
module PostService {
  import opened Common
  import opened Documents

  /** The create body after validation; an `author` in it is overridden. */
  datatype PostPayload = PostPayload(content: string, author: Option<Id>, isDeleted: Option<bool>)

  /** A partial update; None is "field not sent". */
  datatype PostPatch = PostPatch(content: Option<string>, author: Option<Id>, isDeleted: Option<bool>)

  /** A post with its author populated as name and email (None: JSON null). */
  datatype PopulatedPost = PopulatedPost(id: Id, content: string, author: Option<AuthorRef>, isDeleted: bool)

  function ApplyPostPatch(p: Post, patch: PostPatch): Post {
    p.(content := patch.content.GetOr(p.content),
       author := patch.author.GetOr(p.author),
       isDeleted := patch.isDeleted.GetOr(p.isDeleted))
  }

  /** An update keeps the id; every field the patch sends replaces the
      stored one and every field it leaves out is kept; an empty patch keeps
      the whole post, and applying a patch twice is applying it once. */
  lemma ApplyPostPatchLaws(p: Post, patch: PostPatch)
    ensures ApplyPostPatch(p, patch).id == p.id
    ensures patch.content.Some? ==> ApplyPostPatch(p, patch).content == patch.content.value
    ensures patch.content.None? ==> ApplyPostPatch(p, patch).content == p.content
    ensures patch.author.Some? ==> ApplyPostPatch(p, patch).author == patch.author.value
    ensures patch.author.None? ==> ApplyPostPatch(p, patch).author == p.author
    ensures patch.isDeleted.Some? ==> ApplyPostPatch(p, patch).isDeleted == patch.isDeleted.value
    ensures patch.isDeleted.None? ==> ApplyPostPatch(p, patch).isDeleted == p.isDeleted
    ensures ApplyPostPatch(p, PostPatch(None, None, None)) == p
    ensures ApplyPostPatch(ApplyPostPatch(p, patch), patch) == ApplyPostPatch(p, patch)
  {
  }

  function Populate(p: Post, users: map<Id, User>): PopulatedPost {
    PopulatedPost(p.id, p.content, PopulateAuthor(users, p.author), p.isDeleted)
  }

  function AuthorOf(posts: map<Id, Post>, id: Id): (r: Option<Id>)
    ensures r.Some? <==> id in posts
  {
    if id in posts then Some(posts[id].author) else None
  }

  /** `getAllPosts` starts from every post, the author populated, and its
      search term is matched against `content` alone. */
  function AllPostsQuery(): (q: BaseQuery)
    ensures forall author :: InScope(q, author)
    ensures q.populateAuthor && q.search == Fields(["content"])
  {
    BaseQuery(None, true, Fields(["content"]))
  }

  class PostStore {
    var posts: map<Id, Post>

    /** Every post is stored under its own id. */
    ghost predicate Valid()
      reads this
    {
      forall id :: id in posts ==> posts[id].id == id
    }

    constructor ()
      ensures Valid() && posts == map[]
    {
      posts := map[];
    }

    /** `createPost`: the payload spread first, then `author: user.userId`. */
    method CreatePost(p: PostPayload, caller: Token, freshId: Id) returns (post: Post)
      requires Valid() && freshId !in posts
      modifies this
      ensures Valid()
      ensures post == Post(freshId, p.content, caller.userId, p.isDeleted.GetOr(false))
      ensures posts == old(posts)[freshId := post]
    {
      post := Post(freshId, p.content, caller.userId, p.isDeleted.GetOr(false));
      posts := posts[freshId := post];
    }

    /** `deletePost`: NOT_FOUND, then the ownership test, then the addressed
        post alone is removed and null is returned. */
    method DeletePost(id: Id, caller: Token) returns (r: Result<()>)
      requires Valid()
      modifies this
      ensures Valid()
      ensures match OwnershipGuard(AuthorOf(old(posts), id), caller, "Post not found", "You can only delete your own posts")
              case Some(e) => r == Err(e) && posts == old(posts)
              case None => r == Ok(()) && posts == old(posts) - {id}
    {
      if id !in posts {
        return Err(ApiError(NOT_FOUND, "Post not found"));
      }
      var post := posts[id];
      if caller.role != ADMIN && caller.role != SUPER_ADMIN && post.author != caller.userId {
        return Err(ApiError(FORBIDDEN, "You can only delete your own posts"));
      }
      posts := posts - {id};
      r := Ok(());
    }

    /** `updatePost`: NOT_FOUND, then the ownership test, then the patch is
        applied to the addressed post alone, which is returned with its
        author populated. */
    method UpdatePost(id: Id, patch: PostPatch, caller: Token, users: map<Id, User>) returns (r: Result<PopulatedPost>)
      requires Valid()
      modifies this
      ensures Valid()
      ensures match OwnershipGuard(AuthorOf(old(posts), id), caller, "Post not found", "You can only edit your own posts")
              case Some(e) => r == Err(e) && posts == old(posts)
              case None => posts == old(posts)[id := ApplyPostPatch(old(posts)[id], patch)]
                           && r == Ok(Populate(posts[id], users))
    {
      if id !in posts {
        return Err(ApiError(NOT_FOUND, "Post not found"));
      }
      var post := posts[id];
      if caller.role != ADMIN && caller.role != SUPER_ADMIN && post.author != caller.userId {
        return Err(ApiError(FORBIDDEN, "You can only edit your own posts"));
      }
      var updated := ApplyPostPatch(post, patch);
      posts := posts[id := updated];
      r := Ok(Populate(updated, users));
    }
  }
}
