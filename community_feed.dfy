/** The community feed page: the current page and the number of pages are
    state that the Previous and Next buttons step with clamped updates; the
    draft post is state that submission guards against blank text and clears
    only after the server accepted it; Edit and Delete are shown by the same
    ownership rule the server enforces. */
module CommunityFeed {
  import opened Common
  import opened Interests
  import opened Zod
  import opened PostValidation

  /** The posts requested per page. */
  const PageSize: nat := 10

  /** The query of `GET /posts` for one page: newest first. */
  datatype FeedQuery = FeedQuery(page: int, limit: nat, sortField: string, sortOrder: string)

  /** The signed-in user as the client knows it; the role may be absent. */
  datatype ClientUser = ClientUser(id: Id, role: Option<Role>)

  /** `setPage((p) => Math.max(1, p - 1))`. */
  function PreviousPage(p: int): (r: int)
    ensures r >= 1
    ensures p > 1 ==> r == p - 1
  {
    if p - 1 > 1 then p - 1 else 1
  }

  /** `setPage((p) => Math.min(totalPages, p + 1))`. */
  function NextPage(p: int, totalPages: int): (r: int)
    ensures r <= totalPages
    ensures p < totalPages ==> r == p + 1
  {
    if p + 1 < totalPages then p + 1 else totalPages
  }

  /** Edit and Delete are shown to ADMIN and SUPER_ADMIN users and to the
      post's author; to nobody when no user is signed in. */
  predicate CanEditPost(user: Option<ClientUser>, authorId: Id) {
    user.Some? && (user.value.role == Some(ADMIN) || user.value.role == Some(SUPER_ADMIN) || user.value.id == authorId)
  }

  /** For a signed-in user whose id and role are those of the token, the
      buttons are shown exactly to the callers the server lets change or
      delete the post. */
  lemma CanEditAgreesWithServer(t: Token, authorId: Id)
    ensures CanEditPost(Some(ClientUser(t.userId, Some(t.role))), authorId) <==> MayModify(t, authorId)
    ensures CanEditPost(Some(ClientUser(t.userId, Some(t.role))), authorId) <==>
            OwnershipGuard(Some(authorId), t, "Post not found", "You can only delete your own posts").None?
  {
  }

  class FeedPage {
    var page: int
    var totalPages: int
    var draft: string

    /** The page is within 1..totalPages. */
    ghost predicate InRange()
      reads this
    {
      1 <= page <= totalPages
    }

    constructor ()
      ensures page == 1 && totalPages == 1 && draft == [] && InRange()
    {
      page := 1;
      totalPages := 1;
      draft := [];
    }

    /** Previous is disabled on the first page. */
    predicate PreviousDisabled()
      reads this
    {
      page == 1
    }

    /** Next is disabled on the last page. */
    predicate NextDisabled()
      reads this
    {
      page == totalPages
    }

    function Query(): (q: FeedQuery)
      reads this
      ensures q.page == page && q.limit == PageSize
    {
      FeedQuery(page, PageSize, "createdAt", "desc")
    }

    /** A click on Previous: nothing while it is disabled, otherwise one page
        back but never below page 1. */
    method ClickPrevious()
      modifies this
      ensures page == if old(PreviousDisabled()) then old(page) else PreviousPage(old(page))
      ensures page >= 1 || page == old(page)
      ensures old(InRange()) ==> InRange()
      ensures totalPages == old(totalPages) && draft == old(draft)
    {
      if !PreviousDisabled() {
        page := PreviousPage(page);
      }
    }

    /** A click on Next: nothing while it is disabled, otherwise one page
        on but never past totalPages. */
    method ClickNext()
      modifies this
      ensures page == if old(NextDisabled()) then old(page) else NextPage(old(page), totalPages)
      ensures page <= totalPages || page == old(page)
      ensures old(InRange()) ==> InRange()
      ensures totalPages == old(totalPages) && draft == old(draft)
    {
      if !NextDisabled() {
        page := NextPage(page, totalPages);
      }
    }

    /** A response to the feed query: the page count is taken from its
        `meta` when there is one. */
    method ReceiveMeta(totalPage: Option<int>)
      modifies this
      ensures totalPages == if totalPage.Some? then totalPage.value else old(totalPages)
      ensures page == old(page) && draft == old(draft)
    {
      if totalPage.Some? {
        totalPages := totalPage.value;
      }
    }

    method EditDraft(text: string)
      modifies this
      ensures draft == text && page == old(page) && totalPages == old(totalPages)
    {
      draft := text;
    }

    /** Submitting the form: a blank draft sends nothing; otherwise the draft
        is sent as it is, untrimmed, and cleared only when the server
        accepted it (`created`). */
    method SubmitPost(created: bool) returns (sent: Option<string>)
      modifies this
      ensures sent.None? <==> Trim(old(draft)) == []
      ensures sent.Some? ==> sent.value == old(draft)
      ensures draft == if sent.Some? && created then [] else old(draft)
      ensures page == old(page) && totalPages == old(totalPages)
    {
      if Trim(draft) == [] {
        return None;
      }
      sent := Some(draft);
      if created {
        draft := [];
      }
    }
  }

  /** What the feed sends always passes the server's create-post schema. */
  lemma SentDraftAccepted(draft: string)
    requires Trim(draft) != []
    ensures CreatePostSchema(PostBody(Str(draft))) == Accepted(draft)
  {
  }

  /** Previous never leaves page 1 or above, and Next never goes past the
      page count, whatever the current page. */
  lemma StepsClamped(p: int, totalPages: int)
    ensures PreviousPage(p) >= 1 && NextPage(p, totalPages) <= totalPages
    ensures 1 <= p <= totalPages ==> 1 <= PreviousPage(p) <= totalPages && 1 <= NextPage(p, totalPages) <= totalPages
  {
  }

  /** When the server reports no pages at all, Next is enabled on page 1 and
      takes the feed to page 0. */
  lemma NextWithNoPages()
    ensures NextPage(1, 0) == 0
  {
  }
}
