/** `createPostZodSchema`: `content` must be a string of length at least 1. */
module PostValidation {
  import opened Zod

  datatype PostBody = PostBody(content: Field)

  function CreatePostSchema(b: PostBody): (r: Parsed<string>)
    ensures r.Accepted? <==> b.content.Str? && |b.content.s| >= 1
    ensures r.Accepted? ==> r.value == b.content.s
    ensures b.content == Str("") ==> r == Rejected([Issue("content", TooSmall("Content is required"))])
    ensures !b.content.Str? ==> r == Rejected([Issue("content", InvalidType)])
  {
    var issues := RequiredString("content", b.content, "Content is required");
    if issues == [] then Accepted(b.content.s) else Rejected(issues)
  }

  /** Nothing is trimmed: content made only of spaces is accepted as it is. */
  lemma WhitespaceAccepted(n: nat)
    requires n >= 1
    ensures CreatePostSchema(PostBody(Str(seq(n, _ => ' ')))) == Accepted(seq(n, _ => ' '))
  {
  }
}
