# Notes-and-community server: access control and mutation rules

This project models the rules that decide who may do what in a small notes
and community-posts application (an Express/Mongoose server and a React
client), and proves properties of them.

- **Users.** Registration refuses a taken email and stores the hashed
  password with a credentials login provider. A profile update runs an
  ordered cascade of role checks, each failing with its own status. Two
  aggregation pipelines group users by interest and join a user with their
  posts.
- **Notes and posts.** Creation stamps the caller as author. Reading,
  updating and deleting one document fail NOT_FOUND first, then FORBIDDEN
  unless the caller is ADMIN, SUPER_ADMIN or the author. A successful
  mutation touches only the addressed document. The collections are maps
  inside classes (`NoteStore`, `PostStore`, `UserStore`) whose methods
  change them.
- **`checkAuth`.** The middleware picks the token (cookie first), verifies
  it, and loads the user by email. It then runs the account guards in a
  fixed order and checks the token's role. Finally it calls `next` exactly
  once.
- **Routers.** Each router is a constant table in registration order.
  Dispatch takes the first route that matches. The lemmas give the
  permission matrix and show that fixed paths shadow `/:id`.
- **Request validators.** The zod schemas become functions from a body of
  optional fields to either the parsed value or the list of issues.
- **Client helpers.**
  - The pagination component's buttons and flags.
  - The registration form's interests parser.
  - The community feed's page stepping and draft handling, as a class.
  - The feed's edit/delete visibility, proved to agree with the server's
    ownership rule.

Effects outside the code are parameters:
- bcrypt is `hash: string -> string`;
- JWT verification is `verify: string -> Option<Token>`, where None means
  it threw;
- a new ObjectId is a `freshId` absent from the store;
- whether the create-post request succeeded is a `created` flag.

## Model

| member | source | states |
|---|---|---|
| Common.OwnershipGuard | server/src/app/modules/note/note.service.ts:82-96 | A missing document is NOT_FOUND with the given message. An existing one passes exactly when the caller is ADMIN, SUPER_ADMIN or its author, and is otherwise FORBIDDEN with the given message. Privileged callers always pass. |
| Documents.PopulateAuthor | server/src/app/modules/note/note.service.ts:58 | The populated author is present exactly when a user has that id, and then carries that user's id, name and email. |
| UserService.NewUserShape | server/src/app/modules/user/user.service.ts:21-36 | The created user stores `hash(password)` as its password. Its auths are `[credentials, email]` unless the payload gives auths, which then win, as a payload role does. |
| UserService.UserStore.CreateUser | server/src/app/modules/user/user.service.ts:12-39 | A taken email gives 400 "User Already Exist" and changes nothing. Otherwise the new user is stored under the fresh id and every other user is kept. |
| UserService.ApplyPatchLaws | server/src/app/modules/user/user.service.ts:103-106 | An update keeps the id. For each of the twelve patchable fields (name, email, password, phone, picture, address, role, the three status flags, interests, auths), a sent value replaces the stored one, the password as sent, and an unsent field is kept. An empty patch is the identity. Applying a patch twice equals applying it once. |
| UserService.UpdateUserGuard | server/src/app/modules/user/user.service.ts:46-101 | A USER touching another id gets 401, and this is checked before the 404 on a missing target. An ADMIN touching a SUPER_ADMIN gets 401 whatever the payload. A SUPER_ADMIN is refused only a missing target. A USER updating their own existing account with a role or a truthy status flag gets 403 "You are not authorized"; a USER update is accepted if and only if it is their own existing account and sends neither. An ADMIN promoting a non-SUPER_ADMIN to SUPER_ADMIN gets 403 "You are not authorized"; an ADMIN changing another ADMIN's role to anything else gets 403 "Admins cannot modify other Admins or Super Admins". An ADMIN update is accepted if and only if the target exists, is not a SUPER_ADMIN, and a sent role neither is SUPER_ADMIN nor targets an ADMIN. |
| UserService.FalsyFlagsPass | server/src/app/modules/user/user.service.ts:97-101 | Falsy status values (`isDeleted: false`) do not trigger the USER refusal: a USER's own update without role and without truthy flags passes. |
| UserService.AdminRoleChange | server/src/app/modules/user/user.service.ts:74-95 | For an ADMIN sending a role, the update passes if and only if the role is not SUPER_ADMIN and the target is a plain USER or has no stored role. |
| UserService.UserStore.UpdateUser | server/src/app/modules/user/user.service.ts:41-109 | A refusal by the guard cascade is returned and leaves the store unchanged. Otherwise only the target is replaced by the patched user, which is returned. |
| UserService.UnwindLength | server/src/app/modules/user/user.service.ts:145 | `$unwind` yields exactly one entry per interest of every user. |
| UserService.Group | server/src/app/modules/user/user.service.ts:146-152 | Groups have distinct interests. Each group holds exactly the members with that interest, in order, and is non-empty with count equal to its length. Every entry's interest has a group. |
| UserService.GroupCountsSum | server/src/app/modules/user/user.service.ts:147-151 | The group counts add up to the number of unwound entries. |
| UserService.UsersByInterestsTotals | server/src/app/modules/user/user.service.ts:143-155 | The counts sum to the total number of interests over all users, and every interest of every user has its group. |
| UserService.PostsBy | server/src/app/modules/user/user.service.ts:160-167 | A post is joined if and only if it is in the collection and its author is the user. |
| UserService.ProfileOf | server/src/app/modules/user/user.service.ts:130-141 | `getSingleUser`, and `getMe` with the token's user id: null exactly when no user has the id; otherwise the stored user with every field but the password, which is left out. |
| UserService.GetUserPosts | server/src/app/modules/user/user.service.ts:157-177 | Nothing when no user has the id. Otherwise the id, a matching user's name and email, and exactly that user's posts. |
| NoteService.NoteStore.CreateNote | server/src/app/modules/note/note.service.ts:11-17 | The stored note's author is the caller, whatever author the payload gave; isDeleted defaults to false. Only the new id is added. |
| NoteService.MyNotesQuery | server/src/app/modules/note/note.service.ts:19-36 | The scope is exactly the notes whose author is the caller, unpopulated, searched on the note fields. |
| NoteService.AllNotesQuery | server/src/app/modules/note/note.service.ts:38-55 | The scope is every note, with the author populated. |
| NoteService.NoteStore.GetSingleNote | server/src/app/modules/note/note.service.ts:57-75 | A missing id is 404. Success implies the caller may modify the note, and privileged callers always succeed. If the author exists, success holds exactly for ADMIN, SUPER_ADMIN or the author, and failure is 403. If the author was removed, a plain caller hits a null dereference. |
| NoteService.NoteStore.UpdateNote | server/src/app/modules/note/note.service.ts:77-103 | NOT_FOUND, then FORBIDDEN, leave the store unchanged. Otherwise only the addressed note is patched and returned. |
| NoteService.NoteStore.DeleteNote | server/src/app/modules/note/note.service.ts:105-124 | NOT_FOUND, then FORBIDDEN, leave the store unchanged. Otherwise exactly that id is removed and null is returned. |
| NoteService.ApplyNotePatchLaws | server/src/app/modules/note/note.service.ts:98-101 | A note update keeps the id. For each of title, content, author and isDeleted, a sent value replaces the stored one and an unsent field is kept. The empty patch is the identity; patching is idempotent. |
| NoteService.ReadAgreesWithWrite | server/src/app/modules/note/note.service.ts:63-67 | When the author exists, reading a note is allowed to exactly the callers that may update it. |
| PostService.PostStore.CreatePost | server/src/app/modules/post/post.service.ts:8-14 | The stored post's author is the caller, overriding the payload. Only the new id is added. |
| PostService.AllPostsQuery | server/src/app/modules/post/post.service.ts:16-33 | The feed scope is every post, searched on `content` alone, with the author populated. |
| PostService.PostStore.DeletePost | server/src/app/modules/post/post.service.ts:35-54 | NOT_FOUND, then FORBIDDEN, change nothing. Otherwise exactly the addressed post is removed and null is returned. |
| PostService.ApplyPostPatchLaws | server/src/app/modules/post/post.service.ts:78-80 | A post update keeps the id. For each of content, author and isDeleted, a sent value replaces the stored one and an unsent field is kept. The empty patch is the identity; patching is idempotent. |
| PostService.PostStore.UpdatePost | server/src/app/modules/post/post.service.ts:56-83 | NOT_FOUND, then FORBIDDEN, change nothing. Otherwise only the addressed post is patched, and it is returned with its author populated. |
| CheckAuth.SelectToken | server/src/app/middlewares/checkAuth.ts:14-18 | A truthy cookie token is used. The header is used only when the cookie is not truthy. No token results if and only if neither is truthy. |
| CheckAuth.FindUserByEmail | server/src/app/middlewares/checkAuth.ts:29 | The found user has the email; nothing is found if and only if no user has it. |
| CheckAuth.AccountGuard | server/src/app/middlewares/checkAuth.ts:31-49 | An account passes if and only if it is neither BLOCKED nor INACTIVE, not deleted, and verified. The checks run in that order, each a 400: a BLOCKED or INACTIVE account gets "User is " followed by its status, then a deleted one "User is deleted", then an unverified one "User is not verified!!". |
| CheckAuth.AuthDecision | server/src/app/middlewares/checkAuth.ts:13-55 | No token gives 403 "No Token Received". Success holds if and only if: the token verifies, a user has its email, that account passes the guards, and the token's role is among the route's roles. Success yields the verified token. Each stage fails with its own error, in order: a token that does not verify gives the invalid-token failure; an unknown email gives 400 "User does not exist"; then the account guard's error; then a role outside the route's list gives 403 "You are not permitted to view this route!!!". |
| CheckAuth.CookieTakesPrecedence | server/src/app/middlewares/checkAuth.ts:14-18 | With a truthy cookie token the Authorization header does not affect the outcome. |
| CheckAuth.FirstGuardDecides | server/src/app/middlewares/checkAuth.ts:34-42 | A BLOCKED account is reported as "User is BLOCKED" even when it is also deleted or unverified. |
| CheckAuth.StoredRoleIgnored | server/src/app/middlewares/checkAuth.ts:51 | Changing any user's stored role never changes the decision: the role checked is the token's. |
| CheckAuth.Run | server/src/app/middlewares/checkAuth.ts:10-60 | `next` is called exactly once, with nothing on success and with the decision's error otherwise. `req.user` is set to the verified token only on success. |
| Routing.Dispatch | server/src/app/modules/user/user.route.ts:15-37 | No route serves the request if and only if none matches. Otherwise the served route is the first match in registration order. |
| Routing.DispatchAt | server/src/app/modules/user/user.route.ts:15-37 | A route that matches with no earlier match is the one that serves. |
| Routing.AuthRoles | server/src/app/modules/user/user.route.ts:38-43 | The roles of the chain's `checkAuth`, or none if and only if the chain does not authenticate. |
| UserRoutes.RegisterIsOpen | server/src/app/modules/user/user.route.ts:10-14 | `POST /register` runs no middleware at all, so it admits every caller. |
| UserRoutes.AllUsersBeforeId | server/src/app/modules/user/user.route.ts:15-19 | `/all-users` would match `/:id` but is served by its own controller, for ADMIN and SUPER_ADMIN only. |
| UserRoutes.MeBeforeId | server/src/app/modules/user/user.route.ts:20 | `/me` wins over `/:id` and admits every role. |
| UserRoutes.GroupedBeforeId | server/src/app/modules/user/user.route.ts:21-25 | The interest grouping wins over `/:id` and admits exactly ADMIN and SUPER_ADMIN. |
| UserRoutes.UserPostsOpen | server/src/app/modules/user/user.route.ts:27-31 | `/get-user-posts/:id` is served by its controller and admits every role. |
| UserRoutes.GetUserById | server/src/app/modules/user/user.route.ts:33-37 | Any other single segment reads a user, for ADMIN and SUPER_ADMIN only. |
| UserRoutes.PatchValidatesFirst | server/src/app/modules/user/user.route.ts:38-43 | `PATCH /:id` validates the body before authenticating and admits every role. |
| NoteRoutes.CollectionRoutes | server/src/app/modules/note/note.route.ts:10-21 | `GET /` lists the caller's own notes. `POST /` authenticates, then validates with the create schema. Both admit every role. |
| NoteRoutes.AllNotesBeforeId | server/src/app/modules/note/note.route.ts:23-33 | `/all-notes` is not taken for an id and admits exactly ADMIN and SUPER_ADMIN. |
| NoteRoutes.ReadNoteRoute | server/src/app/modules/note/note.route.ts:29-33 | `GET /:id` (any id other than `all-notes`, which an earlier route takes) is served by the single-note handler and admits every role. |
| NoteRoutes.UpdateNoteRoute | server/src/app/modules/note/note.route.ts:35-40 | `PATCH /:id` authenticates every role, then validates with the update schema, and is served by the note update handler. |
| NoteRoutes.DeleteNoteRoute | server/src/app/modules/note/note.route.ts:42-46 | `DELETE /:id` is served by the note delete handler and admits every role. |
| PostRoutes.OpenRoutes | server/src/app/modules/post/post.route.ts:10-27 | Create, list and delete admit every role. Create authenticates before validating with the create-post schema. |
| PostRoutes.UpdateUnreachable | server/src/app/modules/post/post.route.ts:8-29 | No PATCH request is served, and no request reaches the update-post controller. |
| Zod.RequiredString | server/src/app/modules/note/note.validation.ts:4-5 | No issue if and only if the field is a string of length at least 1. An empty string is "too small" with the schema's message. A missing or non-string field is an invalid type. |
| Zod.OptionalString | server/src/app/modules/note/note.validation.ts:10-11 | Absent or any string, the empty one included, passes; only a non-string fails. |
| NoteValidation.PriorityOf | server/src/app/modules/note/note.validation.ts:6 | A priority is read if and only if the text is LOW, MEDIUM or HIGH, and each of the three texts reads as the priority of that name. |
| NoteValidation.PriorityIssues | server/src/app/modules/note/note.validation.ts:12 | Priority passes if and only if it is absent or one of the three values. |
| NoteValidation.CreateNoteSchema | server/src/app/modules/note/note.validation.ts:3-7 | Accepted if and only if title and content are non-empty strings and priority is absent or valid. The parsed value carries the fields. An empty title or content is reported with its message. |
| NoteValidation.UpdateNoteSchema | server/src/app/modules/note/note.validation.ts:9-13 | Accepted if and only if title and content are absent or strings and priority is absent or valid. The parsed value carries the sent fields. |
| NoteValidation.CreateAcceptedByUpdate | server/src/app/modules/note/note.validation.ts:3-13 | Every body the create schema accepts, the update schema accepts, with the same values. |
| NoteValidation.UpdateAllowsEmpty | server/src/app/modules/note/note.validation.ts:10-11 | Missing or empty title and content pass the update schema but not the create schema. |
| PostValidation.CreatePostSchema | server/src/app/modules/post/post.validation.ts:3-5 | Accepted if and only if content is a string of length at least 1, which is then the value. An empty string gives "Content is required". A missing or non-string content is an invalid type. |
| PostValidation.WhitespaceAccepted | server/src/app/modules/post/post.validation.ts:4 | Content of spaces only is accepted unchanged: nothing is trimmed. |
| Pagination.Buttons | client/src/components/common/Pagination.tsx:26 | There are exactly `totalPages` numbered buttons. |
| Pagination.Render | client/src/components/common/Pagination.tsx:14 | Nothing is rendered if and only if `totalPages <= 1`. |
| Pagination.RenderShape | client/src/components/common/Pagination.tsx:18-45 | The buttons are labelled 1..totalPages in ascending order, each requesting its own page and highlighted exactly when it is the current page. Previous requests page-1 and is disabled if and only if page is 1. Next requests page+1 and is disabled if and only if page is totalPages. |
| Pagination.EnabledTargetsInRange | client/src/components/common/Pagination.tsx:19-42 | With the current page in range, every enabled control requests a page in 1..totalPages. |
| Pagination.HighlightedButtons | client/src/components/common/Pagination.tsx:30-31 | Among n buttons, one is highlighted when the current page is in 1..n, and none otherwise. |
| Pagination.ExactlyOneHighlighted | client/src/components/common/Pagination.tsx:26-37 | The rendered component highlights exactly one button when the current page is in range, and none otherwise. |
| Interests.Split | client/src/pages/Register.tsx:17 | `split(",")` gives one more piece than there are commas, and no piece holds a comma. |
| Interests.JoinSplit | client/src/pages/Register.tsx:17 | Joining the pieces with commas gives back the text. |
| Interests.SplitAppend | client/src/pages/Register.tsx:17 | Splitting `a,b` gives the pieces of a followed by the pieces of b. |
| Interests.SplitNoComma | client/src/pages/Register.tsx:17 | A text without commas is one piece. |
| Interests.SplitJoin | client/src/pages/Register.tsx:17 | Splitting undoes joining comma-free pieces. |
| Interests.TrimStart | client/src/pages/Register.tsx:18 | Only leading whitespace is removed, and the result starts with a non-whitespace character or is empty. |
| Interests.TrimEnd | client/src/pages/Register.tsx:18 | Only trailing whitespace is removed, and the result ends with a non-whitespace character or is empty. |
| Interests.Trim | client/src/pages/Register.tsx:18 | The trim is a window of the text with only whitespace outside it and no whitespace at either end. It is empty if and only if the text is blank. |
| Interests.TrimIdempotent | client/src/pages/Register.tsx:18 | Trimming twice is trimming once. |
| Interests.KeepTrimmed | client/src/pages/Register.tsx:18-19 | No more interests than pieces. |
| Interests.KeepTrimmedEmpty | client/src/pages/Register.tsx:19 | Nothing is kept if and only if every piece is blank. |
| Interests.KeepTrimmedAppend | client/src/pages/Register.tsx:18-19 | Trimming and filtering distribute over concatenation, so order is kept. |
| Interests.KeptAreTrimmed | client/src/pages/Register.tsx:18-19 | Every kept interest is non-empty and is the trim of some piece. |
| Interests.ParsedInterestsClean | client/src/pages/Register.tsx:16-19 | No parsed interest is empty or holds a comma. Each equals its own trim, with no whitespace at either end. |
| Interests.InterestCountBound | client/src/pages/Register.tsx:17-19 | There are at most as many interests as commas plus one. |
| Interests.EmptyIffBlank | client/src/pages/Register.tsx:16-19 | The list is empty if and only if the text holds only commas and whitespace. |
| Interests.ParseAppend | client/src/pages/Register.tsx:16-19 | The interests of `a,b` are those of a followed by those of b: input order is kept. |
| Interests.ParseJoin | client/src/pages/Register.tsx:16-19 | Clean interests joined with commas parse back to the same list. |
| CommunityFeed.PreviousPage | client/src/pages/CommunityFeed.tsx:170 | `max(1, p-1)` is never below 1 and is p-1 above page 1. |
| CommunityFeed.NextPage | client/src/pages/CommunityFeed.tsx:179 | `min(totalPages, p+1)` never exceeds totalPages and is p+1 below it. |
| CommunityFeed.CanEditAgreesWithServer | client/src/pages/CommunityFeed.tsx:136-138 | For a signed-in user matching the token, Edit/Delete are shown exactly when the server's ownership guard lets the caller through. |
| CommunityFeed.FeedPage.constructor | client/src/pages/CommunityFeed.tsx:22-24 | The feed starts on page 1 of 1 with an empty draft. |
| CommunityFeed.FeedPage.Query | client/src/pages/CommunityFeed.tsx:25-34 | The feed requests the current page with a fixed page size of 10. |
| CommunityFeed.FeedPage.ClickPrevious | client/src/pages/CommunityFeed.tsx:168-173 | Disabled on page 1. Otherwise the page becomes `max(1, page-1)`, which keeps an in-range page in range. Nothing else changes. |
| CommunityFeed.FeedPage.ClickNext | client/src/pages/CommunityFeed.tsx:177-182 | Disabled on the last page. Otherwise the page becomes `min(totalPages, page+1)`, which keeps an in-range page in range. Nothing else changes. |
| CommunityFeed.FeedPage.ReceiveMeta | client/src/pages/CommunityFeed.tsx:36-38 | The page count is taken from the response's meta only when there is one. |
| CommunityFeed.FeedPage.EditDraft | client/src/pages/CommunityFeed.tsx:104 | The draft becomes the typed text. |
| CommunityFeed.FeedPage.SubmitPost | client/src/pages/CommunityFeed.tsx:52-65 | A blank draft sends nothing. Otherwise the draft is sent untrimmed and cleared only when the create succeeded. |
| CommunityFeed.SentDraftAccepted | client/src/pages/CommunityFeed.tsx:54-57 | A draft the feed sends always passes the server's create-post schema. |
| CommunityFeed.StepsClamped | client/src/pages/CommunityFeed.tsx:168-182 | Previous never goes below 1 and Next never past the page count. From an in-range page both stay in range. |
| CommunityFeed.NextWithNoPages | client/src/pages/CommunityFeed.tsx:177-181 | When the server reports zero pages, Next on page 1 moves the feed to page 0. |

## Left out

- The query builder used by every list endpoint is not part of this model. Its filter, search, sort, projection, pagination and `getMeta` stages are not modelled. The list services are modelled only by the base query they hand to it (`MyNotesQuery`, `AllNotesQuery`, `AllPostsQuery`); `getAllUsers`, which only hands the whole user collection to it, is left out for the same reason. The `Promise.all` concurrency is not modelled.
- Mongoose and MongoDB:
  - ObjectId generation and casting: a malformed id is treated as a missing one, and a cast error is not modelled.
  - `runValidators` and schema strictness, which drop unknown fields such as a note's `priority`.
  - Schema defaults: stored user flags that rely on them are `Option` values.
  - The aggregation engine: the pipelines are sequence functions.
- UserService.GetUsersByInterests: `$group` output order is unspecified in MongoDB; the model keeps groups in order of first appearance and proves nothing that depends on that order.
- UserService.UserStore.UpdateUser: the password in a patch is stored as sent, unhashed: `updateUser` does not hash it, and `findByIdAndUpdate` runs no `save` middleware. The user model file, where a query hook could still hash it, is not part of this model. The update body schema is not part of this model either; the patch may carry any field of a user other than its id.
- UserService.UserStore.CreateUser: a registration body without an email or a password is not modelled. `POST /register` runs no validation, and without a password `bcryptjs.hash` rejects, so no user is created; the model's payload always carries both.
- bcrypt hashing and JWT signing and verification are uninterpreted parameters. So is the network call behind the feed's submission.
- Express plumbing:
  - controllers, `sendResponse` envelopes, cookie handling, app setup and route mounting;
  - the `validateRequest` middleware (only its schemas are modelled);
  - case-insensitive and trailing-slash path matching (the dispatch model matches segments exactly).
- zod's default messages for type and enum errors are reduced to issue codes; only the schemas' own "is required" messages are kept verbatim.
- CommunityFeed: React rendering, loading state, the edit modal and the post list are not modelled. A post whose populated author is null crashes the list rendering before the Edit/Delete check; that is not modelled. `handleUpdatePost` is not modelled, since no router serves `PATCH /posts/:id`. `handleDeletePost`, with its `window.confirm` prompt and the delete request, is not modelled; the server's delete guard is.
- Register: the rest of the form and the `register` call are not modelled; only the interests parsing is.
