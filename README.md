# Chatter feed state, modelled in Dafny

Chatter is a React client that shows a feed of posts ("chatters"), each with
its comments. The feed page (`src/chatter.jsx`) keeps the list of posts in
component state. It polls the server every minute and replaces the list by
what the server returns. It appends the post a create produced, replaces a
post after an edit and drops a post after a delete. The create form
(`src/newchat/newChatter.jsx`) validates the draft and sends it. It hands the
post, now carrying the server's `_id`, back to the feed.

The model keeps the two components' state and handlers:

- `entities.dfy` (`Entities`): posts, comments, the user context and the
  outcome of an HTTP call (`Ok(data) | NotOk | Threw`).
- `feedlist.dfy` (`FeedList`): the pure list operations behind update
  (`ReplaceById`, the `map` by `_id`) and delete (`RemoveById`, the `filter`),
  with their properties.
- `chatterview.dfy` (`ChatterView`): what the page shows. This covers the
  "New Chatter" button, each post's author line and comment block, and the
  Edit/Delete buttons. A TypeError raised while rendering is the value
  `Throws`.
- `newchatter.dfy` (`NewChatter`): JavaScript's `trim`, the request body,
  the `_id` attachment, the category select and the form class `Form`.
- `chatter.dfy` (`Chatter`): the feed component as the class `ChatterPage`,
  and the create round trip through a `Form`.

Each asynchronous handler is one atomic step. The HTTP outcome it awaits is a
parameter. A status that is not ok and a thrown exception are the two failure
outcomes, and every handler treats them alike.

The list holds two shapes of post. Posts from the list endpoint carry an
author object (`userId: { username }`) and a comment list. A post appended
after a create is the form's own request body with `_id` added. Its `userId`
is the bare user id, and it has no comment list. When validation failed, the
body was `{}`, so the post has no `userId` either. `Post.userId` (`Missing`,
`UserKey`, `Author`) and `Post.commentId` (`None` for null or absent) record
which shape a post has.

On these points the model follows the code:

- The Edit/Delete test compares usernames only; it does not check
  `isLoggedIn`.
- The create request is sent even when validation fails, with the body `{}`.
- The appended post is the local request body plus `_id`, not a post
  returned by the server.
- A `null` comment list is not tolerated. See Findings.
- No liveness or in-flight check guards a refresh.

## Model

| member | source | states |
|---|---|---|
| `FeedList.ReplaceById` | src/chatter.jsx:62-64 | an update keeps the list's length |
| `FeedList.ReplaceByIdAt` | src/chatter.jsx:61-65 | position by position, the updated post replaces exactly the entries with its `_id`, and every other entry stays in place |
| `FeedList.ReplaceByIdKeepsIds` | src/chatter.jsx:62-64 | an update never changes which `_id` sits at which position |
| `FeedList.ReplaceByIdAbsent` | src/chatter.jsx:62-64 | updating an `_id` that is not in the list leaves the list unchanged |
| `FeedList.ReplaceByIdInstalls` | src/chatter.jsx:62-64 | the updated post is in the list afterwards iff its `_id` was |
| `FeedList.ReplaceByIdIdempotent` | src/chatter.jsx:62-64 | applying the same update twice equals applying it once |
| `FeedList.ReplaceByIdKeepsUnique` | src/chatter.jsx:62-64 | an update keeps `_id`s unique |
| `FeedList.RemoveById` | src/chatter.jsx:71 | a delete never lengthens the list |
| `FeedList.RemoveByIdMembers` | src/chatter.jsx:71 | a post survives a delete iff it was present and has another `_id`, so no entry with the deleted `_id` remains |
| `FeedList.RemoveByIdConcat` | src/chatter.jsx:71 | a delete distributes over concatenation, so survivors keep their relative order |
| `FeedList.RemoveByIdLength` | src/chatter.jsx:71 | the length falls by exactly the number of entries carrying the `_id` |
| `FeedList.RemoveByIdAbsent` | src/chatter.jsx:70-74 | deleting an absent `_id` changes nothing |
| `FeedList.RemoveByIdIdempotent` | src/chatter.jsx:70-74 | deleting the same `_id` twice equals deleting it once |
| `FeedList.RemoveByIdKeepsUnique` | src/chatter.jsx:71 | a delete keeps `_id`s unique |
| `FeedList.RemoveAfterReplace` | src/chatter.jsx:61-74 | editing a post and then deleting it gives the same list as deleting it directly |
| `FeedList.AppendKeepsUnique` | src/chatter.jsx:50 | appending keeps `_id`s unique iff the new `_id` is fresh; the source does not check this |
| `ChatterView.AuthorName` | src/chatter.jsx:96 | `chatter.userId.username` throws iff the post has no `userId`; it is a name iff `userId` is an author object, and then it is that author's name; for a bare user key it is undefined |
| `ChatterView.CanEdit` | src/chatter.jsx:117-122 | Edit/Delete appear iff the post's author object names the context's username; the test throws iff the post has no `userId`; a post carrying only a bare user key never gets the buttons |
| `ChatterView.ControlsIffAuthor` | src/chatter.jsx:117-122 | on a rendered post, the buttons appear iff the author matches the username, and flipping `isLoggedIn` changes nothing |
| `ChatterView.CommentLines` | src/chatter.jsx:104-108 | one comment line per comment |
| `ChatterView.CommentLinesAt` | src/chatter.jsx:104-108 | the i-th line shows the i-th comment's author and text |
| `ChatterView.CommentBlockOf` | src/chatter.jsx:99-109 | null-safe comment block: the placeholder iff the list is null, absent or empty; otherwise one line per comment |
| `ChatterView.CommentBlockAsWritten` | src/chatter.jsx:101 | the line as written throws iff the comment list is null or absent; otherwise it agrees with the null-safe block |
| `ChatterView.CommentsShown` | src/chatter.jsx:100-109 | a rendered post shows the placeholder iff its comment list is missing or empty; otherwise it shows exactly one line per comment, in order |
| `ChatterView.RenderPost` | src/chatter.jsx:93-124 | one post container throws iff the post has no `userId`, or, under line 101 as written, no comment list; otherwise it shows the post's text, the by-line `By: {chatter.userId.username}` (the author's name, or nothing for a bare user key), the null-safe comment block and the buttons iff the author object names the current user |
| `ChatterView.RenderPosts` | src/chatter.jsx:92 | `chatters.map` renders one container per post |
| `ChatterView.RenderPage` | src/chatter.jsx:79-81 | the "New Chatter" button is offered iff the user is logged in |
| `ChatterView.RenderPostsShape` | src/chatter.jsx:92-125 | the post list renders iff every post renders; then it holds one container per post, in list order |
| `ChatterView.NullCommentsBreakPage` | src/chatter.jsx:101 | as written, one post whose comment list is null or absent makes the whole page throw |
| `ChatterView.NullSafePageRenders` | src/chatter.jsx:96-101 | with the null-safe test, the page renders iff every post has a `userId` |
| `NewChatter.TrimStart` | src/newchat/newChatter.jsx:39 | `trim`'s leading part: the result is a suffix that starts with a kept character, and everything dropped is whitespace |
| `NewChatter.TrimEnd` | src/newchat/newChatter.jsx:39 | `trim`'s trailing part: the result is a prefix that ends with a kept character, and everything dropped is whitespace |
| `NewChatter.Trim` | src/newchat/newChatter.jsx:39 | `.trim()` returns a slice `s[a..b]` where everything before `a` and from `b` on is whitespace; a non-empty result starts and ends with a character that is not whitespace |
| `NewChatter.TrimSlice` | src/newchat/newChatter.jsx:39 | stripping both ends leaves the slice that follows the leading whitespace, and everything after that slice is whitespace |
| `NewChatter.TrimNonEmptyIffText` | src/newchat/newChatter.jsx:39 | `s.trim() !== ''` iff `s` has a character that is not whitespace |
| `NewChatter.BuildPayload` | src/newchat/newChatter.jsx:37-46 | the body is a draft iff both the content and the category have non-whitespace text, otherwise `{}`; the draft keeps the untrimmed content, the category and the context's user id and username |
| `NewChatter.WithId` | src/newchat/newChatter.jsx:64-65 | the forwarded post carries the returned `_id` and every field of the body, and has no comment list; from the body `{}` it is `{ _id }` and nothing else |
| `NewChatter.Choices` | src/newchat/newChatter.jsx:90-94 | one option per category |
| `NewChatter.CategorySelect` | src/newchat/newChatter.jsx:88-96 | the select is rendered iff `categories` is non-empty, with one option per category |
| `NewChatter.CategorySelectLists` | src/newchat/newChatter.jsx:88-96 | the select is rendered iff there is a category; it then offers every category, in order, by `_id` and name |
| `NewChatter.Form.constructor` | src/newchat/newChatter.jsx:5-7 | a mounted form starts with empty content, no category chosen and no categories |
| `NewChatter.Form.LoadCategories` | src/newchat/newChatter.jsx:14-35 | a successful fetch installs the received categories; any failure keeps the current ones |
| `NewChatter.Form.SetContent` | src/newchat/newChatter.jsx:85 | the input stores the typed text |
| `NewChatter.Form.SelectCategory` | src/newchat/newChatter.jsx:89 | the select's `change` event stores the `_id` of the option chosen |
| `NewChatter.Form.Submit` | src/newchat/newChatter.jsx:36-76 | the body sent is the validated payload, sent whether or not validation passed. On success, exactly one post is forwarded: the body with the returned `_id`. The input is then cleared. On failure, nothing is forwarded and the input is kept |
| `Chatter.ChatterPage.constructor` | src/chatter.jsx:10-13 | the page starts with no posts, no form and no dialog |
| `Chatter.ChatterPage.Refresh` | src/chatter.jsx:17-37 | a successful poll sets the list to exactly the received content, whatever it held; a not-ok status or a throw leaves the list unchanged |
| `Chatter.ChatterPage.OpenNewChat` | src/chatter.jsx:80 | the button opens the create form |
| `Chatter.ChatterPage.CancelNewChat` | src/chatter.jsx:86 | cancel closes the create form |
| `Chatter.ChatterPage.HandleNewChatter` | src/chatter.jsx:49-53 | the list becomes the old list plus the new post at the end, and the form closes |
| `Chatter.ChatterPage.HandleEditChatter` | src/chatter.jsx:56-58 | the edit dialog opens on the given post |
| `Chatter.ChatterPage.CancelEdit` | src/chatter.jsx:131 | cancel closes the edit dialog |
| `Chatter.ChatterPage.HandleUpdateChatter` | src/chatter.jsx:61-67 | the list becomes the by-`_id` replacement of the old list, and the edit dialog closes |
| `Chatter.ChatterPage.SelectDelete` | src/chatter.jsx:120 | the delete dialog opens on the given post |
| `Chatter.ChatterPage.CancelDelete` | src/chatter.jsx:139 | cancel closes the delete dialog |
| `Chatter.ChatterPage.HandleDeleteChatter` | src/chatter.jsx:70-74 | the list becomes the by-`_id` filter of the old list, and the delete dialog closes |
| `Chatter.ChatterPage.CreateChatter` | src/newchat/newChatter.jsx:59-71 | on success, the list gains exactly the body with the server's `_id` at its end, the form closes and the input clears; on failure, the list, the form's visibility and the input are all unchanged |
| `Chatter.CreatedPostBreaksPage` | src/chatter.jsx:101 | as written, the feed throws on its next render after any successful create |
| `Chatter.BlankPostBreaksPage` | src/chatter.jsx:96 | a successful create from a body that failed validation appends `{ _id }`, which has no `userId`, so the page throws even under the null-safe comment test |
| `Chatter.CreatedPostView` | src/chatter.jsx:92-122 | under the null-safe test, a post created from a valid draft shows its text as typed, an empty author line, the placeholder, and no Edit/Delete buttons |

## Left out

- The HTTP calls, their URLs and JSON decoding. Each handler receives the outcome instead.
- A success body of the wrong shape. `data.content` or `data._id` may be missing; the outcome's payload is typed, so this case is not modelled.
- The 60-second `setInterval` poll, its `clearInterval` on unmount and any "mounted" flag. These are scheduling and lifetime, not data logic.
- Interleaving of in-flight polls and creates. Each handler is modelled as one atomic step on the current list, so no ordering between steps is claimed. The source's create path is worse than that. The `onNewChatter` callback belongs to the render in which Create was clicked, and it spreads that render's `chatters` (src/chatter.jsx:50). If a poll resolves while the POST is in flight, the polled list is overwritten by the old list plus the new post. `Chatter.ChatterPage.CreateChatter` appends to the list current at the time of the response, so it does not capture this stale-closure overwrite. `handleUpdateChatter` (src/chatter.jsx:62) and `handleDeleteChatter` (src/chatter.jsx:71) also read their render's `chatters`. The edit and delete dialogs are not part of this model. If those dialogs await a request before calling back, a poll that resolves in between is overwritten the same way. `HandleUpdateChatter` and `HandleDeleteChatter` act on the list current at the call, so they do not capture this either.
- `console.log` and the timestamp it prints.
- JSX layout, CSS and the React keys of list items.
- A form that was unmounted and later remounted starts again from its constructor state. The model does not tie the form object's lifetime to `showNewChat`. The `setNewContent('')` that runs after the form has been unmounted is modelled as clearing the field.
- The user context, the edit dialog and the delete dialog are not part of this model. They act as callers that supply an identity, an updated post or an id.
- `ctx.username` is taken to be a string. If the context held `undefined` for an anonymous user, a post carrying a bare user key would show the buttons; that case is not modelled.
- The navigation bar is not part of this model.
- `NewChatter.Form.SelectCategory` accepts any offered `_id`, including the first category's. In the source the `<select>` is uncontrolled and has no empty option. The browser shows the first category as chosen while `seletectedCategory` is still `''`. Picking the displayed option fires no `change` event. A user who keeps the first category therefore sends `{}`, and with a single category a valid draft can never be built. The model does not track which option the browser displays, so it does not capture this.
- A comment whose `userId` is null or absent makes src/chatter.jsx:106 throw. `Comment.author` is a plain string, so such a comment cannot be written down.
- `Identity.userId` is a plain string. If the context's `userId` were undefined, `JSON.stringify` would drop it from the request, the appended post would have no `userId`, and src/chatter.jsx:96 would throw. That case cannot be written down.

## Findings

| source | as written | input that shows it | evidently intended | confidence | as-written member | corrected member |
|---|---|---|---|---|---|---|
| src/chatter.jsx:101 | `chatter.commentId.length === 0 \|\| chatter.commentId === null` reads `.length` before testing for `null`, so a null or absent comment list throws a TypeError during render | any post appended by a successful create (its object has no `commentId`), or a listed post with `commentId: null` | a null or absent list shows the "No comments" message, like an empty one (the comment at line 99 says so) | high, not executed | `ChatterView.NullCommentsBreakPage` | `ChatterView.CommentBlockOf` |
