/** The values the Chatter client keeps and exchanges: posts ("chatters") with
    their comments, the signed-in identity, and the outcome of one HTTP call as
    the handlers of src/chatter.jsx and src/newchat/newChatter.jsx observe it. */
module Entities {

  datatype Option<T> = None | Some(value: T)

  /** What a handler learns from one `fetch` exchange. `Ok` carries the decoded
      body of a response whose status is ok; `NotOk` is a response whose status
      is not ok (the handler throws and catches its own error); `Threw` is a
      rejected `fetch` or an undecodable body. Every handler treats the last two
      alike: it logs and changes nothing. */
  datatype Response<T> = Ok(data: T) | NotOk | Threw

  /** A comment as the list endpoint sends it: `{ userId: { username }, comments }`. */
  datatype Comment = Comment(author: string, comments: string)

  /** What a post's `userId` field holds. Posts from the list endpoint carry an
      author object `{ username }`; a post built by the create form carries the
      signed-in user's bare id; a post built from an empty draft has no `userId`. */
  datatype UserRef =
    | Missing
    | UserKey(key: string)
    | Author(username: string)

  /** One entry of the `chatters` list. Fields a given entry lacks are `None`;
      `commentId == None` stands for a `null` or absent comment list. The
      top-level `username` is present only on posts built by the create form. */
  datatype Post = Post(
    id: string,
    userinput: Option<string>,
    userId: UserRef,
    username: Option<string>,
    commentId: Option<seq<Comment>>,
    categoryId: Option<string>)

  /** The parts of the user context that the feed and the create form read. */
  datatype Identity = Identity(userId: string, username: string, isLoggedIn: bool)
}
