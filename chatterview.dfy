/** What the feed page of src/chatter.jsx shows for a given `chatters` list
    and user context: whether the "New Chatter" button is offered and, for
    each post, its text, its author line, its comment block and whether the
    Edit/Delete buttons appear. Reading a field of `undefined` throws a
    TypeError during rendering; the model records that as `Throws`, which
    takes the whole page down. */
module ChatterView {
  import opened Entities

  /** The outcome of evaluating a piece of the page. */
  datatype Rendered<T> = Shown(view: T) | Throws

  /** One `@{author}: {text}` comment line. */
  datatype CommentLine = CommentLine(author: string, text: string)

  /** Either the "No comments, Login or register ..." message or the lines. */
  datatype CommentBlock = Placeholder | Lines(lines: seq<CommentLine>)

  datatype PostView = PostView(body: string, byLine: string, comments: CommentBlock, controls: bool)

  datatype PageView = PageView(newChatterButton: bool, posts: seq<PostView>)

  /** Which comment test the page applies: the one written at line 101, which
      reads `commentId.length` before comparing with `null`, or the null-safe
      one the author evidently meant. */
  datatype CommentRule = AsWritten | NullSafe

  /** A missing string renders as nothing. */
  function OrEmpty(s: Option<string>): string
  {
    if s.Some? then s.value else ""
  }

  // ---------------------------------------------------------------------------
  // Edit/Delete controls

  /** `chatter.userId.username`: throws when the post has no `userId`, is
      undefined when `userId` is a bare key, and is the author's name for a
      post from the list endpoint. */
  function AuthorName(p: Post): (r: Rendered<Option<string>>)
    ensures r == Throws <==> p.userId == Missing
    ensures r.Shown? && r.view.Some? <==> p.userId.Author?
    ensures p.userId.Author? ==> r == Shown(Some(p.userId.username))
  {
    match p.userId
    case Missing => Throws
    case UserKey(_) => Shown(None)
    case Author(name) => Shown(Some(name))
  }

  /** `chatter.userId.username === ctx.username`. The buttons appear exactly
      for the posts whose author object names the current username; the login
      flag plays no part, and a post that carries only a bare user key never
      gets them. */
  function CanEdit(p: Post, username: string): (r: Rendered<bool>)
    ensures r == Throws <==> p.userId == Missing
    ensures r == Shown(true) <==> p.userId == Author(username)
  {
    match AuthorName(p)
    case Throws => Throws
    case Shown(name) => Shown(name == Some(username))
  }

  // ---------------------------------------------------------------------------
  // Comments

  /** `commentId.map(...)`: one line per comment. */
  function CommentLines(cs: seq<Comment>): (ls: seq<CommentLine>)
    ensures |ls| == |cs|
  {
    if cs == [] then [] else [CommentLine(cs[0].author, cs[0].comments)] + CommentLines(cs[1..])
  }

  /** The `i`-th line shows the `i`-th comment's author and text. */
  lemma {:induction false} CommentLinesAt(cs: seq<Comment>, i: nat)
    requires i < |cs|
    ensures CommentLines(cs)[i] == CommentLine(cs[i].author, cs[i].comments)
  {
    if i > 0 {
      CommentLinesAt(cs[1..], i - 1);
    }
  }

  /** The null-safe comment block: a null, absent or empty comment list shows
      the message; otherwise one line per comment. */
  function CommentBlockOf(c: Option<seq<Comment>>): (b: CommentBlock)
    ensures b == Placeholder <==> c == None || c == Some([])
    ensures b.Lines? ==> |b.lines| == |c.value|
  {
    if c == None || |c.value| == 0 then Placeholder else Lines(CommentLines(c.value))
  }

  /** Line 101 as written: `commentId.length === 0 || commentId === null`. The
      length is read first, so a null or absent list throws; wherever it does
      not throw it agrees with the null-safe block. */
  function CommentBlockAsWritten(c: Option<seq<Comment>>): (r: Rendered<CommentBlock>)
    ensures r == Throws <==> c == None
    ensures r.Shown? ==> r.view == CommentBlockOf(c)
  {
    match c
    case None => Throws
    case Some(cs) => Shown(if |cs| == 0 then Placeholder else Lines(CommentLines(cs)))
  }

  function CommentBlockBy(rule: CommentRule, c: Option<seq<Comment>>): Rendered<CommentBlock>
  {
    if rule == AsWritten then CommentBlockAsWritten(c) else Shown(CommentBlockOf(c))
  }

  // ---------------------------------------------------------------------------
  // Posts and the page

  /** One post container: text, author line, comment block, controls. It
      throws exactly when the post has no `userId`, or, under the line-101
      test as written, no comment list; otherwise it shows the text, the
      author's name (nothing for a bare user key), the null-safe comment
      block and the buttons exactly for the post's author. */
  function RenderPost(p: Post, ctx: Identity, rule: CommentRule): (r: Rendered<PostView>)
    ensures r.Shown? <==> p.userId != Missing && (rule == NullSafe || p.commentId != None)
    ensures r.Shown? ==>
      r.view.body == OrEmpty(p.userinput) &&
      r.view.byLine == (if p.userId.Author? then p.userId.username else "") &&
      r.view.comments == CommentBlockOf(p.commentId) &&
      (r.view.controls <==> p.userId == Author(ctx.username))
  {
    match (AuthorName(p), CommentBlockBy(rule, p.commentId), CanEdit(p, ctx.username))
    case (Shown(name), Shown(block), Shown(controls)) =>
      Shown(PostView(OrEmpty(p.userinput), OrEmpty(name), block, controls))
    case _ => Throws
  }

  /** `chatters.map(...)`: one container per post, or a throw if any post throws. */
  function RenderPosts(s: seq<Post>, ctx: Identity, rule: CommentRule): (r: Rendered<seq<PostView>>)
    ensures r.Shown? ==> |r.view| == |s|
  {
    if s == [] then Shown([])
    else match (RenderPost(s[0], ctx, rule), RenderPosts(s[1..], ctx, rule))
      case (Shown(v), Shown(vs)) => Shown([v] + vs)
      case _ => Throws
  }

  /** The whole page: the "New Chatter" button when logged in, then the posts
      in list order. */
  function RenderPage(s: seq<Post>, ctx: Identity, rule: CommentRule): (r: Rendered<PageView>)
    ensures r.Shown? ==> r.view.newChatterButton == ctx.isLoggedIn
  {
    match RenderPosts(s, ctx, rule)
    case Shown(vs) => Shown(PageView(ctx.isLoggedIn, vs))
    case Throws => Throws
  }

  /** The post list renders exactly when every post does, and then the `i`-th
      container is the `i`-th post's. */
  lemma {:induction false} RenderPostsShape(s: seq<Post>, ctx: Identity, rule: CommentRule)
    ensures RenderPosts(s, ctx, rule).Shown? <==>
      forall i :: 0 <= i < |s| ==> RenderPost(s[i], ctx, rule).Shown?
    ensures RenderPosts(s, ctx, rule).Shown? ==>
      |RenderPosts(s, ctx, rule).view| == |s| &&
      forall i :: 0 <= i < |s| ==> RenderPosts(s, ctx, rule).view[i] == RenderPost(s[i], ctx, rule).view
  {
    if s != [] {
      RenderPostsShape(s[1..], ctx, rule);
      assert forall i :: 1 <= i < |s| ==> s[i] == s[1..][i - 1];
    }
  }

  /** Edit/Delete appear on a rendered post exactly when its author object
      names the current user, whether or not the user is logged in. */
  lemma ControlsIffAuthor(p: Post, ctx: Identity, rule: CommentRule)
    requires RenderPost(p, ctx, rule).Shown?
    ensures RenderPost(p, ctx, rule).view.controls <==> p.userId == Author(ctx.username)
    ensures RenderPost(p, ctx.(isLoggedIn := !ctx.isLoggedIn), rule) == RenderPost(p, ctx, rule)
  {
  }

  /** A rendered post with a non-empty comment list shows exactly one line
      per comment, in list order; an empty or missing list shows the message. */
  lemma CommentsShown(p: Post, ctx: Identity, rule: CommentRule)
    requires RenderPost(p, ctx, rule).Shown?
    ensures RenderPost(p, ctx, rule).view.comments == Placeholder <==>
      p.commentId == None || p.commentId == Some([])
    ensures RenderPost(p, ctx, rule).view.comments.Lines? ==>
      var cs := p.commentId.value;
      var ls := RenderPost(p, ctx, rule).view.comments.lines;
      |ls| == |cs| && forall i :: 0 <= i < |cs| ==> ls[i] == CommentLine(cs[i].author, cs[i].comments)
  {
    if p.commentId.Some? {
      forall i | 0 <= i < |p.commentId.value| {
        CommentLinesAt(p.commentId.value, i);
      }
    }
  }

  /** Line 101 as written: one post whose comment list is null or absent
      makes the whole page throw. */
  lemma NullCommentsBreakPage(s: seq<Post>, ctx: Identity, i: nat)
    requires i < |s| && s[i].commentId == None
    ensures RenderPage(s, ctx, AsWritten) == Throws
  {
    RenderPostsShape(s, ctx, AsWritten);
  }

  /** With the null-safe test the comment lists never stop the page: it
      renders exactly when every post has a `userId` field. */
  lemma NullSafePageRenders(s: seq<Post>, ctx: Identity)
    ensures RenderPage(s, ctx, NullSafe).Shown? <==> forall i :: 0 <= i < |s| ==> s[i].userId != Missing
  {
    RenderPostsShape(s, ctx, NullSafe);
  }
}
