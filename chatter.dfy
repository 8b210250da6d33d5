/** The feed component of src/chatter.jsx: its four state fields and the
    handlers that overwrite them. Each asynchronous step (a poll, a create)
    is one atomic transition that receives the outcome of its HTTP call as a
    parameter. */
module Chatter {
  import opened Entities
  import opened FeedList
  import opened ChatterView
  import opened NewChatter

  class ChatterPage {
    /** The posts on display, in display order. */
    var chatters: seq<Post>
    /** Whether the create form is mounted. */
    var showNewChat: bool
    /** The post whose edit dialog is open. */
    var editChatter: Option<Post>
    /** The post whose delete dialog is open. */
    var deleteChatter: Option<Post>

    /** Mounting: no posts yet, no form, no dialog. */
    constructor ()
      ensures chatters == [] && !showNewChat && editChatter == None && deleteChatter == None
    {
      chatters := [];
      showNewChat := false;
      editChatter := None;
      deleteChatter := None;
    }

    /** `fetchChatter`: a successful poll replaces the whole list by the
        received one, whatever it held; a status that is not ok or a call
        that throws leaves it as it was. */
    method Refresh(response: Response<seq<Post>>)
      modifies this`chatters
      ensures chatters == if response.Ok? then response.data else old(chatters)
    {
      match response
      case Ok(content) =>
        chatters := content;
      case _ =>
    }

    /** The "New Chatter" button's click. */
    method OpenNewChat()
      modifies this`showNewChat
      ensures showNewChat
    {
      showNewChat := true;
    }

    /** The create form's Cancel. */
    method CancelNewChat()
      modifies this`showNewChat
      ensures !showNewChat
    {
      showNewChat := false;
    }

    /** `handleNewChatter`: the new post goes after every existing one, and
        the create form closes. */
    method HandleNewChatter(newChatter: Post)
      modifies this`chatters, this`showNewChat
      ensures chatters == old(chatters) + [newChatter]
      ensures !showNewChat
    {
      chatters := chatters + [newChatter];
      showNewChat := false;
    }

    /** `handleEditChatter`: opens the edit dialog on a post. */
    method HandleEditChatter(chatter: Post)
      modifies this`editChatter
      ensures editChatter == Some(chatter)
    {
      editChatter := Some(chatter);
    }

    /** The edit dialog's Cancel. */
    method CancelEdit()
      modifies this`editChatter
      ensures editChatter == None
    {
      editChatter := None;
    }

    /** `handleUpdateChatter`: every entry with the updated post's `_id`
        becomes the updated post, the others stay, and the dialog closes. */
    method HandleUpdateChatter(updatedChatter: Post)
      modifies this`chatters, this`editChatter
      ensures chatters == ReplaceById(old(chatters), updatedChatter)
      ensures editChatter == None
    {
      chatters := ReplaceById(chatters, updatedChatter);
      editChatter := None;
    }

    /** The Delete button's click: opens the delete dialog on a post. */
    method SelectDelete(chatter: Post)
      modifies this`deleteChatter
      ensures deleteChatter == Some(chatter)
    {
      deleteChatter := Some(chatter);
    }

    /** The delete dialog's Cancel. */
    method CancelDelete()
      modifies this`deleteChatter
      ensures deleteChatter == None
    {
      deleteChatter := None;
    }

    /** `handleDeleteChatter`: every entry with the id goes, the others keep
        their order, and the dialog closes. */
    method HandleDeleteChatter(chatterId: string)
      modifies this`chatters, this`deleteChatter
      ensures chatters == RemoveById(old(chatters), chatterId)
      ensures deleteChatter == None
    {
      chatters := RemoveById(chatters, chatterId);
      deleteChatter := None;
    }

    /** A create from the mounted form: the form sends its request; on
        success the feed gets the body with the server's `_id` at its end,
        the form closes and its input is cleared; on failure neither the feed,
        the form's visibility nor its input change. */
    method CreateChatter(form: Form, ctx: Identity, response: Response<string>) returns (sent: Payload)
      modifies this`chatters, this`showNewChat, form`newContent
      ensures sent == BuildPayload(old(form.newContent), form.selectedCategory, ctx)
      ensures response.Ok? ==>
        chatters == old(chatters) + [WithId(sent, response.data)] && !showNewChat && form.newContent == ""
      ensures !response.Ok? ==>
        chatters == old(chatters) && showNewChat == old(showNewChat) && form.newContent == old(form.newContent)
    {
      var forwarded;
      sent, forwarded := form.Submit(ctx, response);
      if forwarded.Some? {
        HandleNewChatter(forwarded.value);
      }
    }
  }

  /** A post appended by a successful create has no comment list, so with
      line 101 as written the next render of the feed throws. */
  lemma CreatedPostBreaksPage(s: seq<Post>, sent: Payload, id: string, ctx: Identity)
    ensures RenderPage(s + [WithId(sent, id)], ctx, AsWritten) == Throws
  {
    NullCommentsBreakPage(s + [WithId(sent, id)], ctx, |s|);
  }

  /** A create whose validation failed still forwards a post, `{ _id }`, on
      success; it has no `userId`, so reading its author throws and the page
      cannot render even with the null-safe comment test. */
  lemma BlankPostBreaksPage(s: seq<Post>, id: string, ctx: Identity)
    ensures RenderPage(s + [WithId(Blank, id)], ctx, NullSafe) == Throws
  {
    NullSafePageRenders(s + [WithId(Blank, id)], ctx);
    assert (s + [WithId(Blank, id)])[|s|].userId == Missing;
  }

  /** With the null-safe comment test, a post created from a valid draft
      shows its text as typed, an empty author line, the no-comments message
      and no Edit/Delete buttons, even for its own author. */
  lemma CreatedPostView(sent: Payload, id: string, ctx: Identity)
    requires sent.Draft?
    ensures RenderPost(WithId(sent, id), ctx, NullSafe) == Shown(PostView(sent.userinput, "", Placeholder, false))
  {
  }
}
