/** The create form of src/newchat/newChatter.jsx: its three state fields,
    the category fetch, the validation of the draft, the request body it
    sends and the post it hands to the feed once the server has given it an
    `_id`. */
module NewChatter {
  import opened Entities

  // ---------------------------------------------------------------------------
  // String.prototype.trim

  /** The code points `trim` strips: WhiteSpace (section 12.2 of ECMA-262:
      TAB, VT, FF, ZWNBSP and every space separator) and LineTerminator
      (section 12.3: LF, CR, LS, PS). */
  predicate IsWhitespace(c: char)
  {
    c in {'\t', '\n', '\U{B}', '\U{C}', '\r', ' ', '\U{A0}', '\U{1680}',
          '\U{2000}', '\U{2001}', '\U{2002}', '\U{2003}', '\U{2004}', '\U{2005}',
          '\U{2006}', '\U{2007}', '\U{2008}', '\U{2009}', '\U{200A}',
          '\U{2028}', '\U{2029}', '\U{202F}', '\U{205F}', '\U{3000}', '\U{FEFF}'}
  }

  /** The string holds at least one character `trim` keeps. */
  ghost predicate HasText(s: string)
  {
    exists i :: 0 <= i < |s| && !IsWhitespace(s[i])
  }

  /** `s` without its leading whitespace: a suffix of `s` that starts with a
      kept character, everything before it being whitespace. */
  function TrimStart(s: string): (r: string)
    ensures |r| <= |s| && r == s[|s| - |r|..]
    ensures r != [] ==> !IsWhitespace(r[0])
    ensures forall i :: 0 <= i < |s| - |r| ==> IsWhitespace(s[i])
  {
    if s != [] && IsWhitespace(s[0]) then TrimStart(s[1..]) else s
  }

  /** `s` without its trailing whitespace: a prefix of `s` that ends with a
      kept character, everything after it being whitespace. */
  function TrimEnd(s: string): (r: string)
    ensures |r| <= |s| && r == s[..|r|]
    ensures r != [] ==> !IsWhitespace(r[|r| - 1])
    ensures forall i :: |r| <= i < |s| ==> IsWhitespace(s[i])
  {
    if s != [] && IsWhitespace(s[|s| - 1]) then TrimEnd(s[..|s| - 1]) else s
  }

  /** `s.trim()`: the slice `s[a..b]` left once the whitespace before `a`
      and from `b` on is removed; when anything is left it starts and ends
      with a character that is not whitespace. */
  function Trim(s: string): (r: string)
    ensures exists a, b ::
              && 0 <= a <= b <= |s| && r == s[a..b]
              && (forall i :: 0 <= i < a ==> IsWhitespace(s[i]))
              && (forall i :: b <= i < |s| ==> IsWhitespace(s[i]))
    ensures r != [] ==> !IsWhitespace(r[0]) && !IsWhitespace(r[|r| - 1])
  {
    TrimSlice(s, |s| - |TrimStart(s)|);
    TrimEnd(TrimStart(s))
  }

  /** Stripping both ends leaves `s[a..a + |r|]`, where `a` is the length of
      the leading whitespace; everything after the slice is whitespace. */
  lemma TrimSlice(s: string, a: nat)
    requires a == |s| - |TrimStart(s)|
    ensures a + |TrimEnd(TrimStart(s))| <= |s|
    ensures TrimEnd(TrimStart(s)) == s[a..a + |TrimEnd(TrimStart(s))|]
    ensures forall i :: a + |TrimEnd(TrimStart(s))| <= i < |s| ==> IsWhitespace(s[i])
  {
    var t := TrimStart(s);
    var r := TrimEnd(t);
    assert t == s[a..];
    forall i | a + |r| <= i < |s|
      ensures IsWhitespace(s[i])
    {
      assert s[i] == t[i - a];
    }
  }

  /** `s.trim() !== ''` holds exactly when `s` has a character that is not
      whitespace. */
  lemma TrimNonEmptyIffText(s: string)
    ensures Trim(s) != "" <==> HasText(s)
  {
  }

  // ---------------------------------------------------------------------------
  // The request body and the post handed to the feed

  /** A category as the category endpoint sends it. */
  datatype Category = Category(id: string, categoryname: string)

  /** The body of the create request: `{}` when validation fails, otherwise
      `{ userinput, categoryId, userId, username }`. */
  datatype Payload =
    | Blank
    | Draft(userinput: string, categoryId: string, userId: string, username: string)

  /** The request body built from the form's fields and the signed-in user.
      It is a draft exactly when both the content and the selected category
      have non-whitespace text; the draft keeps the content as typed, not its
      trimmed form. */
  function BuildPayload(content: string, category: string, ctx: Identity): (p: Payload)
    ensures p.Draft? <==> HasText(content) && HasText(category)
    ensures p.Draft? ==> p == Draft(content, category, ctx.userId, ctx.username)
  {
    TrimNonEmptyIffText(content);
    TrimNonEmptyIffText(category);
    if Trim(content) != "" && Trim(category) != "" then
      Draft(content, category, ctx.userId, ctx.username)
    else
      Blank
  }

  /** The fields of a feed entry that came from a request body, `_id` aside. */
  function PayloadOf(post: Post): Payload
  {
    match (post.userinput, post.categoryId, post.userId, post.username)
    case (Some(text), Some(cat), UserKey(uid), Some(name)) => Draft(text, cat, uid, name)
    case _ => Blank
  }

  /** The request body with the server's `_id` added (`newChatter._id = data._id`):
      it carries the given `_id`, every field of the body, and no comment list.
      From the empty body `{}` it is `{ _id }` and nothing else. */
  function WithId(p: Payload, id: string): (post: Post)
    ensures post.id == id && PayloadOf(post) == p
    ensures post.commentId == None
    ensures p.Blank? ==>
      post.userinput == None && post.userId == Missing && post.username == None && post.categoryId == None
  {
    match p
    case Blank => Post(id, None, Missing, None, None, None)
    case Draft(text, cat, uid, name) => Post(id, Some(text), UserKey(uid), Some(name), None, Some(cat))
  }

  // ---------------------------------------------------------------------------
  // The category select

  /** One `<option>` of the category select. */
  datatype Choice = Choice(value: string, caption: string)

  /** The options of the select, one per category. */
  function Choices(cats: seq<Category>): (r: seq<Choice>)
    ensures |r| == |cats|
  {
    if cats == [] then [] else [Choice(cats[0].id, cats[0].categoryname)] + Choices(cats[1..])
  }

  /** The select, when it is rendered at all: only when there is a category,
      and then with one option per category. */
  function CategorySelect(cats: seq<Category>): (r: Option<seq<Choice>>)
    ensures r.Some? <==> |cats| > 0
    ensures r.Some? ==> |r.value| == |cats|
  {
    if |cats| > 0 then Some(Choices(cats)) else None
  }

  /** The select appears exactly when there is a category, and then offers
      every category, in order, by its `_id` and its name. */
  lemma {:induction false} CategorySelectLists(cats: seq<Category>)
    ensures CategorySelect(cats).Some? <==> cats != []
    ensures CategorySelect(cats).Some? ==>
      forall i :: 0 <= i < |cats| ==>
        CategorySelect(cats).value[i] == Choice(cats[i].id, cats[i].categoryname)
  {
    if cats != [] {
      CategorySelectLists(cats[1..]);
      if |cats| > 1 {
        assert CategorySelect(cats[1..]).value == Choices(cats[1..]);
      }
      forall i | 0 <= i < |cats|
        ensures Choices(cats)[i] == Choice(cats[i].id, cats[i].categoryname)
      {
        if i > 0 {
          assert Choices(cats)[i] == Choices(cats[1..])[i - 1];
        }
      }
    }
  }

  // ---------------------------------------------------------------------------
  // The form component

  /** One mounted create form. */
  class Form {
    var newContent: string
    var selectedCategory: string
    var categories: seq<Category>

    /** Mounting starts with an empty input, no category chosen and no
        categories loaded. */
    constructor ()
      ensures newContent == "" && selectedCategory == "" && categories == []
    {
      newContent := "";
      selectedCategory := "";
      categories := [];
    }

    /** `fetchCategories`: a successful fetch installs the received list, any
        failure keeps the current one. */
    method LoadCategories(response: Response<seq<Category>>)
      modifies this`categories
      ensures categories == if response.Ok? then response.data else old(categories)
    {
      if response.Ok? {
        categories := response.data;
      }
    }

    /** The input's `onChange`. */
    method SetContent(text: string)
      modifies this`newContent
      ensures newContent == text
    {
      newContent := text;
    }

    /** The select's `onChange`: the value is one of the offered options. */
    method SelectCategory(id: string)
      requires exists i :: 0 <= i < |categories| && categories[i].id == id
      modifies this`selectedCategory
      ensures selectedCategory == id
    {
      selectedCategory := id;
    }

    /** `handleNewChatter`: the request goes out whatever the validation said,
        with `{}` when it failed. Only a successful response forwards a post,
        the body with the returned `_id`, and clears the input; a failure
        forwards nothing and keeps the input. */
    method Submit(ctx: Identity, response: Response<string>) returns (sent: Payload, forwarded: Option<Post>)
      modifies this`newContent
      ensures sent == BuildPayload(old(newContent), selectedCategory, ctx)
      ensures response.Ok? ==> forwarded == Some(WithId(sent, response.data)) && newContent == ""
      ensures !response.Ok? ==> forwarded == None && newContent == old(newContent)
    {
      var newChatter := Blank;
      if Trim(newContent) != "" && Trim(selectedCategory) != "" {
        newChatter := Draft(newContent, selectedCategory, ctx.userId, ctx.username);
      }
      sent := newChatter;
      match response
      case Ok(id) =>
        forwarded := Some(WithId(newChatter, id));
        newContent := "";
      case _ =>
        forwarded := None;
    }
  }
}
