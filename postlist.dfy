/**
 * The post list with its details dialog (src/app/postlist/postlist.component.ts):
 * opening a post shows its header and comments and restores the comment draft
 * kept for it, closing the dialog keeps the draft, and the comment button sends a
 * comment of at most 282 characters.
 */
module Postlist {
  import opened Wrappers
  import opened Strings
  import opened Dtos
  import opened Http
  import opened Utils
  import opened Content

  const CommentsLoadError := "An error occured while loading the comments, please try again later!"
  const CommentError := "An error occured while adding your comment, please try again later!"
  const MaxCommentLength := 282

  /** The text before the date: "{displayName} (@{username})" with a display name, "@{username}" without. */
  function AuthorLabel(author: Author): string {
    if author.displayName.Some? && author.displayName.value != "" then
      author.displayName.value + " (@" + author.username + ")"
    else
      "@" + author.username
  }

  /** The dialog header: the author label, " | ", and the date as the date pipe formats it. */
  function Header(author: Author, formattedDate: string): (header: string)
    ensures |header| >= |author.username| + 4
    ensures |formattedDate| <= |header| && header[|header| - |formattedDate|..] == formattedDate
  {
    AuthorLabel(author) + " | " + formattedDate
  }

  /**
   * The label names its author: the username is what follows the one "@", closed by
   * ")" after a display name, which is what precedes " (".
   */
  lemma AuthorLabelReadsBack(author: Author)
    requires '@' !in author.username
    requires author.displayName.Some? ==> '@' !in author.displayName.value
    ensures author.displayName.Some? && author.displayName.value != "" ==>
              Split(AuthorLabel(author), '@') == [author.displayName.value + " (", author.username + ")"]
    ensures !(author.displayName.Some? && author.displayName.value != "") ==>
              Split(AuthorLabel(author), '@') == ["", author.username]
  {
    var text := AuthorLabel(author);
    if author.displayName.Some? && author.displayName.value != "" {
      var name := author.displayName.value;
      assert text == (name + " (") + ['@'] + (author.username + ")");
      SplitAround(name + " (", '@', author.username + ")");
      SplitWithout(author.username + ")", '@');
    } else {
      assert text == [] + ['@'] + author.username;
      SplitAround([], '@', author.username);
      SplitWithout(author.username, '@');
    }
  }

  /** The header splits at its one "|" into the author label and the formatted date. */
  lemma HeaderReadsBack(author: Author, formattedDate: string)
    requires '|' !in author.username
    requires author.displayName.Some? ==> '|' !in author.displayName.value
    requires '|' !in formattedDate
    ensures Split(Header(author, formattedDate), '|') == [AuthorLabel(author) + " ", " " + formattedDate]
  {
    var text := AuthorLabel(author);
    assert '|' !in text + " ";
    assert Header(author, formattedDate) == (text + " ") + ['|'] + (" " + formattedDate);
    SplitAround(text + " ", '|', " " + formattedDate);
    SplitWithout(" " + formattedDate, '|');
  }

  /** PostDetails, the content of the dialog. Its comments are loaded afterwards. */
  datatype PostDetails = PostDetails(header: string, content: string, comments: Option<seq<Comment>>, post: Post)

  /** `commentText.valid`: the only validator is a maximum `length` of 282, counted in UTF-16 code units. */
  predicate CommentValid(text: Option<string>) {
    text.None? || Utf16Length(text.value) <= MaxCommentLength
  }

  /**
   * The limit is 282 characters of the Basic Multilingual Plane but only 141 characters
   * from beyond it, such as emoji, which take two code units each.
   */
  lemma CommentLimit(s: string)
    ensures (forall i :: 0 <= i < |s| ==> (s[i] as int) < 0x10000) ==> (CommentValid(Some(s)) <==> |s| <= 282)
    ensures (forall i :: 0 <= i < |s| ==> (s[i] as int) >= 0x10000) ==> (CommentValid(Some(s)) <==> |s| <= 141)
  {
    if forall i :: 0 <= i < |s| ==> (s[i] as int) < 0x10000 {
      Utf16LengthBmp(s);
    }
    if forall i :: 0 <= i < |s| ==> (s[i] as int) >= 0x10000 {
      Utf16LengthAstral(s);
    }
  }

  class PostlistComponent {
    var postDetailsVisible: bool
    var postDetails: Option<PostDetails>
    /** The value of the comment input; `None` is null or undefined. */
    var commentText: Option<string>
    /** Comment drafts by post id. */
    var savedCommentTexts: map<int, string>
    const messageService: MessageService
    ghost var requests: seq<Call>

    constructor (messageService: MessageService)
      ensures this.messageService == messageService
      ensures !postDetailsVisible && postDetails == None && commentText == Some("")
      ensures savedCommentTexts == map[] && requests == []
    {
      this.messageService := messageService;
      postDetailsVisible := false;
      postDetails := None;
      commentText := Some("");
      savedCommentTexts := map[];
      requests := [];
    }

    /** showPostDetails: builds the details, restores the draft (undefined if none), shows the dialog, loads comments. */
    method ShowPostDetails(post: Post, formattedDate: string)
      modifies this
      ensures postDetails == Some(PostDetails(Header(post.author, formattedDate), post.content, None, post))
      ensures commentText == (if post.id in savedCommentTexts then Some(savedCommentTexts[post.id]) else None)
      ensures postDetailsVisible
      ensures requests == old(requests) + [CommentsForPost(post.id)]
      ensures savedCommentTexts == old(savedCommentTexts)
    {
      postDetails := Some(PostDetails(Header(post.author, formattedDate), post.content, None, post));
      commentText := if post.id in savedCommentTexts then Some(savedCommentTexts[post.id]) else None;
      postDetailsVisible := true;
      LoadComments(post.id);
    }

    /** loadComments, first half. */
    method LoadComments(postId: int)
      modifies this
      ensures requests == old(requests) + [CommentsForPost(postId)]
      ensures postDetails == old(postDetails) && commentText == old(commentText)
      ensures postDetailsVisible == old(postDetailsVisible) && savedCommentTexts == old(savedCommentTexts)
    {
      requests := requests + [CommentsForPost(postId)];
    }

    /** loadComments, second half: the comments replace those of whatever details are open now. */
    method OnCommentsLoaded(res: Response<seq<Comment>>)
      modifies this, messageService
      ensures res.Ok? && old(postDetails).Some? ==>
                postDetails == Some(old(postDetails).value.(comments := Some(res.value)))
      ensures res.Ok? ==> messageService.messages == old(messageService.messages)
      ensures res.Ok? && old(postDetails).None? ==> postDetails == None
      ensures res.Err? ==> postDetails == old(postDetails)
      ensures res.Err? ==> messageService.messages == old(messageService.messages) + [GeneralError(CommentsLoadError)]
      ensures commentText == old(commentText) && requests == old(requests)
      ensures postDetailsVisible == old(postDetailsVisible) && savedCommentTexts == old(savedCommentTexts)
    {
      match res
      case Err(_) => ShowGeneralError(messageService, CommentsLoadError);
      case Ok(comments) =>
        if postDetails.Some? {
          postDetails := Some(postDetails.value.(comments := Some(comments)));
        }
    }

    /** postDetailsHide: the draft (or "" for null) is kept under the open post's id; other drafts stay. */
    method PostDetailsHide()
      modifies this
      ensures old(postDetails).Some? ==>
                savedCommentTexts == old(savedCommentTexts)[old(postDetails).value.post.id := old(commentText).GetOr("")]
      ensures old(postDetails).None? ==> savedCommentTexts == old(savedCommentTexts)
      ensures postDetails == old(postDetails) && commentText == old(commentText)
      ensures postDetailsVisible == old(postDetailsVisible) && requests == old(requests)
    {
      if postDetails.Some? {
        savedCommentTexts := savedCommentTexts[postDetails.value.post.id := commentText.GetOr("")];
      }
    }

    /** The user confirmed discarding the comment. */
    method OnDiscardAccepted()
      modifies this
      ensures commentText == Some("")
      ensures postDetails == old(postDetails) && savedCommentTexts == old(savedCommentTexts)
      ensures postDetailsVisible == old(postDetailsVisible) && requests == old(requests)
    {
      commentText := Some("");
    }

    /** comment: sends the text only with details open and a valid, non-empty text. */
    method Comment()
      modifies this
      ensures postDetails.Some? && CommentValid(commentText) && commentText.Some? && commentText.value != "" ==>
                requests == old(requests) + [CreateComment(postDetails.value.post.id, commentText.value)]
      ensures !(postDetails.Some? && CommentValid(commentText) && commentText.Some? && commentText.value != "") ==>
                requests == old(requests)
      ensures postDetails == old(postDetails) && commentText == old(commentText)
      ensures postDetailsVisible == old(postDetailsVisible) && savedCommentTexts == old(savedCommentTexts)
    {
      if postDetails.None? {
        return;
      }
      if !CommentValid(commentText) {
        return;
      }
      if commentText.None? || commentText.value == "" {
        return;
      }
      requests := requests + [CreateComment(postDetails.value.post.id, commentText.value)];
    }

    /** The comment was added: the input is cleared and the comments reloaded; a failure keeps the text. */
    method OnCommentCreated(res: Response<Comment>)
      modifies this, messageService
      ensures res.Ok? ==> commentText == Some("") && messageService.messages == old(messageService.messages)
      ensures res.Ok? && postDetails.Some? ==> requests == old(requests) + [CommentsForPost(postDetails.value.post.id)]
      ensures res.Ok? && postDetails.None? ==> requests == old(requests)
      ensures res.Err? ==> commentText == old(commentText) && requests == old(requests)
      ensures res.Err? ==> messageService.messages == old(messageService.messages) + [GeneralError(CommentError)]
      ensures postDetails == old(postDetails)
      ensures postDetailsVisible == old(postDetailsVisible) && savedCommentTexts == old(savedCommentTexts)
    {
      match res
      case Err(_) => ShowGeneralError(messageService, CommentError);
      case Ok(_) =>
        commentText := Some("");
        if postDetails.Some? {
          LoadComments(postDetails.value.post.id);
        }
    }
  }

  /** A draft survives closing one post, opening another and coming back. */
  method DraftScenario(ms: MessageService, a: Post, b: Post, date: string)
    requires a.id != b.id
  {
    var list := new PostlistComponent(ms);
    list.ShowPostDetails(a, date);
    assert list.commentText == None;
    list.commentText := Some("half a thought");
    list.PostDetailsHide();
    list.ShowPostDetails(b, date);
    list.PostDetailsHide();
    assert list.savedCommentTexts[b.id] == "";
    list.ShowPostDetails(a, date);
    assert list.commentText == Some("half a thought");
  }
}
