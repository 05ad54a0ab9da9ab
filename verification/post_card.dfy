/**
 * One post card: its comments (loaded newest-first, new ones prepended), the
 * blank-comment check, and which of the Update and Delete buttons it shows.
 */
module PostCard {
  import opened JsValues
  import opened Backend
  import App

  const EmptyCommentText: string := "Comment cannot be empty."
  const AddFailedText: string := "Failed to add comment."
  const AddRejectedText: string := "Failed to add comment. Please try again."

  // ---------------------------------------------------------------------
  // Comment order

  /** `comments.reverse()`. */
  function Reverse<T>(s: seq<T>): (r: seq<T>)
    ensures |r| == |s|
  {
    if s == [] then [] else [s[|s| - 1]] + Reverse(s[..|s| - 1])
  }

  /** Position `k` of the reversed list holds the element `k` places from the end. */
  lemma {:induction false} ReverseAt<T>(s: seq<T>, k: nat)
    requires k < |s|
    ensures Reverse(s)[k] == s[|s| - 1 - k]
  {
    if k > 0 {
      ReverseAt(s[..|s| - 1], k - 1);
    }
  }

  /** Reversing twice restores the backend's order. */
  lemma ReverseInvolutive<T>(s: seq<T>)
    ensures Reverse(Reverse(s)) == s
  {
    forall k | 0 <= k < |s|
      ensures Reverse(Reverse(s))[k] == s[k]
    {
      ReverseAt(Reverse(s), k);
      ReverseAt(s, |s| - 1 - k);
    }
  }

  /** The newest comment (last from the backend) is shown first, the oldest last. */
  lemma NewestFirst(c1: Comment, c2: Comment, c3: Comment)
    ensures Reverse([c1, c2, c3]) == [c3, c2, c1]
  {
    ReverseAt([c1, c2, c3], 0);
    ReverseAt([c1, c2, c3], 1);
    ReverseAt([c1, c2, c3], 2);
  }

  // ---------------------------------------------------------------------
  // Button visibility

  /** Update is shown iff the post's author id equals the user's id (strict equality). */
  predicate ShowsUpdate(post: Post, user: App.User) {
    post.authorId == user.id
  }

  /** Delete is shown to an admin or to the author. */
  predicate ShowsDelete(post: Post, user: App.User) {
    TruthyBool(user.isAdmin) || ShowsUpdate(post, user)
  }

  /** Whoever sees Update also sees Delete, and an admin sees Delete on every post. */
  lemma DeleteCoversUpdate(post: Post, user: App.User)
    ensures ShowsUpdate(post, user) ==> ShowsDelete(post, user)
    ensures TruthyBool(user.isAdmin) ==> ShowsDelete(post, user)
  {
  }

  /** Neither the unresolved nor the anonymous user sees a button on a post with a real author. */
  lemma NoButtonsWithoutIdentity(post: Post)
    requires post.authorId.Val?
    ensures !ShowsUpdate(post, App.Initial) && !ShowsDelete(post, App.Initial)
    ensures !ShowsUpdate(post, App.Anonymous) && !ShowsDelete(post, App.Anonymous)
  {
  }

  /** A non-admin sees Delete exactly where they see Update. */
  lemma NonAdminDeleteIsAuthorship(post: Post, user: App.User)
    requires !TruthyBool(user.isAdmin)
    ensures ShowsDelete(post, user) <==> ShowsUpdate(post, user)
  {
  }

  // ---------------------------------------------------------------------
  // Card state

  /** The outcome of `GET /posts/getComments/:id`. */
  datatype CommentsReply =
    | CommentsRejected                       // network or JSON failure
    | CommentsBody(comments: Js<seq<Comment>>)

  /** The outcome of `POST /posts/addComment/:id`. */
  datatype AddReply =
    | AddRejected                            // network or JSON failure
    | AddStatus(status: int, error: Js<string>)

  /** What the comments section shows. */
  datatype CommentsDisplay = LoadingComments | CommentList(shown: seq<Comment>) | NoComments

  class PostCardState {
    var comments: seq<Comment>
    var newComment: string
    var loading: bool
    var error: string

    constructor ()
      ensures comments == [] && newComment == "" && loading && error == ""
    {
      comments, newComment, loading, error := [], "", true, "";
    }

    /** The comments section: a loading note, the list, or the empty note. */
    function Display(): (d: CommentsDisplay)
      reads this
      ensures d == LoadingComments <==> loading
      ensures d.CommentList? ==> d.shown == comments && comments != []
      ensures d == NoComments <==> !loading && comments == []
    {
      if loading then LoadingComments
      else if |comments| > 0 then CommentList(comments)
      else NoComments
    }

    /** Loading the comments: reversed on success, untouched on failure; loading ends either way. */
    method LoadComments(reply: CommentsReply)
      modifies this`comments, this`loading
      ensures !loading
      ensures reply.CommentsBody? && reply.comments.Val? ==>
                comments == Reverse(reply.comments.v)
      ensures !(reply.CommentsBody? && reply.comments.Val?) ==> comments == old(comments)
    {
      if reply.CommentsBody? && reply.comments.Val? {
        comments := Reverse(reply.comments.v);
      }
      loading := false;
    }

    /** Typing into the comment field. */
    method SetNewComment(value: string)
      modifies this`newComment
      ensures newComment == value
    {
      newComment := value;
    }

    /**
     * `handleAddComment`: a blank comment only sets the error; otherwise the
     * comment is sent, and status 200 prepends it and clears the input while
     * any other outcome keeps the list and sets an error.
     */
    method AddComment(reply: AddReply) returns (request: Option<string>)
      modifies this`comments, this`newComment, this`error
      ensures request.Some? <==> !IsBlank(old(newComment))
      ensures request.None? ==>
                error == EmptyCommentText && comments == old(comments) && newComment == old(newComment)
      ensures request.Some? ==> request.value == old(newComment)
      ensures request.Some? && reply.AddStatus? && reply.status == 200 ==>
                comments == [Comment(old(newComment))] + old(comments) && newComment == "" && error == ""
      ensures request.Some? && reply.AddStatus? && reply.status != 200 ==>
                comments == old(comments) && newComment == old(newComment)
                && error == OrString(reply.error, AddFailedText)
      ensures request.Some? && reply.AddRejected? ==>
                comments == old(comments) && newComment == old(newComment) && error == AddRejectedText
    {
      var text := newComment;
      var blank := TrimsToEmpty(text);
      error := "";
      if blank {
        error := EmptyCommentText;
        return None;
      }
      request := Some(text);
      CommentSettled(reply);
    }

    /** The continuation of the comment request: prepend and clear on status 200, else set the error. */
    method CommentSettled(reply: AddReply)
      modifies this`comments, this`newComment, this`error
      ensures reply.AddStatus? && reply.status == 200 ==>
                comments == [Comment(old(newComment))] + old(comments) && newComment == "" && error == old(error)
      ensures reply.AddStatus? && reply.status != 200 ==>
                comments == old(comments) && newComment == old(newComment)
                && error == OrString(reply.error, AddFailedText)
      ensures reply.AddRejected? ==>
                comments == old(comments) && newComment == old(newComment) && error == AddRejectedText
    {
      match reply
      case AddStatus(status, err) =>
        if status != 200 {
          error := OrString(err, AddFailedText);
        } else {
          comments := [Comment(newComment)] + comments;
          newComment := "";
        }
      case AddRejected =>
        error := AddRejectedText;
    }
  }
}
