/**
 * The update-post form: loading one post, editing one field at a time, and
 * submitting the whole post, with success recognised by an exact message.
 */
module UpdatePost {
  import opened JsValues
  import opened Dialogs
  import App

  const UpdatedMessage: string := "Post updated successfully"
  const UpdateFailedText: string := "Failed to update post"
  const LoadFailedText: string := "Failed to load post details"

  /** The edited post: `title` and `content` as the load body gave them. */
  datatype Draft = Draft(title: Js<string>, content: Js<string>)

  /** The input names `handleChange` receives. */
  datatype Field = Title | Content

  /** The outcome of `GET /posts/getPost/:postId`. */
  datatype PostReply =
    | PostRejected                                                  // network or JSON failure
    | PostBody(error: Js<string>, title: Js<string>, content: Js<string>)

  /** The outcome of `PATCH /posts/update/:postId`. */
  datatype UpdateReply =
    | UpdateRejected
    | UpdateBody(message: Js<string>, error: Js<string>)

  /** Success is recognised only by the exact message. */
  predicate Updated(reply: UpdateReply) {
    reply.UpdateBody? && reply.message == Val(UpdatedMessage)
  }

  /** The form's state: the post being edited and whether it is still loading. */
  class UpdatePostForm {
    var post: Draft
    var loading: bool

    constructor ()
      ensures post == Draft(Val(""), Val("")) && loading
    {
      post := Draft(Val(""), Val(""));
      loading := true;
    }

    /** The page shows the form only once loading is over. */
    predicate FormShown()
      reads this
    {
      !loading
    }

    /**
     * The load effect: a body with a truthy `error` only opens a dialog (the
     * page keeps loading); another body fills the post and ends loading; a
     * failure ends loading with the post untouched.
     */
    method Load(reply: PostReply) returns (alert: Option<Alert>)
      modifies this
      ensures reply.PostBody? && TruthyString(reply.error) ==>
                post == old(post) && loading == old(loading) && alert == Some(Alert(ErrorIcon, "Error", reply.error.v))
      ensures reply.PostBody? && !TruthyString(reply.error) ==>
                post == Draft(reply.title, reply.content) && !loading && alert == None
      ensures reply.PostRejected? ==>
                post == old(post) && !loading && alert == Some(Alert(ErrorIcon, "Error", LoadFailedText))
    {
      match reply
      case PostBody(err, t, c) =>
        if TruthyString(err) {
          alert := Some(Alert(ErrorIcon, "Error", err.v));
        } else {
          post := Draft(t, c);
          loading := false;
          alert := None;
        }
      case PostRejected =>
        alert := Some(Alert(ErrorIcon, "Error", LoadFailedText));
        loading := false;
    }

    /** `handleChange`: `{...post, [name]: value}` replaces the named field only. */
    method HandleChange(field: Field, value: string)
      modifies this`post
      ensures field == Title ==> post.title == Val(value) && post.content == old(post.content)
      ensures field == Content ==> post.content == Val(value) && post.title == old(post.title)
    {
      match field {
        case Title => post := post.(title := Val(value));
        case Content => post := post.(content := Val(value));
      }
    }

    /**
     * `handleSubmit`: sends the post as it stands; navigates back to the list
     * only on the exact success message, otherwise shows the body's error or
     * the fallback text. The form's state does not change.
     */
    method HandleSubmit(reply: UpdateReply) returns (request: Draft, alert: Alert, navigatedTo: Option<string>)
      ensures request == post
      ensures navigatedTo.Some? <==> Updated(reply)
      ensures navigatedTo.Some? ==> navigatedTo.value == App.BlogsRoute
      ensures alert.icon == SuccessIcon <==> Updated(reply)
      ensures !Updated(reply) ==> alert.text != ""
      ensures Updated(reply) ==> alert == Alert(SuccessIcon, "Post Updated", "Post updated successfully!")
      ensures reply.UpdateRejected? ==> alert == Alert(ErrorIcon, "Error", UpdateFailedText)
      ensures reply.UpdateBody? && !Updated(reply) ==> alert.title == "Error"
      ensures reply.UpdateBody? && !Updated(reply) ==> alert.text == OrString(reply.error, UpdateFailedText)
    {
      request := post;
      match reply
      case UpdateBody(m, err) =>
        if m == Val(UpdatedMessage) {
          alert := Alert(SuccessIcon, "Post Updated", "Post updated successfully!");
          navigatedTo := Some(App.BlogsRoute);
        } else {
          alert := Alert(ErrorIcon, "Error", OrString(err, UpdateFailedText));
          navigatedTo := None;
        }
      case UpdateRejected =>
        alert := Alert(ErrorIcon, "Error", UpdateFailedText);
        navigatedTo := None;
    }
  }
}
