/**
 * The blog page: the post list and its maintenance (replace on fetch, prepend
 * on create, filter by id on delete), create-post validation on trimmed
 * fields, and the text shown when the list is empty.
 */
module Blog {
  import opened JsValues
  import opened Backend
  import opened Dialogs

  // ---------------------------------------------------------------------
  // Validation

  /** The per-field validation errors; a field is `None` when it has no error. */
  datatype FieldErrors = FieldErrors(title: Option<string>, content: Option<string>)

  const NoErrors: FieldErrors := FieldErrors(None, None)
  const TitleRequired: string := "Post title is required"
  const ContentRequired: string := "Post content is required"

  /** `Object.keys(errors).length > 0`. */
  predicate HasErrors(e: FieldErrors) {
    e.title.Some? || e.content.Some?
  }

  /** The errors object built from the trimmed title and content. */
  function Validate(title: string, content: string): (e: FieldErrors)
    ensures e.title.Some? <==> IsBlank(title)
    ensures e.content.Some? <==> IsBlank(content)
    ensures e.title.Some? ==> e.title.value == TitleRequired
    ensures e.content.Some? ==> e.content.value == ContentRequired
    ensures HasErrors(e) <==> IsBlank(title) || IsBlank(content)
  {
    FieldErrors(
      if TrimsToEmpty(title) then Some(TitleRequired) else None,
      if TrimsToEmpty(content) then Some(ContentRequired) else None)
  }

  /** An empty title with real content yields exactly the title error. */
  lemma EmptyTitleOnlyTitleError(content: string)
    requires !IsBlank(content)
    ensures Validate("", content) == FieldErrors(Some(TitleRequired), None)
  {
  }

  // ---------------------------------------------------------------------
  // The post list

  /** `a` can be obtained from `b` by deleting elements: `a` is an order-preserving subsequence of `b`. */
  predicate SubsequenceOf<T(==)>(a: seq<T>, b: seq<T>)
    decreases |b|
  {
    if a == [] then true
    else if b == [] then false
    else (a[0] == b[0] && SubsequenceOf(a[1..], b[1..])) || SubsequenceOf(a, b[1..])
  }

  /** Number of posts whose `_id` is `id`. */
  function CountId(posts: seq<Post>, id: string): (n: nat)
    ensures n <= |posts|
    ensures n == 0 <==> forall p :: p in posts ==> p.id != id
  {
    if posts == [] then 0
    else (if posts[0].id == id then 1 else 0) + CountId(posts[1..], id)
  }

  /** `posts.filter(post => post._id !== id)`. */
  function RemoveById(posts: seq<Post>, id: string): (r: seq<Post>)
    ensures SubsequenceOf(r, posts)
    ensures forall p :: p in r <==> p in posts && p.id != id
    ensures |r| == |posts| - CountId(posts, id)
  {
    if posts == [] then []
    else if posts[0].id != id then [posts[0]] + RemoveById(posts[1..], id)
    else
      var r := RemoveById(posts[1..], id);
      SubsequenceSkip(r, posts);
      r
  }

  /** Skipping the head of `b` keeps a subsequence of its tail a subsequence of `b`. */
  lemma SubsequenceSkip<T>(a: seq<T>, b: seq<T>)
    requires b != [] && SubsequenceOf(a, b[1..])
    ensures SubsequenceOf(a, b)
  {
  }

  /** Deleting an id no post carries leaves the list as it was. */
  lemma {:induction false} RemoveAbsentId(posts: seq<Post>, id: string)
    requires forall p :: p in posts ==> p.id != id
    ensures RemoveById(posts, id) == posts
  {
    if posts != [] {
      assert posts[0] in posts;
      RemoveAbsentId(posts[1..], id);
      assert [posts[0]] + posts[1..] == posts;
    }
  }

  /** Deleting the id of exactly one post shortens the list by one and removes that post. */
  lemma RemoveUniqueId(posts: seq<Post>, id: string)
    requires CountId(posts, id) == 1
    ensures |RemoveById(posts, id)| == |posts| - 1
    ensures forall p :: p in RemoveById(posts, id) ==> p.id != id
  {
  }

  /** The outcome of `GET /posts/`. */
  datatype FetchReply =
    | FetchRejected(message: string)   // network or JSON failure, with its message
    | FetchNotOk                        // a non-2xx status
    | FetchOk(data: Js<seq<Post>>)      // the parsed body

  /** The outcome of `POST /posts/create`. */
  datatype CreateReply =
    | CreateRejected(message: string)
    | CreateNotOk(bodyMessage: Js<string>)  // a non-2xx status with the body's message field
    | CreateOk(post: Post)

  /** The outcome of `DELETE /posts/delete/:id`. */
  datatype DeleteReply = DeleteRejected(message: string) | DeleteNotOk | DeleteOk

  /** The body sent to create a post: the untrimmed fields and an empty image URL. */
  datatype Draft = Draft(title: string, content: string, imageUrl: string)

  const FetchFailedText: string := "Failed to fetch blog post list"
  const CreateFailedText: string := "Failed to add a post"
  const DeleteFailedText: string := "Failed to delete post"
  const NoPostsText: string := "No Posts available"

  /** The success dialogs of the create and delete requests. */
  const CreatedAlert: Alert := Alert(SuccessIcon, "Post Created", "Your post has been successfully added!")
  const DeletedAlert: Alert := Alert(SuccessIcon, "Deleted!", "Your post has been deleted.")

  /** The error text a failed create shows: the body's message, else the fallback. */
  function CreateError(reply: CreateReply): (t: string)
    requires !reply.CreateOk?
    ensures reply.CreateRejected? ==> t == reply.message
    ensures reply.CreateNotOk? ==> t != ""
    ensures reply.CreateNotOk? && TruthyString(reply.bodyMessage) ==> t == reply.bodyMessage.v
    ensures reply.CreateNotOk? && !TruthyString(reply.bodyMessage) ==> t == CreateFailedText
  {
    match reply
    case CreateRejected(m) => m
    case CreateNotOk(m) => OrString(m, CreateFailedText)
  }

  /** The heading shown in place of the list: only when it is empty, the error or else the default. */
  function EmptyStateText(posts: seq<Post>, error: string): (r: Option<string>)
    ensures r.Some? <==> posts == []
    ensures r.Some? ==> r.value != ""
    ensures r.Some? && error != "" ==> r.value == error
    ensures r.Some? && error == "" ==> r.value == NoPostsText
  {
    if |posts| > 0 then None else Some(OrString(Val(error), NoPostsText))
  }

  /** The state of the blog page. */
  class BlogPage {
    var posts: seq<Post>
    var title: string
    var content: string
    var error: string
    var validation: FieldErrors

    constructor ()
      ensures posts == [] && title == "" && content == "" && error == "" && validation == NoErrors
    {
      posts := [];
      title := "";
      content := "";
      error := "";
      validation := NoErrors;
    }

    /** Typing into the title field. */
    method SetTitle(value: string)
      modifies this`title
      ensures title == value
    {
      title := value;
    }

    /** Typing into the content field. */
    method SetContent(value: string)
      modifies this`content
      ensures content == value
    {
      content := value;
    }

    /** `fetchPosts`: replace the list with the data (or `[]` if it is null), or record the error. */
    method FetchPosts(reply: FetchReply)
      modifies this`posts, this`error
      ensures reply.FetchOk? ==> posts == (if reply.data.Val? then reply.data.v else []) && error == ""
      ensures reply.FetchNotOk? ==> posts == old(posts) && error == FetchFailedText
      ensures reply.FetchRejected? ==> posts == old(posts) && error == reply.message
    {
      match reply
      case FetchOk(data) =>
        posts := if data.Val? then data.v else [];
        error := "";
      case FetchNotOk =>
        error := FetchFailedText;
      case FetchRejected(m) =>
        error := m;
    }

    /**
     * `handleAddPost`: validate; with an error nothing is sent and only the
     * validation errors change; otherwise the draft is sent and a created post
     * is prepended, the form cleared and the success dialog opened.
     */
    method AddPost(reply: CreateReply) returns (request: Option<Draft>, alert: Option<Alert>)
      modifies this
      ensures validation == Validate(old(title), old(content))
      ensures request.Some? <==> !HasErrors(validation)
      ensures request.None? ==>
                && alert == None
                && posts == old(posts) && title == old(title) && content == old(content) && error == old(error)
      ensures request.Some? ==>
                && request.value == Draft(old(title), old(content), "")
                && alert == (if reply.CreateOk? then Some(CreatedAlert) else None)
      ensures request.Some? && reply.CreateOk? ==>
                posts == [reply.post] + old(posts) && title == "" && content == "" && error == ""
      ensures request.Some? && !reply.CreateOk? ==>
                posts == old(posts) && title == old(title) && content == old(content)
                && error == CreateError(reply)
    {
      var errors := Validate(title, content);
      validation := errors;
      if HasErrors(errors) {
        return None, None;
      }
      request := Some(Draft(title, content, ""));
      alert := CreateSettled(reply);
    }

    /** The continuation of the create request: prepend and clear on success, else show the error. */
    method CreateSettled(reply: CreateReply) returns (alert: Option<Alert>)
      modifies this
      ensures alert == (if reply.CreateOk? then Some(CreatedAlert) else None)
      ensures reply.CreateOk? ==>
                && posts == [reply.post] + old(posts) && title == "" && content == ""
                && error == "" && validation == NoErrors
      ensures !reply.CreateOk? ==>
                && posts == old(posts) && title == old(title) && content == old(content)
                && error == CreateError(reply) && validation == old(validation)
    {
      match reply
      case CreateOk(p) =>
        posts := [p] + posts;
        title := "";
        content := "";
        error := "";
        validation := NoErrors;
        alert := Some(CreatedAlert);
      case CreateNotOk(m) =>
        error := OrString(m, CreateFailedText);
        alert := None;
      case CreateRejected(m) =>
        error := m;
        alert := None;
    }

    /** `handleDeletePost`: only a confirmed dialog sends the request; success filters the list. */
    method DeletePost(id: string, confirmed: bool, reply: DeleteReply) returns (sent: bool, alert: Option<Alert>)
      modifies this`posts, this`error
      ensures sent == confirmed
      ensures alert == (if confirmed && reply.DeleteOk? then Some(DeletedAlert) else None)
      ensures !confirmed ==> posts == old(posts) && error == old(error)
      ensures confirmed && reply.DeleteOk? ==> posts == RemoveById(old(posts), id) && error == old(error)
      ensures confirmed && reply.DeleteNotOk? ==> posts == old(posts) && error == DeleteFailedText
      ensures confirmed && reply.DeleteRejected? ==> posts == old(posts) && error == reply.message
    {
      sent, alert := confirmed, None;
      if !confirmed {
        return;
      }
      match reply
      case DeleteOk =>
        posts := RemoveById(posts, id);
        alert := Some(DeletedAlert);
      case DeleteNotOk =>
        error := DeleteFailedText;
      case DeleteRejected(m) =>
        error := m;
    }

    /** What the page shows where the list would be. */
    function EmptyState(): (r: Option<string>)
      reads this
      ensures r.Some? <==> posts == []
    {
      EmptyStateText(posts, error)
    }
  }
}
