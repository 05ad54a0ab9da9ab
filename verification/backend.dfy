/**
 * What the REST backend sends back, reduced to the fields the client reads.
 * The backend itself is an external collaborator: each reply is a parameter
 * of the operation that receives it.
 */
module Backend {
  import opened JsValues

  /** A post as listed by `GET /posts/`: its `_id`, its author's `userId._id`, title and content. */
  datatype Post = Post(id: string, authorId: Js<string>, title: string, content: string)

  /** A comment: only its `comment` text is shown. */
  datatype Comment = Comment(comment: string)

  /** The body of `GET /users/details`; a field the body lacks is `Undefined`. */
  datatype Details = Details(
    id: Js<string>,
    firstName: Js<string>,
    lastName: Js<string>,
    isAdmin: Js<bool>,
    auth: Js<string>)

  /**
   * Outcome of the identity lookup: the request or JSON parsing rejected with a
   * message, the body parsed to JSON `null`, or a body object. The HTTP status
   * is not consulted by either caller.
   */
  datatype DetailsReply =
    | DetailsRejected(message: string)
    | DetailsNull
    | DetailsBody(details: Details)
}
