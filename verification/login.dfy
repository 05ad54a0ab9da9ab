/**
 * The login form: its enable-predicate, `authenticate` (store the token, look
 * the user up, clear the fields, greet), `retrieveUserDetails` with its
 * `isAdmin` fallback, and the redirect of an identified user.
 */
module Login {
  import opened JsValues
  import opened Backend
  import opened Dialogs
  import App
  import Register

  const DashboardPrefix: string := "Welcome to Dashboard, "
  const BlogPrefix: string := "Welcome to your blog, "

  /**
   * The text of the TypeError raised by reading `isAdmin` of the `undefined`
   * that `retrieveUserDetails` returns after a failed lookup (V8's wording).
   */
  const UndefinedDetailsMessage: string := "Cannot read properties of undefined (reading 'isAdmin')"

  /** The enable-predicate: both fields non-empty. */
  predicate CanSubmit(email: string, password: string) {
    email != "" && password != ""
  }

  /** The greeting chosen by the truthiness of the looked-up `isAdmin`. */
  function WelcomePrefix(isAdmin: Js<bool>): (r: string)
    ensures r == DashboardPrefix <==> TruthyBool(isAdmin)
    ensures r == BlogPrefix <==> !TruthyBool(isAdmin)
  {
    if TruthyBool(isAdmin) then DashboardPrefix else BlogPrefix
  }

  /**
   * The success dialog's text: greeting, then first and last name as a
   * template literal prints them. Both greetings have the same length, so the
   * text opens with the dashboard greeting exactly for an admin.
   */
  function WelcomeText(d: Details): (t: string)
    ensures |t| > |DashboardPrefix|
    ensures t[..|DashboardPrefix|] == DashboardPrefix <==> TruthyBool(d.isAdmin)
    ensures t[..|BlogPrefix|] == BlogPrefix <==> !TruthyBool(d.isAdmin)
  {
    WelcomePrefix(d.isAdmin) + Show(d.firstName) + " " + Show(d.lastName) + " !"
  }

  /**
   * The user record `retrieveUserDetails` stores: the body's id and names,
   * and `isAdmin || false`, so `isAdmin` is always a boolean here.
   */
  function DetailsUser(d: Details): (u: App.User)
    ensures u.id == d.id && u.firstName == d.firstName && u.lastName == d.lastName
    ensures u.isAdmin.Val?
    ensures u.isAdmin.v <==> TruthyBool(d.isAdmin)
  {
    App.User(d.id, Val(TruthyBool(d.isAdmin)), d.firstName, d.lastName)
  }

  /**
   * A body without `isAdmin` gives `isAdmin: undefined` through the app's own
   * lookup but `false` through the login lookup.
   */
  lemma AdminFallbackOnlyAtLogin(token: Option<string>, d: Details)
    requires App.HasToken(token) && d.auth != Val("Failed") && d.isAdmin == Undefined
    ensures App.ResolveIdentity(token, DetailsBody(d)).isAdmin == Undefined
    ensures DetailsUser(d).isAdmin == Val(false)
  {
  }

  /** The login lookup does not check `auth`: the body `{auth: "Failed"}` still replaces the user. */
  lemma RefusedBodyStillSetsUser(d: Details)
    requires d == Details(Undefined, Undefined, Undefined, Undefined, Val("Failed"))
    ensures DetailsUser(d).id == Undefined && DetailsUser(d).isAdmin == Val(false)
  {
  }

  /** The page navigates away to `/` when `user.id` is truthy. */
  predicate RedirectsHome(user: App.User) {
    TruthyString(user.id)
  }

  /**
   * The login page redirects only users the register page also redirects;
   * an `undefined` or empty id is redirected by the register page alone.
   */
  lemma LoginRedirectNarrower(user: App.User)
    ensures RedirectsHome(user) ==> Register.RedirectsHome(user)
    ensures user.id == Undefined || user.id == Val("") ==> Register.RedirectsHome(user) && !RedirectsHome(user)
  {
  }

  /** The outcome of `POST /users/login`. */
  datatype LoginReply =
    | LoginRejected(message: string)     // network or JSON failure
    | LoginBody(access: Js<string>)      // the body's `access` field

  /** Login succeeds iff the body defines `access` (a `null` counts as defined). */
  predicate Granted(reply: LoginReply) {
    reply.LoginBody? && reply.access != Undefined
  }

  /** What `localStorage.setItem` stores: the access value converted to a string. */
  function StoredToken(reply: LoginReply): (t: string)
    requires Granted(reply)
    ensures reply.access.Val? ==> t == reply.access.v
  {
    Show(reply.access)
  }

  /** The dialog for an outcome that does not grant access. */
  function RefusedAlert(reply: LoginReply): (a: Alert)
    requires !Granted(reply)
    ensures a.icon == ErrorIcon
    ensures reply.LoginRejected? ==> a.text == reply.message
  {
    match reply
    case LoginRejected(m) => Alert(ErrorIcon, "An error occurred", m)
    case LoginBody(_) => Alert(ErrorIcon, "Authentication failed", "Check your login details and try again.")
  }

  /** The dialog `retrieveUserDetails` opens when no body object comes back. */
  function RetrievalAlert(lookup: DetailsReply): (a: Alert)
    requires !lookup.DetailsBody?
    ensures a.icon == ErrorIcon
    ensures lookup.DetailsRejected? ==> a.text == lookup.message
  {
    match lookup
    case DetailsRejected(m) => Alert(ErrorIcon, "An error occurred on retrieval", m)
    case DetailsNull => Alert(ErrorIcon, "User data is missing", "Unable to retrieve user details.")
  }

  datatype Field = Email | Password

  /** The login form's state. */
  class LoginForm {
    var email: string
    var password: string
    var isActive: bool

    /** The enable effect has run since the last field change. */
    predicate Valid()
      reads this
    {
      isActive == CanSubmit(email, password)
    }

    constructor ()
      ensures Valid() && email == "" && password == "" && !isActive
    {
      email, password, isActive := "", "", false;
    }

    /** The effect that runs after either field changes. */
    method RefreshActive()
      modifies this`isActive
      ensures Valid()
    {
      if email != "" && password != "" {
        isActive := true;
      } else {
        isActive := false;
      }
    }

    /** Typing into one field, followed by the enable effect. */
    method SetField(field: Field, value: string)
      modifies this
      ensures Valid()
      ensures email == (if field == Email then value else old(email))
      ensures password == (if field == Password then value else old(password))
    {
      if field == Email {
        email := value;
      } else {
        password := value;
      }
      RefreshActive();
    }

    /** `retrieveUserDetails`: a body object replaces the user and is returned; otherwise a dialog. */
    method RetrieveUserDetails(session: App.Session, lookup: DetailsReply)
      returns (details: Option<Details>, alert: Option<Alert>)
      modifies session`user
      ensures lookup.DetailsBody? ==>
                details == Some(lookup.details) && alert == None && session.user == DetailsUser(lookup.details)
      ensures !lookup.DetailsBody? ==>
                details == None && alert == Some(RetrievalAlert(lookup)) && session.user == old(session.user)
    {
      match lookup
      case DetailsBody(d) =>
        session.SetUser(App.User(d.id, Val(d.isAdmin == Val(true)), d.firstName, d.lastName));
        details, alert := Some(d), None;
      case DetailsNull =>
        details, alert := None, Some(Alert(ErrorIcon, "User data is missing", "Unable to retrieve user details."));
      case DetailsRejected(m) =>
        details, alert := None, Some(Alert(ErrorIcon, "An error occurred on retrieval", m));
    }

    /**
     * `authenticate`: with granted access the token is stored before the
     * lookup, so it stays even when the lookup fails; the fields are cleared
     * before the greeting, which fails with a second dialog when no details came
     * back. Without access nothing changes but the dialog.
     */
    method Authenticate(session: App.Session, reply: LoginReply, lookup: DetailsReply)
      returns (alerts: seq<Alert>, navigatedTo: Option<string>)
      requires Valid()
      modifies this, session
      ensures Valid()
      ensures !Granted(reply) ==>
                && session.token == old(session.token) && session.user == old(session.user)
                && email == old(email) && password == old(password)
                && alerts == [RefusedAlert(reply)] && navigatedTo == None
      ensures Granted(reply) ==>
                session.token == Some(StoredToken(reply)) && email == "" && password == ""
      ensures Granted(reply) && lookup.DetailsBody? ==>
                && session.user == DetailsUser(lookup.details)
                && alerts == [Alert(SuccessIcon, "Login Successful", WelcomeText(lookup.details))]
                && navigatedTo == Some(App.BlogsRoute)
      ensures Granted(reply) && !lookup.DetailsBody? ==>
                && session.user == old(session.user)
                && alerts == [RetrievalAlert(lookup), Alert(ErrorIcon, "An error occurred", UndefinedDetailsMessage)]
                && navigatedTo == None
    {
      navigatedTo := None;
      match reply
      case LoginRejected(m) =>
        alerts := [Alert(ErrorIcon, "An error occurred", m)];
      case LoginBody(access) =>
        if access == Undefined {
          alerts := [Alert(ErrorIcon, "Authentication failed", "Check your login details and try again.")];
        } else {
          session.StoreToken(Show(access));
          var details, retrievalAlert := RetrieveUserDetails(session, lookup);
          alerts := if retrievalAlert.Some? then [retrievalAlert.value] else [];
          email := "";
          password := "";
          RefreshActive();
          if details.None? {
            alerts := alerts + [Alert(ErrorIcon, "An error occurred", UndefinedDetailsMessage)];
          } else {
            var prefix := if details.value.isAdmin == Val(true) then DashboardPrefix else BlogPrefix;
            alerts := alerts + [Alert(SuccessIcon, "Login Successful",
              prefix + Show(details.value.firstName) + " " + Show(details.value.lastName) + " !")];
            navigatedTo := Some(App.BlogsRoute);
          }
        }
    }
  }
}
