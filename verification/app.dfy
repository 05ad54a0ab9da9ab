/**
 * The application shell: the shared user record, the stored session token,
 * the one-shot identity resolution that runs whenever the token changes, and
 * the route table, which depends only on whether a token is stored.
 */
module App {
  import opened JsValues
  import opened Backend

  /** The path of the blog list, where login and a successful update lead. */
  const BlogsRoute: string := "/blogs"

  /** The user record shared through the user context. */
  datatype User = User(id: Js<string>, isAdmin: Js<bool>, firstName: Js<string>, lastName: Js<string>)

  /** The record before any resolution: `isAdmin` is `null`, not `false`. */
  const Initial: User := User(Null, Null, Undefined, Undefined)

  /** The anonymous record set when there is no token or the lookup fails. */
  const Anonymous: User := User(Null, Val(false), Undefined, Undefined)

  /** `if (token)`: a stored empty string counts as no token. */
  predicate HasToken(token: Option<string>) {
    token.Some? && token.value != ""
  }

  /** The lookup body is accepted unless its `auth` field is exactly `'Failed'`. */
  predicate Accepted(reply: DetailsReply) {
    reply.DetailsBody? && reply.details.auth != Val("Failed")
  }

  /**
   * The user the identity effect settles on, given the stored token and the
   * outcome of the lookup (which is only made when there is a token).
   */
  function ResolveIdentity(token: Option<string>, reply: DetailsReply): (u: User)
    ensures !HasToken(token) ==> u == Anonymous
    ensures u.firstName == Undefined && u.lastName == Undefined
    ensures HasToken(token) && Accepted(reply) ==>
              u.id == reply.details.id && u.isAdmin == reply.details.isAdmin
    ensures u.id != Null ==> HasToken(token) && Accepted(reply)
    ensures u.isAdmin == Null ==> HasToken(token) && Accepted(reply) && reply.details.isAdmin == Null
  {
    if !HasToken(token) then Anonymous
    else if Accepted(reply) then User(reply.details.id, reply.details.isAdmin, Undefined, Undefined)
    else Anonymous
  }

  /**
   * The identity is the anonymous record exactly when there is no token, the
   * lookup failed or was refused, or the accepted body itself carries a null
   * id and a false `isAdmin`.
   */
  lemma AnonymousExactly(token: Option<string>, reply: DetailsReply)
    ensures ResolveIdentity(token, reply) == Anonymous <==>
              || !HasToken(token)
              || !Accepted(reply)
              || (reply.details.id == Null && reply.details.isAdmin == Val(false))
  {
  }

  /** Without a token the lookup outcome is irrelevant: no request is made. */
  lemma NoTokenIgnoresLookup(token: Option<string>, r1: DetailsReply, r2: DetailsReply)
    requires !HasToken(token)
    ensures ResolveIdentity(token, r1) == ResolveIdentity(token, r2) == Anonymous
  {
  }

  /** The stored token and the shared user record. */
  class Session {
    /** The `token` entry of local storage. */
    var token: Option<string>
    var user: User

    constructor (stored: Option<string>)
      ensures token == stored && user == Initial
    {
      token := stored;
      user := Initial;
    }

    /** The identity effect: look the token up (if any) and set the user; storage is left alone. */
    method ResolveUser(reply: DetailsReply) returns (lookupSent: bool)
      modifies this`user
      ensures lookupSent == HasToken(token)
      ensures token == old(token)
      ensures user == ResolveIdentity(token, reply)
    {
      lookupSent := HasToken(token);
      if !lookupSent {
        user := Anonymous;
      } else if reply.DetailsBody? && reply.details.auth != Val("Failed") {
        user := User(reply.details.id, reply.details.isAdmin, Undefined, Undefined);
      } else {
        user := Anonymous;
      }
    }

    /** `unsetUser`: clear local storage and return to the unresolved record. */
    method UnsetUser()
      modifies this
      ensures token == None && user == Initial
    {
      token := None;
      user := Initial;
    }

    /** `localStorage.setItem('token', t)`. */
    method StoreToken(t: string)
      modifies this`token
      ensures token == Some(t) && user == old(user)
    {
      token := Some(t);
    }

    /** `setUser(u)` from the user context. */
    method SetUser(u: User)
      modifies this`user
      ensures user == u && token == old(token)
    {
      user := u;
    }
  }

  // ---------------------------------------------------------------------
  // Routing

  /** The route patterns of the table, in the order they are declared. */
  datatype Pattern = RootPath | BlogsPath | RegisterPath | LoginPath | UpdatePostPath | LogoutPath | AnyPath

  datatype View = HomeView | BlogView | RegisterView | LoginView | UpdatePostView(postId: string) | LogoutView | ErrorView

  /** The routes declared for a token state: login only without a token, update-post only with one. */
  function RouteTable(hasToken: bool): (t: seq<Pattern>)
    ensures LoginPath in t <==> !hasToken
    ensures UpdatePostPath in t <==> hasToken
    ensures t != [] && t[|t| - 1] == AnyPath
  {
    [RootPath, BlogsPath, RegisterPath]
    + (if !hasToken then [LoginPath] else [])
    + (if hasToken then [UpdatePostPath] else [])
    + [LogoutPath, AnyPath]
  }

  /** Whether a pattern matches a path given as its `/`-separated segments, and the view it selects. */
  function MatchPattern(p: Pattern, path: seq<string>): Option<View> {
    match p
    case RootPath => if path == [] then Some(HomeView) else None
    case BlogsPath => if path == ["blogs"] then Some(BlogView) else None
    case RegisterPath => if path == ["register"] then Some(RegisterView) else None
    case LoginPath => if path == ["login"] then Some(LoginView) else None
    case UpdatePostPath =>
      if |path| == 2 && path[0] == "update-post" && path[1] != "" then Some(UpdatePostView(path[1])) else None
    case LogoutPath => if path == ["logout"] then Some(LogoutView) else None
    case AnyPath => Some(ErrorView)
  }

  /** The view of the first route in the table that matches, if any. */
  function Dispatch(table: seq<Pattern>, path: seq<string>): (r: Option<View>)
    ensures r.Some? <==> exists i :: 0 <= i < |table| && MatchPattern(table[i], path).Some?
  {
    if table == [] then None
    else match MatchPattern(table[0], path)
      case Some(v) => Some(v)
      case None =>
        var r := Dispatch(table[1..], path);
        assert forall i :: 1 <= i < |table| ==> table[i] == table[1..][i - 1];
        r
  }

  /** The view rendered for a path: the catch-all route guarantees there is one. */
  function Navigate(hasToken: bool, path: seq<string>): (r: Option<View>)
    ensures r.Some?
  {
    var t := RouteTable(hasToken);
    assert MatchPattern(t[|t| - 1], path).Some?;
    Dispatch(t, path)
  }

  /** Dispatch yields the view of the first matching route. */
  lemma {:induction false} DispatchFirstMatch(table: seq<Pattern>, path: seq<string>, i: nat)
    requires i < |table| && MatchPattern(table[i], path).Some?
    requires forall j :: 0 <= j < i ==> MatchPattern(table[j], path).None?
    ensures Dispatch(table, path) == MatchPattern(table[i], path)
  {
    if i > 0 {
      assert MatchPattern(table[0], path).None?;
      DispatchFirstMatch(table[1..], path, i - 1);
    }
  }

  /** The site map, stated path shape by path shape. */
  function SiteMap(hasToken: bool, path: seq<string>): View {
    if path == [] then HomeView
    else if path == ["blogs"] then BlogView
    else if path == ["register"] then RegisterView
    else if path == ["login"] && !hasToken then LoginView
    else if |path| == 2 && path[0] == "update-post" && path[1] != "" && hasToken then UpdatePostView(path[1])
    else if path == ["logout"] then LogoutView
    else ErrorView
  }

  /** Every path renders some view, and it is the one the site map names. */
  lemma NavigateIsSiteMap(hasToken: bool, path: seq<string>)
    ensures Navigate(hasToken, path) == Some(SiteMap(hasToken, path))
  {
    var t := RouteTable(hasToken);
    assert |t| == 6;
    if path == [] {
      DispatchFirstMatch(t, path, 0);
    } else if path == ["blogs"] {
      DispatchFirstMatch(t, path, 1);
    } else if path == ["register"] {
      DispatchFirstMatch(t, path, 2);
    } else if path == ["login"] && !hasToken {
      DispatchFirstMatch(t, path, 3);
    } else if |path| == 2 && path[0] == "update-post" && path[1] != "" && hasToken {
      DispatchFirstMatch(t, path, 3);
    } else if path == ["logout"] {
      DispatchFirstMatch(t, path, 4);
    } else {
      DispatchFirstMatch(t, path, 5);
    }
  }

  /** `/login` is reachable iff no token is stored; otherwise it falls to the error view. */
  lemma LoginRoutedIffNoToken(hasToken: bool)
    ensures Navigate(hasToken, ["login"]) == if hasToken then Some(ErrorView) else Some(LoginView)
  {
    NavigateIsSiteMap(hasToken, ["login"]);
  }

  /** `/update-post/:postId` is reachable iff a token is stored and the id segment is non-empty. */
  lemma UpdatePostRoutedIffToken(hasToken: bool, postId: string)
    ensures Navigate(hasToken, ["update-post", postId]) ==
              if hasToken && postId != "" then Some(UpdatePostView(postId)) else Some(ErrorView)
  {
    NavigateIsSiteMap(hasToken, ["update-post", postId]);
  }

  /**
   * A stored token the lookup refuses leaves the user anonymous while the
   * login route stays hidden, since only `unsetUser` clears the token.
   */
  lemma RefusedTokenHidesLogin(token: Option<string>, reply: DetailsReply)
    requires HasToken(token) && !Accepted(reply)
    ensures ResolveIdentity(token, reply) == Anonymous
    ensures Navigate(HasToken(token), ["login"]) == Some(ErrorView)
  {
    LoginRoutedIffNoToken(true);
  }
}
