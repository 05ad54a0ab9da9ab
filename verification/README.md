# Blog client: session, forms and list rules

A Dafny model of the client-side rules of a small React blog client. The
client talks to a REST backend; every reply it receives is a parameter of the
operation that handles it, so the model covers exactly what the client itself
decides:

- **App shell** (`app.dfy`): the shared user record (`{id, isAdmin}`, with
  `isAdmin` `null` before resolution), the stored session token, the one-shot
  identity lookup that runs when the token changes, `unsetUser`, and the route
  table, which depends only on whether a token is stored.
- **Blog page** (`blog.dfy`): fetching the post list, create-post validation
  on trimmed title and content, prepending a created post, deleting by id
  after confirmation, and the text shown when the list is empty.
- **Register page** (`register.dfy`): the submit enable-predicate, the
  submission's success and failure branches, and the redirect of a user whose
  id is not `null`.
- **Login page** (`login.dfy`): the enable-predicate, `authenticate` (token
  stored first, then the details lookup, then the fields cleared and the
  greeting), the `isAdmin || false` fallback, and the redirect of a user with
  a truthy id.
- **Update-post page** (`update_post.dfy`): the load effect and its
  `post`/`loading` transitions, the single-field `handleChange`, and
  `handleSubmit` with success recognised by the exact message.
- **Post card** (`post_card.dfy`): comments loaded newest-first and prepended
  on add, the blank-comment check, and which of Update and Delete is shown.

Shared pieces: `js_values.dfy` holds the JavaScript value rules the code
relies on (`null`/`undefined`/value fields, truthiness, `a || b`, template
literal conversion, `String.prototype.trim` over the ECMAScript whitespace and
line-terminator set, and `length` in UTF-16 code units); `backend.dfy` the
shared post, comment and user-details shapes; `dialogs.dfy` the dialogs, recorded as values.

Each page is a class whose fields are the page's `useState` fields; each
handler is a method whose postcondition gives the new state in terms of the
old state and the reply. The list transforms, predicates and texts are
functions, and the properties relating them are lemmas.

Points of the code's behaviour worth noting:

- The app's lookup does not look at the HTTP status: any body whose `auth` is
  not `'Failed'` is accepted, and `isAdmin` is copied as is, so it may be
  `undefined`. Only the login page's lookup falls back to `false`.
- The login page's lookup does not check `auth` at all.
- A comment is prepended only after the backend answers with status 200; it
  is not an optimistic update.
- Deleting shortens the list by one only when exactly one post has that id.
- On a refused lookup the token stays stored and `/login` stays unrouted
  (`App.RefusedTokenHidesLogin`). This is the code's behaviour, and the model
  keeps it.

## Model

| member | source | states |
|---|---|---|
| `JsValues.TrimEmptyIffBlank` | src/pages/Blog.js:46-51 | `!s.trim()` holds exactly when every character of `s` is ECMAScript whitespace or a line terminator (the empty string included) |
| `JsValues.TrimsToEmpty` | src/components/PostCard.js:37 | the `!s.trim()` test is true exactly for blank strings |
| `JsValues.TrimStartDropsSpaces` | src/components/PostCard.js:37 | every character removed from the front by trimming is whitespace or a line terminator |
| `JsValues.TrimEndDropsSpaces` | src/components/PostCard.js:37 | every character removed from the back by trimming is whitespace or a line terminator |
| `JsValues.Trim` | src/pages/Blog.js:46 | `s.trim()` is no longer than `s` and neither starts nor ends with whitespace or a line terminator |
| `JsValues.Show` | src/pages/Login.js:47 | a string field prints as itself in a template literal, `null` as "null" and a missing field as "undefined" |
| `JsValues.TrimStart` | src/components/PostCard.js:37 | trimming the front leaves a string no longer than the input that is empty or starts with a non-space |
| `JsValues.TrimEnd` | src/components/PostCard.js:37 | trimming the back leaves a string no longer than the input that is empty or ends with a non-space |
| `JsValues.TrimStartIsSuffix` | src/components/PostCard.js:37 | what trimming the front leaves is a suffix of the input |
| `JsValues.TrimEndIsPrefix` | src/components/PostCard.js:37 | what trimming the back leaves is a prefix of the input |
| `JsValues.Utf16Length` | src/pages/Register.js:27 | `password.length` counts UTF-16 code units: at least one and at most two per character |
| `JsValues.Utf16LengthBmp` | src/pages/Register.js:27 | on Basic Multilingual Plane text, `length` is the number of characters |
| `JsValues.OrString` | src/pages/Register.js:73 | defaulting a field to a fallback text yields the field's string or the fallback, passes a non-empty string through, and is empty only if the fallback is |
| `App.HasToken` | src/App.js:34 | a token counts iff one is stored and it is not the empty string |
| `App.Accepted` | src/App.js:42-52 | a lookup body is accepted unless its `auth` is exactly `'Failed'`; a null body or a rejected lookup never is |
| `App.ResolveIdentity` | src/App.js:33-67 | no token gives `{id: null, isAdmin: false}` whatever the lookup; an accepted body gives its `id` and `isAdmin`; a non-null id or a null `isAdmin` only comes from an accepted body |
| `App.AnonymousExactly` | src/App.js:42-66 | the user is the anonymous record iff there is no token, the lookup failed or returned `auth: 'Failed'`, or the accepted body itself has a null id and false `isAdmin` |
| `App.NoTokenIgnoresLookup` | src/App.js:33-66 | without a token the lookup outcome makes no difference: no request is made |
| `App.Session.constructor` | src/App.js:18-21 | the user starts as `{id: null, isAdmin: null}` |
| `App.Session.ResolveUser` | src/App.js:33-67 | the lookup is sent iff a token is stored; the user becomes the resolved identity and the token is never removed |
| `App.Session.UnsetUser` | src/App.js:23-29 | storage is emptied and the user returns to `{id: null, isAdmin: null}` |
| `App.Session.StoreToken` | src/pages/Login.js:34 | `localStorage.setItem('token', …)` replaces the stored token and leaves the user record alone |
| `App.Session.SetUser` | src/pages/Login.js:80-85 | `setUser` replaces the user record and leaves the stored token alone |
| `App.MatchPattern` | src/App.js:79-88 | which path each declared pattern matches: the fixed paths exactly, `/update-post/:postId` any two-segment path under `update-post` whose second segment is non-empty (binding the id), `*` every path |
| `App.Dispatch` | src/App.js:78-90 | the route table yields a view iff some route in it matches the path |
| `App.Navigate` | src/App.js:78-90 | every path renders some view, because the catch-all route is always declared |
| `App.SiteMap` | src/App.js:78-90 | the reference site map, path shape by path shape, against which `App.NavigateIsSiteMap` checks the table |
| `App.RouteTable` | src/App.js:82-87 | `/login` is declared iff no token is stored, `/update-post/:postId` iff one is, and the catch-all comes last |
| `App.DispatchFirstMatch` | src/App.js:78-90 | dispatch yields the view of the first route in the table that matches the path (on this table the same route React Router ranks best; see "Route ranking" below) |
| `App.NavigateIsSiteMap` | src/App.js:78-90 | every path renders a view: `/`, `/blogs`, `/register`, `/logout` always; `/login` only without a token; `/update-post/:postId` with a non-empty id only with one; anything else the error view |
| `App.LoginRoutedIffNoToken` | src/App.js:82-84 | `/login` shows the login page without a token and the error view with one |
| `App.UpdatePostRoutedIffToken` | src/App.js:85-87 | `/update-post/:postId` with a non-empty id shows the update page with a token and the error view without; an empty id is the error view |
| `App.RefusedTokenHidesLogin` | src/App.js:40-59 | a stored token the lookup refuses leaves the user anonymous while `/login` is still the error view |
| `Blog.Validate` | src/pages/Blog.js:45-51 | the title error is set iff the title is blank after trimming, the content error iff the content is; the messages are the fixed texts |
| `Blog.HasErrors` | src/pages/Blog.js:55 | the errors object has a key iff a field error is set |
| `Blog.EmptyTitleOnlyTitleError` | src/pages/Blog.js:45-57 | an empty title with non-blank content gives exactly the title error |
| `Blog.CountId` | src/pages/Blog.js:124 | the number of posts with a given `_id` is zero iff none has it |
| `Blog.RemoveById` | src/pages/Blog.js:124 | the filtered list is an order-preserving subsequence holding exactly the posts with another `_id`, shorter by the number of posts with that `_id` |
| `Blog.RemoveAbsentId` | src/pages/Blog.js:124 | deleting an id no post carries leaves the list unchanged |
| `Blog.RemoveUniqueId` | src/pages/Blog.js:124 | deleting the id of exactly one post shortens the list by one and leaves no post with that id |
| `Blog.CreateError` | src/pages/Blog.js:72-97 | a rejected request shows the thrown message; a non-2xx reply shows the body's `message` when it is truthy and "Failed to add a post" otherwise |
| `Blog.EmptyStateText` | src/pages/Blog.js:182-197 | a heading replaces the list iff the list is empty; it is the error if there is one, else "No Posts available" |
| `Blog.BlogPage.EmptyState` | src/pages/Blog.js:182-197 | the page shows a heading in place of the list iff its post list is empty |
| `Blog.BlogPage.SetTitle` | src/pages/Blog.js:165 | typing into the title field replaces the title |
| `Blog.BlogPage.SetContent` | src/pages/Blog.js:173 | typing into the content field replaces the content |
| `Blog.BlogPage.constructor` | src/pages/Blog.js:12-16 | the page starts with no posts, empty fields, no error and no validation errors |
| `Blog.BlogPage.FetchPosts` | src/pages/Blog.js:18-36 | a successful fetch sets the list to the data (or `[]` if null) and clears the error; a failure keeps the list and sets the error text |
| `Blog.BlogPage.AddPost` | src/pages/Blog.js:44-69 | the validation errors become those of the submitted fields, and the request is sent iff there are none, carrying the untrimmed fields; with an error nothing else changes; the "Post Created" dialog opens iff the post was sent and created |
| `Blog.BlogPage.CreateSettled` | src/pages/Blog.js:70-98 | a created post is prepended to the old list, the form, error and validation are cleared and the "Post Created" dialog opens; a failure keeps list and fields, sets the error and opens no dialog |
| `Blog.BlogPage.DeletePost` | src/pages/Blog.js:101-138 | nothing is sent unless confirmed; a successful delete filters the list by id and opens the "Deleted!" dialog; a failure keeps the list, sets the error and opens no dialog |
| `Register.CanSubmit` | src/pages/Register.js:19-33 | the enable-predicate: all five fields non-empty without trimming, the passwords equal, and the password at least 8 UTF-16 code units long (its properties are the three lemmas below) |
| `Register.RedirectsHome` | src/pages/Register.js:88 | the form is replaced by a redirect to `/` whenever `user.id !== null` (compared in `Login.LoginRedirectNarrower`) |
| `Register.CanSubmitSimplified` | src/pages/Register.js:19-33 | the button is enabled iff both names and the email are non-empty, the passwords match and the password is at least 8 long (the two password emptiness tests are implied) |
| `Register.PasswordLengthBound` | src/pages/Register.js:27 | eight characters always pass the length test; passing it needs at least four characters |
| `Register.BlankFieldsAccepted` | src/pages/Register.js:21-25 | fields of spaces count as filled: there is no trimming |
| `Register.RegisterForm.constructor` | src/pages/Register.js:12-17 | all five fields start empty and the button disabled |
| `Register.RegisterForm.RefreshActive` | src/pages/Register.js:19-33 | after the effect `isActive` equals the enable-predicate of the current fields |
| `Register.RegisterForm.SetField` | src/pages/Register.js:97-146 | typing changes exactly the named field and the enable flag is recomputed |
| `Register.RegisterForm.Submit` | src/pages/Register.js:35-85 | only the exact message "Registered successfully" clears the five fields and opens "Registration Successful" / "Thank you for registering!"; otherwise the fields stay and the dialog shows the body's message, the fallback, or the unexpected-error text |
| `Login.CanSubmit` | src/pages/Login.js:106-112 | the enable-predicate: email and password both non-empty |
| `Login.RedirectsHome` | src/pages/Login.js:114-116 | the page navigates to `/` whenever `user.id` is truthy (compared in `Login.LoginRedirectNarrower`) |
| `Login.Granted` | src/pages/Login.js:33 | access is granted iff the body defines `access`; a `null` counts as defined |
| `Login.WelcomePrefix` | src/pages/Login.js:40-42 | the greeting is the dashboard one iff the looked-up `isAdmin` is truthy, otherwise the blog one |
| `Login.WelcomeText` | src/pages/Login.js:40-48 | the success text opens with the dashboard greeting exactly for an admin |
| `Login.DetailsUser` | src/pages/Login.js:79-87 | the stored user has the body's id and names and an `isAdmin` that is always a boolean, true iff the body's is truthy |
| `Login.AdminFallbackOnlyAtLogin` | src/pages/Login.js:84 | a body without `isAdmin` yields `undefined` through the app's lookup but `false` through the login lookup |
| `Login.RefusedBodyStillSetsUser` | src/pages/Login.js:78-88 | the login lookup accepts the body `{auth: 'Failed'}` and stores a user with an undefined id |
| `Login.LoginRedirectNarrower` | src/pages/Login.js:114-116 | the login page redirects only users the register page also redirects; an undefined or empty id is redirected by the register page alone |
| `Login.StoredToken` | src/pages/Login.js:33-34 | the stored token is the `access` string |
| `Login.RefusedAlert` | src/pages/Login.js:52-65 | without `access` an error dialog is shown, carrying the thrown message when the request failed |
| `Login.RetrievalAlert` | src/pages/Login.js:88-101 | a missing body or a failed lookup opens an error dialog, carrying the thrown message when it failed |
| `Login.LoginForm.constructor` | src/pages/Login.js:11-13 | both fields start empty and the button disabled |
| `Login.LoginForm.RefreshActive` | src/pages/Login.js:106-112 | after the effect `isActive` holds iff email and password are both non-empty |
| `Login.LoginForm.SetField` | src/pages/Login.js:126-143 | typing changes exactly the named field and the enable flag is recomputed |
| `Login.LoginForm.RetrieveUserDetails` | src/pages/Login.js:68-102 | a body object replaces the user and is returned; otherwise the user is untouched and a dialog is opened |
| `Login.LoginForm.Authenticate` | src/pages/Login.js:17-66 | without `access` nothing changes but the dialog; with it the token is stored whatever the lookup does and the fields are cleared; a found user is greeted and sent to `/blogs`, otherwise a second error dialog follows and there is no navigation |
| `UpdatePost.Updated` | src/pages/UpdatePost.js:70 | success is recognised only by the exact message "Post updated successfully" |
| `UpdatePost.UpdatePostForm.FormShown` | src/pages/UpdatePost.js:94-96 | the form replaces the loading note once loading is over |
| `UpdatePost.UpdatePostForm.constructor` | src/pages/UpdatePost.js:10-14 | the post starts with empty title and content, loading |
| `UpdatePost.UpdatePostForm.Load` | src/pages/UpdatePost.js:17-49 | a body with a truthy `error` only opens a dialog and loading continues; another body fills title and content and ends loading; a failure ends loading and leaves the post as it was |
| `UpdatePost.UpdatePostForm.HandleChange` | src/pages/UpdatePost.js:52-55 | exactly the named field takes the new value; the other is unchanged |
| `UpdatePost.UpdatePostForm.HandleSubmit` | src/pages/UpdatePost.js:58-92 | the post is sent as it stands; navigation to `/blogs` and the "Post Updated" / "Post updated successfully!" dialog happen iff the message is exactly "Post updated successfully"; otherwise the text is the body's `error` when it is truthy and "Failed to update post" when it is not or the request failed |
| `PostCard.Reverse` | src/components/PostCard.js:22 | `comments.reverse()` keeps the number of comments (its order is stated by the two lemmas below) |
| `PostCard.ShowsUpdate` | src/components/PostCard.js:78-80 | Update is shown iff the post's author id equals the user's id, compared strictly |
| `PostCard.ShowsDelete` | src/components/PostCard.js:81-83 | Delete is shown iff the user's `isAdmin` is truthy or Update is shown |
| `PostCard.ReverseAt` | src/components/PostCard.js:22 | position `k` of the loaded comments holds the backend's comment `k` places from the end |
| `PostCard.ReverseInvolutive` | src/components/PostCard.js:22 | reversing again restores the backend's order, so no comment is lost or duplicated |
| `PostCard.NewestFirst` | src/components/PostCard.js:22 | backend order `[c1, c2, c3]` is shown as `[c3, c2, c1]` |
| `PostCard.DeleteCoversUpdate` | src/components/PostCard.js:78-83 | whoever sees Update sees Delete, and an admin sees Delete on every post |
| `PostCard.NonAdminDeleteIsAuthorship` | src/components/PostCard.js:78-83 | for a non-admin, Delete is shown exactly where Update is, that is on their own posts |
| `PostCard.NoButtonsWithoutIdentity` | src/components/PostCard.js:78-83 | the unresolved and the anonymous user see neither button on a post with an author id |
| `PostCard.PostCardState.constructor` | src/components/PostCard.js:8-11 | no comments, empty input, loading, no error |
| `PostCard.PostCardState.Display` | src/components/PostCard.js:114-125 | the section shows the loading note while loading, the list when it is non-empty, and the empty note otherwise |
| `PostCard.PostCardState.LoadComments` | src/components/PostCard.js:14-30 | loaded comments are the reverse of the backend's; a failure keeps them; loading ends either way |
| `PostCard.PostCardState.SetNewComment` | src/components/PostCard.js:100 | typing replaces the comment input |
| `PostCard.PostCardState.AddComment` | src/components/PostCard.js:33-64 | a blank comment only sets "Comment cannot be empty." and sends nothing; otherwise the untrimmed comment is sent, status 200 prepends it and clears the input, and any other outcome keeps the list and sets an error |
| `PostCard.PostCardState.CommentSettled` | src/components/PostCard.js:54-63 | status 200 prepends the sent comment to the old list and clears the input; another status sets the body's error or the fallback; a rejection sets the retry text; the list is otherwise unchanged |

## Left out

- Rendering: JSX, Bootstrap layout and CSS, and all of `src/pages/Home.js`, which is static markup.
- Requests: `fetch`, headers, the base URL and JSON parsing. Each reply is a parameter that has only the cases its handler tells apart. Body fields are strings, booleans, `null` or missing; a number or an object where a string is expected is not modelled.
- Local storage is the single `token` entry. `localStorage.clear()` empties it.
- Dialogs are recorded as `Alert` values: every dialog the handlers open, including the blog page's "Post Created" and "Deleted!" dialogs, is returned by the method that opens it. The delete confirmation dialog is the `confirmed` parameter. Console logging is dropped.
- Navigation: `navigate(...)` is recorded as the target path. The login and register redirects are the predicates `Login.RedirectsHome` and `Register.RedirectsHome`. The blog page's `handleUpdate` only navigates to `/update-post/:id` and is not modelled.
- Asynchrony: each handler's request and reply are one atomic step. Not modelled: interleaved requests, updates after unmount, the stale `comments` captured by `handleAddComment`, and the app's lookup re-running whenever the token changes (login or logout). After `unsetUser` that re-run finds no token and settles on `{id: null, isAdmin: false}` (`App.NoTokenIgnoresLookup`), so the `{id: null, isAdmin: null}` record that `App.Session.UnsetUser` leaves is transient.
- Route ranking: React Router's `<Routes>` picks the best-ranked matching route, not the first declared one. `App.Dispatch` takes the first match instead. On this table the two agree: the named patterns match disjoint sets of paths, and `*` is both declared last and ranked last. A table with overlapping patterns would need the ranking, which is not modelled.
- Routing: paths are given as lists of `/`-separated segments. React Router's case-insensitive matching, trailing slashes and URL decoding are not modelled. The Home, Logout, Error, AppNavbar and Footer components and the user context module are not part of this model.
- The blog page's `user ?` test always passes (the user is an object), so the page always renders the list and fetches whenever the user changes. Only `FetchPosts` is modelled, not when it re-runs.
- A post is reduced to `_id`, the author's `userId._id`, title and content. A post whose `userId` is `null` would fail to render; that case is not modelled.
- The registration request body is not recorded. The submit handlers do not require the button to be enabled, since the code itself does not check it.
- Unpaired surrogates: a JavaScript string may hold a lone surrogate code unit, but a Dafny `string` holds only well-formed code points. `JsValues.Utf16Length`, and the register form's length test that uses it, cover well-formed text only.
- `Login.UndefinedDetailsMessage` uses V8's wording for the TypeError raised when the details are `undefined`. Other engines word it differently.
