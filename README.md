# Article client controller: a Dafny model

This project models the state controller of the `App` component of a small
single-page articles client (login, then list, create, edit and delete articles
against a REST API). The component keeps six pieces of state: the status
`message`, the `articles` list, the edit target `currentArticleId`, the
`spinnerOn` loading flag, the `token` persisted in local storage, and the current
route (`/` for the login form, `/articles` for the article screens). Each handler
changes that state in a fixed order, and the model proves what every handler
leaves behind.

Every request-issuing handler (`login`, `getArticles`, `postArticle`,
`putArticle`, `deleteArticle`) is split into a dispatch step and a resolve step.
The dispatch step turns the spinner on and returns the request it sends. The
resolve step receives an `Outcome`: either the response body, or a failure with
an optional message (the error body's `message` may be undefined). The local
handlers `logout`, `updateArticle` and `onSubmit`, and the `find` that picks the
form's article, are modelled directly.

Modules:

- `Js`: the JavaScript semantics the component relies on: truthiness, `===` and `!`.
- `ArticleList`: the article record and the list computations (spread-append, `map`, `filter`, `find`), with counting lemmas.
- `AppState`: the state record and one transition function per dispatch, resolve and local step. Their contracts state what each handler promises.
- `AppTrace`: sequences of events over the component's lifetime, with lemmas about the session, the spinner and delete followed by refresh.
- `AppComponent`: `class App`, with the six state fields. Its handler methods update those fields in the component's order, and each is proved to produce exactly the state its `AppState` function describes.

Behaviours of the code worth knowing:

- A failed login leaves the spinner on. The `catch` never turns it off, although the comment at line 36 asks for that.
- A failed login leaves any previously stored token in place.
- A failed `getArticles` never redirects to the login screen, even on a 401, although the comment at lines 69-70 asks for that redirect.
- A successful delete leaves the list unchanged. The filter at line 149 compares a boolean with the id, so it never removes anything. Only the `getArticles` refresh that follows decides whether the article disappears.
- A successful delete turns the spinner off while that refresh is still in flight. Its `finally` runs after the refresh has been dispatched.

## Model

All source paths are in `frontend/components/App.js`.

| member | source | states |
|---|---|---|
| `ArticleList.FindById` | frontend/components/App.js:182 | The form's article is None exactly when no entry's `article_id` is strictly equal to the edit target. Otherwise it is the first entry with that id. |
| `ArticleList.ReplaceById` | frontend/components/App.js:119-123 | Same length. Each entry whose id strictly equals the submitted id becomes the server's article. Every other entry stays at its index. |
| `ArticleList.Filter` | frontend/components/App.js:148-150 | `filter` keeps each accepted entry as often as before and drops every rejected one. When all entries are accepted it returns the list itself. |
| `ArticleList.FilterConcat` | frontend/components/App.js:148-150 | Filtering a concatenation filters each part and concatenates the results, so the kept entries stay in their original order. |
| `ArticleList.FilterAsWritten` | frontend/components/App.js:148-150 | The delete filter as written returns the list unchanged for every id that is not a boolean. A boolean id removes exactly the entries whose `!article_id` equals it, and keeps every other entry as often as before. |
| `ArticleList.RemoveById` | frontend/components/App.js:148-150 | The intended delete filter (`art.article_id !== article_id`) keeps no entry with the deleted id. It keeps every other entry exactly as often as before and adds nothing. |
| `ArticleList.RemoveByIdConcat` | frontend/components/App.js:148-150 | The intended delete filter keeps the surviving entries in their original order. |
| `ArticleList.CountIdAppend` | frontend/components/App.js:96 | Appending the created article adds exactly one entry with its id and none with any other id. |
| `ArticleList.ReplaceByIdKeepsCount` | frontend/components/App.js:119-123 | Suppose the server's article keeps the submitted id. Then the number of entries with that id is unchanged, and each of them equals the server's article. |
| `ArticleList.CountIdZero` | frontend/components/App.js:148-150 | No entry carries id n exactly when the count of n is zero. |
| `ArticleList.RemoveByIdRemovesAll` | frontend/components/App.js:148-150 | After the intended filter, the deleted id occurs zero times. |
| `ArticleList.FilterAsWrittenKeepsDeleted` | frontend/components/App.js:148-150 | After the filter as written, the deleted numeric id occurs as often as before. |
| `ArticleList.FilterAsWrittenCounterexample` | frontend/components/App.js:148-150 | Deleting id 3 from a list that holds article 3 leaves the list as it was. |
| `AppState.Initial` | frontend/components/App.js:16-19 | On mount: empty message, empty list, undefined edit target (so no form article), spinner off. The token and route are whatever the page was loaded with. |
| `AppState.Dispatched` | frontend/components/App.js:37-38 | A dispatch step (lines 37, 72, 92, 114, 145) turns the spinner on and changes nothing else. |
| `AppState.AfterLogin` | frontend/components/App.js:39-49 | On success: the token is the server's token, the route is `/articles`, the message is the server's message, and the spinner is off. On failure: only the message changes, and the spinner, token and route stay as they were. The list and the edit target never change. |
| `AppState.AfterLogout` | frontend/components/App.js:52-61 | The token is cleared, the route is `/` and the message is "Goodbye!". The list, the edit target and the spinner are unchanged. |
| `AppState.AfterGetArticles` | frontend/components/App.js:74-84 | On success the list and message are replaced wholesale. On failure only the message changes. The token and route never change, so there is no 401 redirect. The spinner is off after either outcome. |
| `AppState.AfterPostArticle` | frontend/components/App.js:94-104 | On success the list grows by exactly one: the old list is an unchanged prefix and the server's article is last. On failure the list is unchanged. The spinner is off after either outcome. |
| `AppState.AfterPutArticle` | frontend/components/App.js:117-132 | On success: same length, matching entries replaced and the others kept. The edit target becomes null, so the form shows no article, and the message is set. On failure the list and the edit target are unchanged. The spinner is off after either outcome. |
| `AppState.AfterUpdateArticle` | frontend/components/App.js:107-111 | Only the edit target changes. The form then shows an article exactly when some entry carries that id. |
| `AppState.SubmitRequest` | frontend/components/App.js:135-141 | The request is either a create of the submission, or an update of the submission's id that carries the other fields without the id. It is an update exactly when the edit target is truthy: a non-zero number, true, or a non-empty string. Undefined, null, 0, false and "" give a create. |
| `AppState.AfterDeleteArticle` | frontend/components/App.js:147-161 | On success: the list is filtered as written, so it is unchanged for any non-boolean id, and the message is the server's. On failure only the message changes. The spinner is off after either outcome, and the session never changes. |
| `AppTrace.Step` | frontend/components/App.js:30-162 | An event other than a successful login or a logout leaves the token and route alone. Every event except a failed login and a successful delete leaves the spinner on exactly when a request is in flight. |
| `AppTrace.RunSnoc` | frontend/components/App.js:30-162 | Running one more event after a sequence is one more step. |
| `AppTrace.InFlightSnoc` | frontend/components/App.js:30-162 | Likewise for whether a request is in flight. |
| `AppTrace.PendingAtSnoc` | frontend/components/App.js:30-162 | Likewise for the awaited request. |
| `AppTrace.SerializedSnoc` | frontend/components/App.js:30-162 | A sequence with one more event is one-request-at-a-time exactly when the sequence is, and the event is admissible for the request awaited after it. |
| `AppTrace.RunPair` | frontend/components/App.js:30-162 | Two events in a row are two steps, for the state, the in-flight flag, the awaited request and admissibility. |
| `AppTrace.SessionChangesOnlyOnLoginOrLogout` | frontend/components/App.js:30-162 | Over any sequence of events without a successful login or a logout, the stored token and the route stay the same. |
| `AppTrace.LocalEventsKeepArticles` | frontend/components/App.js:52-61 | Any run of `logout` (lines 52-61) and `updateArticle` (lines 107-111) calls leaves the article list as it was. |
| `AppTrace.SpinnerTracksRequests` | frontend/components/App.js:30-162 | Over any sequence without a failed login or a successful delete, the spinner is on exactly when a request is in flight. |
| `AppTrace.InFlightIsPending` | frontend/components/App.js:30-162 | "A request is in flight" is exactly "some request is awaited": each dispatch awaits its request, each completion ends it (a successful delete then awaits its refresh), and local handlers change nothing. |
| `AppTrace.EditModeSubmitAwaitsUpdate` | frontend/components/App.js:135-141 | With a truthy edit target, a submit awaits an update of the submission's id. A create's completion cannot follow it; an update's completion can. |
| `AppTrace.FailedLoginLeavesSpinnerOn` | frontend/components/App.js:37-49 | A login followed by its failure is a one-request-at-a-time trace. Afterwards nothing is awaited, yet the spinner is on, and the token is unchanged. |
| `AppTrace.DeleteHidesRefresh` | frontend/components/App.js:145-161 | After a successful delete, the refresh is the awaited request, yet the spinner is off. |
| `AppTrace.DeleteLeavesListToRefresh` | frontend/components/App.js:147-155 | A successful delete of id n leaves the count of n unchanged. The refresh completing next is admissible and makes the list exactly the server's, so id n is gone exactly when the server's list lacks it. |
| `AppTrace.LoginScenario` | frontend/components/App.js:37-46 | A login as bob answered with token "abc" is admissible. It stores "abc", shows "Welcome bob", goes to `/articles` and turns the spinner off. |
| `AppTrace.CreateScenario` | frontend/components/App.js:135-141 | With no edit target, a submit sends a create, and the create's completion is the awaited one. When the server returns article 9, exactly one entry with id 9 is added, last, and "created" is shown. |
| `AppComponent.App.constructor` | frontend/components/App.js:16-19 | The fields hold the initial state. |
| `AppComponent.App.FormArticle` | frontend/components/App.js:182 | The form's article is the first entry of the list whose id is the edit target. It is None exactly when no entry has that id. |
| `AppComponent.App.Login` | frontend/components/App.js:37-38 | Posts the credentials; the new state is the dispatched state. |
| `AppComponent.App.ResolveLogin` | frontend/components/App.js:39-49 | The new state is `AfterLogin` of the old state and the outcome. |
| `AppComponent.App.Logout` | frontend/components/App.js:52-61 | The new state is `AfterLogout` of the old state. |
| `AppComponent.App.GetArticles` | frontend/components/App.js:72-73 | Sends the list request; the new state is the dispatched state. |
| `AppComponent.App.ResolveGetArticles` | frontend/components/App.js:74-84 | The new state is `AfterGetArticles` of the old state and the outcome. |
| `AppComponent.App.PostArticle` | frontend/components/App.js:92-93 | Posts the whole submission; the new state is the dispatched state. |
| `AppComponent.App.ResolvePostArticle` | frontend/components/App.js:94-104 | The new state is `AfterPostArticle` of the old state and the outcome. |
| `AppComponent.App.UpdateArticle` | frontend/components/App.js:107-111 | The new state is `AfterUpdateArticle` of the old state. |
| `AppComponent.App.PutArticle` | frontend/components/App.js:113-116 | Sends the submission's id and, separately, its other fields; the new state is the dispatched state. |
| `AppComponent.App.ResolvePutArticle` | frontend/components/App.js:117-132 | The new state is `AfterPutArticle` of the old state, the dispatched id and the outcome. |
| `AppComponent.App.OnSubmit` | frontend/components/App.js:135-141 | Sends `SubmitRequest` of the edit target before the call; the new state is the dispatched state. |
| `AppComponent.App.DeleteArticle` | frontend/components/App.js:145-146 | Sends the delete request; the new state is the dispatched state. |
| `AppComponent.App.ResolveDeleteArticle` | frontend/components/App.js:147-161 | On success it returns the refresh request it dispatched; on failure it returns none. The new state is `AfterDeleteArticle` of the old state, the id and the outcome. |

## Left out

- Rendering: the JSX, the `Spinner`, `Message`, `LoginForm`, `ArticleForm` and `Articles` components, and the opacity style (lines 164-196). These are presentational, and their sources are not part of this model.
- Routing: react-router's `navigate`, `Routes` and `NavLink` are a foreign library. The route is a two-valued field, and the initial route is a constructor parameter.
- HTTP: axios, `axiosWithAuth` and its bearer header, and the URL constants (lines 11-12) are network I/O. A dispatch step returns the request as a value, and a resolve step takes the outcome as input.
- Local storage: `window.localStorage` is browser I/O. The token is a field, and the stored token at load time is a constructor parameter. Storing a token that is not a string is not modelled, because the reply's token is a string.
- Timing: the 5 ms `setTimeout` before a delete's message. The message is applied when the delete resolves, and the model makes no ordering claim against the refresh's own message.
- Concurrency: overlapping requests, stale `articles` closures and the interleaving of responses. A resolve step reads the current state. `AppTrace.Serialized` picks out the traces with one request in flight at a time, where each completion answers that request. On those traces the `articles` a resolve step reads are the ones its closure saw. In between, only `logout` and `updateArticle` can run, and neither touches the list (`AppTrace.LocalEventsKeepArticles`). No resolve step reads the other state. A put's id is passed to its resolve step, as the closure carries it.
- Rendering mechanics: React's batching of state updates and re-renders. These do not change the final state after a handler.
- JavaScript numbers: they are integers here, with no NaN and no fractions. Server messages in successful replies are strings, never undefined.
- Form fields: a submission has exactly an id, a title, a text and a topic.
- Flushing the message on dispatch: the comments on `login` and `getArticles` ask for it, but the code does not do it, so it is not modelled.

## Findings

| source | as written | input that shows it | evidently intended | confidence | as-written member | corrected member |
|---|---|---|---|---|---|---|
| frontend/components/App.js:148-150 | `!art.article_id !== article_id` compares a boolean with the id, so the comparison is always true for a numeric id and the delete filter keeps every entry | list `[article 3]`, delete id 3: the list is unchanged | `art.article_id !== article_id`: remove the entries with the deleted id | high (not executed) | `ArticleList.FilterAsWritten` (with `ArticleList.FilterAsWrittenCounterexample`, `ArticleList.FilterAsWrittenKeepsDeleted`) | `ArticleList.RemoveById` (with `ArticleList.RemoveByIdRemovesAll`, `ArticleList.RemoveByIdConcat`) |

The component model (`AppState.AfterDeleteArticle`, `AppComponent.App.ResolveDeleteArticle`) keeps the filter as written, because it describes what the handler does. With the filter as written, the deleted article leaves the list only through the `getArticles` refresh, which `AppTrace.DeleteLeavesListToRefresh` states.
