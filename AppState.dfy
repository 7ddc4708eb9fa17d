/**
 * The UI state the App component keeps (message, articles, currentArticleId,
 * spinnerOn, the token in local storage and the current route) and, for each
 * handler, the state it leaves behind. Each request-issuing handler is split into a
 * dispatch step (the spinner goes on and a request is sent) and a resolve step that
 * receives the request's outcome.
 */
module AppState {
  import opened Wrappers
  import opened Js
  import opened ArticleList

  /** The two screens: `/` (login form) and `/articles`. */
  datatype Route = LoginScreen | ArticlesScreen

  /**
   * The component's state. `message` is None when an error response carried no
   * message (`err?.response?.data?.message` is undefined); `token` is None when
   * local storage holds no token.
   */
  datatype UiState = UiState(
    message: Option<string>,
    articles: seq<Article>,
    currentArticleId: Value,
    spinnerOn: bool,
    token: Option<string>,
    route: Route)

  /** How a request ended: the response body, or the error body's optional message. */
  datatype Outcome<T> = Success(payload: T) | Failure(message: Option<string>)

  /** Response bodies of the login, list, create/update and delete endpoints. */
  datatype LoginReply = LoginReply(message: string, token: string)
  datatype ListReply = ListReply(message: string, articles: seq<Article>)
  datatype ArticleReply = ArticleReply(message: string, article: Article)
  datatype DeleteReply = DeleteReply(message: string)

  /** What the article form submits; `articleId` is undefined in create mode. */
  datatype Submission = Submission(articleId: Value, title: string, text: string, topic: string)

  /** The article fields an update sends: the submission without its id. */
  datatype Changes = Changes(title: string, text: string, topic: string)

  /** The request a dispatch step sends. */
  datatype Request =
    | LoginRequest(username: string, password: string)
    | ListRequest
    | CreateRequest(article: Submission)
    | UpdateRequest(articleId: Value, changes: Changes)
    | DeleteRequest(articleId: Value)

  const Goodbye := "Goodbye!"

  /** The session part of the state: the stored token and the route. */
  predicate SameSession(s: UiState, t: UiState)
  {
    t.token == s.token && t.route == s.route
  }

  /** The data part of the state: the article list and the edit target. */
  predicate SameData(s: UiState, t: UiState)
  {
    t.articles == s.articles && t.currentArticleId == s.currentArticleId
  }

  /** The state on mount: the hooks' initial values, with whatever token and route the page was loaded with. */
  function Initial(storedToken: Option<string>, route: Route): (s: UiState)
    ensures s.message == Some("") && s.articles == [] && !s.spinnerOn
    ensures s.currentArticleId == Undefined && FindById(s.articles, s.currentArticleId) == None
    ensures s.token == storedToken && s.route == route
  {
    UiState(Some(""), [], Undefined, false, storedToken, route)
  }

  /** Every dispatch step: `setSpinnerOn(true)`; nothing else changes before the response. */
  function Dispatched(s: UiState): (t: UiState)
    ensures t.spinnerOn
    ensures t.message == s.message && SameData(s, t) && SameSession(s, t)
  {
    s.(spinnerOn := true)
  }

  /**
   * The end of `login`. On success the token is stored, the route becomes
   * `/articles`, the server message is shown and the spinner goes off. On failure
   * only the message changes: the spinner is left on.
   */
  function AfterLogin(s: UiState, o: Outcome<LoginReply>): (t: UiState)
    ensures SameData(s, t)
    ensures o.Success? ==> t.token == Some(o.payload.token) && t.route == ArticlesScreen &&
                           t.message == Some(o.payload.message) && !t.spinnerOn
    ensures o.Failure? ==> t.message == o.message && t.spinnerOn == s.spinnerOn && SameSession(s, t)
  {
    match o
    case Success(reply) =>
      s.(token := Some(reply.token), route := ArticlesScreen,
         message := Some(reply.message), spinnerOn := false)
    case Failure(m) =>
      s.(message := m)
  }

  /** `logout`: the token is removed, the route becomes `/`, the message is "Goodbye!"; no request. */
  function AfterLogout(s: UiState): (t: UiState)
    ensures t.token == None && t.route == LoginScreen && t.message == Some("Goodbye!")
    ensures SameData(s, t) && t.spinnerOn == s.spinnerOn
  {
    s.(token := None, route := LoginScreen, message := Some(Goodbye))
  }

  /**
   * The end of `getArticles`. On success the list is replaced wholesale by the
   * server's; on failure only the message changes (no redirect to the login screen).
   * The spinner is off either way.
   */
  function AfterGetArticles(s: UiState, o: Outcome<ListReply>): (t: UiState)
    ensures !t.spinnerOn && SameSession(s, t) && t.currentArticleId == s.currentArticleId
    ensures o.Success? ==> t.articles == o.payload.articles && t.message == Some(o.payload.message)
    ensures o.Failure? ==> t.articles == s.articles && t.message == o.message
  {
    match o
    case Success(reply) =>
      s.(articles := reply.articles, message := Some(reply.message), spinnerOn := false)
    case Failure(m) =>
      s.(message := m, spinnerOn := false)
  }

  /**
   * The end of `postArticle`. On success the server's article is appended: the
   * list grows by one and the old entries are an unchanged prefix. On failure the
   * list is unchanged. The spinner is off either way.
   */
  function AfterPostArticle(s: UiState, o: Outcome<ArticleReply>): (t: UiState)
    ensures !t.spinnerOn && SameSession(s, t) && t.currentArticleId == s.currentArticleId
    ensures o.Success? ==> |t.articles| == |s.articles| + 1 && t.articles[..|s.articles|] == s.articles &&
                           t.articles[|s.articles|] == o.payload.article &&
                           t.message == Some(o.payload.message)
    ensures o.Failure? ==> t.articles == s.articles && t.message == o.message
  {
    match o
    case Success(reply) =>
      s.(articles := s.articles + [reply.article], message := Some(reply.message), spinnerOn := false)
    case Failure(m) =>
      s.(message := m, spinnerOn := false)
  }

  /**
   * The end of `putArticle` for the submitted id. On success every entry with that
   * id is replaced by the server's article and every other entry is kept in place;
   * the edit target is cleared to null, so the form returns to create mode. On
   * failure the list and edit target are unchanged. The spinner is off either way.
   */
  function AfterPutArticle(s: UiState, articleId: Value, o: Outcome<ArticleReply>): (t: UiState)
    ensures !t.spinnerOn && SameSession(s, t)
    ensures o.Success? ==>
      |t.articles| == |s.articles| &&
      (forall i :: 0 <= i < |s.articles| ==>
         t.articles[i] == if HasId(s.articles[i], articleId) then o.payload.article else s.articles[i]) &&
      t.currentArticleId == Null && FindById(t.articles, t.currentArticleId) == None &&
      t.message == Some(o.payload.message)
    ensures o.Failure? ==> SameData(s, t) && t.message == o.message
  {
    match o
    case Success(reply) =>
      s.(articles := ReplaceById(s.articles, articleId, reply.article),
         message := Some(reply.message), currentArticleId := Null, spinnerOn := false)
    case Failure(m) =>
      s.(message := m, spinnerOn := false)
  }

  /** `updateArticle(id)`: only the edit target changes; the form now shows the first entry with that id. */
  function AfterUpdateArticle(s: UiState, articleId: Value): (t: UiState)
    ensures t.currentArticleId == articleId
    ensures t.articles == s.articles && t.message == s.message && t.spinnerOn == s.spinnerOn && SameSession(s, t)
    ensures FindById(t.articles, t.currentArticleId).Some? <==> exists i :: 0 <= i < |s.articles| && HasId(s.articles[i], articleId)
  {
    s.(currentArticleId := articleId)
  }

  /**
   * `onSubmit`: an update of the submitted article exactly when the edit target is
   * truthy (a non-zero number, true, or a non-empty string); with no target, null,
   * the id 0, false or "", a create.
   */
  function SubmitRequest(currentArticleId: Value, article: Submission): (r: Request)
    ensures currentArticleId.Num? ==>
      r == if currentArticleId.n != 0 then UpdateRequest(article.articleId, Changes(article.title, article.text, article.topic))
           else CreateRequest(article)
    ensures currentArticleId.Undefined? || currentArticleId.Null? ==> r == CreateRequest(article)
    ensures currentArticleId.Bool? ==> (r.UpdateRequest? <==> currentArticleId.b)
    ensures currentArticleId.Str? ==> (r.UpdateRequest? <==> currentArticleId.s != "")
    ensures r == CreateRequest(article) ||
            r == UpdateRequest(article.articleId, Changes(article.title, article.text, article.topic))
  {
    if Truthy(currentArticleId) then
      UpdateRequest(article.articleId, Changes(article.title, article.text, article.topic))
    else
      CreateRequest(article)
  }

  /**
   * The end of `deleteArticle`. On success the list is filtered as the component
   * writes it (for a non-boolean id nothing is removed), a `getArticles` refresh is
   * dispatched, the server's delete message is shown and the handler's `finally`
   * turns the spinner off while that refresh is still in flight. On failure only
   * the message changes and the spinner goes off.
   */
  function AfterDeleteArticle(s: UiState, articleId: Value, o: Outcome<DeleteReply>): (t: UiState)
    ensures !t.spinnerOn && SameSession(s, t) && t.currentArticleId == s.currentArticleId
    ensures o.Success? ==> t.message == Some(o.payload.message) &&
                           t.articles == FilterAsWritten(s.articles, articleId) &&
                           (!articleId.Bool? ==> t.articles == s.articles)
    ensures o.Failure? ==> t.articles == s.articles && t.message == o.message
  {
    match o
    case Success(reply) =>
      Dispatched(s.(articles := FilterAsWritten(s.articles, articleId)))
        .(message := Some(reply.message), spinnerOn := false)
    case Failure(m) =>
      s.(message := m, spinnerOn := false)
  }
}
