/**
 * The App component itself: its state hooks and the local-storage token as
 * fields, and its handlers as methods that update them in the order the
 * component calls its setters. Each method is proved to leave exactly the state
 * the corresponding AppState function describes.
 */
module AppComponent {
  import opened Wrappers
  import opened Js
  import opened ArticleList
  import opened AppState

  class App {
    var message: Option<string>
    var articles: seq<Article>
    var currentArticleId: Value
    var spinnerOn: bool
    /** `window.localStorage` under the key 'token'. */
    var token: Option<string>
    /** The location `navigate` last went to. */
    var route: Route

    /** The fields as one state record. */
    function State(): UiState
      reads this
    {
      UiState(message, articles, currentArticleId, spinnerOn, token, route)
    }

    /** Mounting: the hooks' initial values; the token and route are whatever the page was loaded with. */
    constructor (storedToken: Option<string>, initialRoute: Route)
      ensures State() == Initial(storedToken, initialRoute)
    {
      message := Some("");
      articles := [];
      currentArticleId := Undefined;
      spinnerOn := false;
      token := storedToken;
      route := initialRoute;
    }

    /** The article handed to the edit form. */
    function FormArticle(): (r: Option<Article>)
      reads this
      ensures r.Some? ==> exists i :: 0 <= i < |articles| && articles[i] == r.value &&
                                      HasId(articles[i], currentArticleId) &&
                                      forall j :: 0 <= j < i ==> !HasId(articles[j], currentArticleId)
      ensures r.None? <==> forall i :: 0 <= i < |articles| ==> !HasId(articles[i], currentArticleId)
    {
      FindById(articles, currentArticleId)
    }

    /** `login`, up to the request: the spinner goes on and the credentials are posted. */
    method Login(username: string, password: string) returns (req: Request)
      modifies this
      ensures req == LoginRequest(username, password)
      ensures State() == Dispatched(old(State()))
    {
      spinnerOn := true;
      req := LoginRequest(username, password);
    }

    /** `login`, once the response or error arrives. */
    method ResolveLogin(o: Outcome<LoginReply>)
      modifies this
      ensures State() == AfterLogin(old(State()), o)
    {
      match o
      case Success(reply) =>
        token := Some(reply.token);
        route := ArticlesScreen;
        message := Some(reply.message);
        spinnerOn := false;
      case Failure(m) =>
        message := m;
    }

    /** `logout`. */
    method Logout()
      modifies this
      ensures State() == AfterLogout(old(State()))
    {
      token := None;
      route := LoginScreen;
      message := Some(Goodbye);
    }

    /** `getArticles`, up to the request. */
    method GetArticles() returns (req: Request)
      modifies this
      ensures req == ListRequest
      ensures State() == Dispatched(old(State()))
    {
      spinnerOn := true;
      req := ListRequest;
    }

    /** `getArticles`, once the response or error arrives; `finally` turns the spinner off. */
    method ResolveGetArticles(o: Outcome<ListReply>)
      modifies this
      ensures State() == AfterGetArticles(old(State()), o)
    {
      match o {
        case Success(reply) =>
          articles := reply.articles;
          message := Some(reply.message);
        case Failure(m) =>
          message := m;
      }
      spinnerOn := false;
    }

    /** `postArticle`, up to the request: the whole submission is the body. */
    method PostArticle(article: Submission) returns (req: Request)
      modifies this
      ensures req == CreateRequest(article)
      ensures State() == Dispatched(old(State()))
    {
      spinnerOn := true;
      req := CreateRequest(article);
    }

    /** `postArticle`, once the response or error arrives. */
    method ResolvePostArticle(o: Outcome<ArticleReply>)
      modifies this
      ensures State() == AfterPostArticle(old(State()), o)
    {
      match o {
        case Success(reply) =>
          articles := articles + [reply.article];
          message := Some(reply.message);
        case Failure(m) =>
          message := m;
      }
      spinnerOn := false;
    }

    /** `updateArticle`: choose the article the form edits. */
    method UpdateArticle(articleId: Value)
      modifies this
      ensures State() == AfterUpdateArticle(old(State()), articleId)
    {
      currentArticleId := articleId;
    }

    /** `putArticle`, up to the request: the id goes in the URL, the other fields in the body. */
    method PutArticle(article: Submission) returns (req: Request)
      modifies this
      ensures req == UpdateRequest(article.articleId, Changes(article.title, article.text, article.topic))
      ensures State() == Dispatched(old(State()))
    {
      spinnerOn := true;
      req := UpdateRequest(article.articleId, Changes(article.title, article.text, article.topic));
    }

    /** `putArticle`, once the response or error arrives, for the id it was dispatched with. */
    method ResolvePutArticle(articleId: Value, o: Outcome<ArticleReply>)
      modifies this
      ensures State() == AfterPutArticle(old(State()), articleId, o)
    {
      match o {
        case Success(reply) =>
          articles := ReplaceById(articles, articleId, reply.article);
          message := Some(reply.message);
          currentArticleId := Null;
        case Failure(m) =>
          message := m;
      }
      spinnerOn := false;
    }

    /** `onSubmit`: update when an edit target is set (truthy), create otherwise. */
    method OnSubmit(article: Submission) returns (req: Request)
      modifies this
      ensures req == SubmitRequest(old(currentArticleId), article)
      ensures State() == Dispatched(old(State()))
    {
      if Truthy(currentArticleId) {
        req := PutArticle(article);
      } else {
        req := PostArticle(article);
      }
    }

    /** `deleteArticle`, up to the request. */
    method DeleteArticle(articleId: Value) returns (req: Request)
      modifies this
      ensures req == DeleteRequest(articleId)
      ensures State() == Dispatched(old(State()))
    {
      spinnerOn := true;
      req := DeleteRequest(articleId);
    }

    /**
     * `deleteArticle`, once the response or error arrives. On success it filters the
     * list, dispatches a refresh (returned in `refresh`) and sets the message; then
     * `finally` turns the spinner off.
     */
    method ResolveDeleteArticle(articleId: Value, o: Outcome<DeleteReply>) returns (refresh: Option<Request>)
      modifies this
      ensures refresh == if o.Success? then Some(ListRequest) else None
      ensures State() == AfterDeleteArticle(old(State()), articleId, o)
    {
      refresh := None;
      match o {
        case Success(reply) =>
          articles := FilterAsWritten(articles, articleId);
          var req := GetArticles();
          refresh := Some(req);
          message := Some(reply.message);
        case Failure(m) =>
          message := m;
      }
      spinnerOn := false;
    }
  }
}
