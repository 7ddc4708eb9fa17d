/**
 * Sequences of handler calls and request completions over the component's
 * lifetime. A resolve step reads the current state. A trace that is `Serialized`
 * has one request in flight at a time, and each completion answers that request.
 * On such traces the `articles` a resolve step reads are the ones its closure saw:
 * in between only `logout` and `updateArticle` can run, neither touches the list
 * (`LocalEventsKeepArticles`), and no resolve step reads the other state.
 */
module AppTrace {
  import opened Wrappers
  import opened Js
  import opened ArticleList
  import opened AppState

  /** A handler call (dispatch or local) or the completion of a request. */
  datatype Event =
    | Login(username: string, password: string)
    | LoginSettled(login: Outcome<LoginReply>)
    | Logout
    | GetArticles
    | ArticlesSettled(list: Outcome<ListReply>)
    | Submit(article: Submission)
    | PostSettled(created: Outcome<ArticleReply>)
    | PutSettled(putId: Value, updated: Outcome<ArticleReply>)
    | UpdateArticle(target: Value)
    | DeleteArticle(deleteId: Value)
    | DeleteSettled(deletedId: Value, deleted: Outcome<DeleteReply>)

  /** The events after which the stored token or the route can differ: a logout and a successful login. */
  predicate ChangesSession(e: Event)
  {
    e.Logout? || (e.LoginSettled? && e.login.Success?)
  }

  /** The two completions after which the spinner disagrees with "a request is in flight". */
  predicate SpinnerQuirk(e: Event)
  {
    (e.LoginSettled? && e.login.Failure?) || (e.DeleteSettled? && e.deleted.Success?)
  }

  /** The request a trace waits for; an update or a delete remembers the id it was sent for. */
  datatype Pending = Idle | AwaitLogin | AwaitList | AwaitPost | AwaitPut(putFor: Value) | AwaitDelete(deleteFor: Value)

  /**
   * Whether `e` can happen while `p` is awaited, one request at a time: a handler
   * that sends a request only when none is in flight, a completion only for the
   * request in flight, the local handlers at any time.
   */
  predicate Admissible(p: Pending, e: Event)
  {
    match e
    case Login(_, _) => p == Idle
    case GetArticles => p == Idle
    case Submit(_) => p == Idle
    case DeleteArticle(_) => p == Idle
    case LoginSettled(_) => p == AwaitLogin
    case ArticlesSettled(_) => p == AwaitList
    case PostSettled(_) => p == AwaitPost
    case PutSettled(id, _) => p == AwaitPut(id)
    case DeleteSettled(id, _) => p == AwaitDelete(id)
    case Logout => true
    case UpdateArticle(_) => true
  }

  /**
   * The request awaited after `e` in state `s`. A submit awaits an update when the
   * edit target is truthy and a create otherwise; a successful delete awaits its
   * `getArticles` refresh.
   */
  function PendingAfter(s: UiState, p: Pending, e: Event): Pending
  {
    match e
    case Login(_, _) => AwaitLogin
    case GetArticles => AwaitList
    case Submit(a) =>
      if SubmitRequest(s.currentArticleId, a).UpdateRequest? then AwaitPut(a.articleId) else AwaitPost
    case DeleteArticle(id) => AwaitDelete(id)
    case LoginSettled(_) => Idle
    case ArticlesSettled(_) => Idle
    case PostSettled(_) => Idle
    case PutSettled(_, _) => Idle
    case DeleteSettled(_, o) => if o.Success? then AwaitList else Idle
    case Logout => p
    case UpdateArticle(_) => p
  }

  /** The request awaited after a sequence of events. */
  function PendingAt(s: UiState, p: Pending, es: seq<Event>): Pending
    decreases |es|
  {
    if es == [] then p else PendingAt(Step(s, es[0]), PendingAfter(s, p, es[0]), es[1..])
  }

  /** Every event of the sequence is admissible when it happens. */
  predicate Serialized(s: UiState, p: Pending, es: seq<Event>)
    decreases |es|
  {
    es == [] || (Admissible(p, es[0]) && Serialized(Step(s, es[0]), PendingAfter(s, p, es[0]), es[1..]))
  }

  /** The state after one event. */
  function Step(s: UiState, e: Event): (t: UiState)
    ensures !ChangesSession(e) ==> SameSession(s, t)
    ensures !SpinnerQuirk(e) ==> t.spinnerOn == InFlightAfter(s.spinnerOn, e)
  {
    match e
    case Login(_, _) => Dispatched(s)
    case LoginSettled(o) => AfterLogin(s, o)
    case Logout => AfterLogout(s)
    case GetArticles => Dispatched(s)
    case ArticlesSettled(o) => AfterGetArticles(s, o)
    case Submit(_) => Dispatched(s)
    case PostSettled(o) => AfterPostArticle(s, o)
    case PutSettled(id, o) => AfterPutArticle(s, id, o)
    case UpdateArticle(id) => AfterUpdateArticle(s, id)
    case DeleteArticle(_) => Dispatched(s)
    case DeleteSettled(id, o) => AfterDeleteArticle(s, id, o)
  }

  /** The state after a sequence of events, in order. */
  function Run(s: UiState, es: seq<Event>): UiState
    decreases |es|
  {
    if es == [] then s else Run(Step(s, es[0]), es[1..])
  }

  /**
   * Whether a request is in flight after `e`, given whether one was before: every
   * dispatch starts one, every completion ends one, except that a successful delete
   * starts its `getArticles` refresh; local handlers leave it as it was.
   */
  function InFlightAfter(busy: bool, e: Event): bool
  {
    match e
    case Login(_, _) => true
    case GetArticles => true
    case Submit(_) => true
    case DeleteArticle(_) => true
    case LoginSettled(_) => false
    case ArticlesSettled(_) => false
    case PostSettled(_) => false
    case PutSettled(_, _) => false
    case DeleteSettled(_, o) => o.Success?
    case Logout => busy
    case UpdateArticle(_) => busy
  }

  /** Whether a request is in flight after a sequence of events. */
  function InFlight(busy: bool, es: seq<Event>): bool
    decreases |es|
  {
    if es == [] then busy else InFlight(InFlightAfter(busy, es[0]), es[1..])
  }

  /** Running one more event after a sequence is one more step. */
  lemma {:induction false} RunSnoc(s: UiState, es: seq<Event>, e: Event)
    ensures Run(s, es + [e]) == Step(Run(s, es), e)
    decreases |es|
  {
    if es == [] {
      assert ([] + [e])[1..] == [];
    } else {
      assert (es + [e])[1..] == es[1..] + [e];
      RunSnoc(Step(s, es[0]), es[1..], e);
    }
  }

  /** Likewise for the in-flight flag. */
  lemma {:induction false} InFlightSnoc(busy: bool, es: seq<Event>, e: Event)
    ensures InFlight(busy, es + [e]) == InFlightAfter(InFlight(busy, es), e)
    decreases |es|
  {
    if es == [] {
      assert ([] + [e])[1..] == [];
    } else {
      assert (es + [e])[1..] == es[1..] + [e];
      InFlightSnoc(InFlightAfter(busy, es[0]), es[1..], e);
    }
  }

  /** Likewise for the awaited request. */
  lemma {:induction false} PendingAtSnoc(s: UiState, p: Pending, es: seq<Event>, e: Event)
    ensures PendingAt(s, p, es + [e]) == PendingAfter(Run(s, es), PendingAt(s, p, es), e)
    decreases |es|
  {
    if es == [] {
      assert ([] + [e])[1..] == [];
    } else {
      assert (es + [e])[1..] == es[1..] + [e];
      PendingAtSnoc(Step(s, es[0]), PendingAfter(s, p, es[0]), es[1..], e);
    }
  }

  /** A sequence with one more event is serialized when the sequence is and the event is admissible after it. */
  lemma {:induction false} SerializedSnoc(s: UiState, p: Pending, es: seq<Event>, e: Event)
    ensures Serialized(s, p, es + [e]) <==> Serialized(s, p, es) && Admissible(PendingAt(s, p, es), e)
    decreases |es|
  {
    if es == [] {
      assert ([] + [e])[1..] == [];
    } else {
      assert (es + [e])[0] == es[0];
      assert (es + [e])[1..] == es[1..] + [e];
      SerializedSnoc(Step(s, es[0]), PendingAfter(s, p, es[0]), es[1..], e);
    }
  }

  /** Two events in a row. */
  lemma RunPair(s: UiState, busy: bool, p: Pending, e1: Event, e2: Event)
    ensures Run(s, [e1, e2]) == Step(Step(s, e1), e2)
    ensures InFlight(busy, [e1, e2]) == InFlightAfter(InFlightAfter(busy, e1), e2)
    ensures PendingAt(s, p, [e1, e2]) == PendingAfter(Step(s, e1), PendingAfter(s, p, e1), e2)
    ensures Serialized(s, p, [e1, e2]) <==> Admissible(p, e1) && Admissible(PendingAfter(s, p, e1), e2)
  {
    RunSnoc(s, [e1], e2);
    InFlightSnoc(busy, [e1], e2);
    PendingAtSnoc(s, p, [e1], e2);
    SerializedSnoc(s, p, [e1], e2);
    assert [e1] + [e2] == [e1, e2];
    assert [e1][1..] == [];
  }

  /**
   * The in-flight flag is exactly "some request is awaited": every dispatch awaits
   * one, every completion ends it (a successful delete then awaits its refresh),
   * and the local handlers leave it alone.
   */
  lemma {:induction false} InFlightIsPending(s: UiState, p: Pending, es: seq<Event>)
    ensures InFlight(p != Idle, es) == (PendingAt(s, p, es) != Idle)
    decreases |es|
  {
    if es != [] {
      InFlightIsPending(Step(s, es[0]), PendingAfter(s, p, es[0]), es[1..]);
    }
  }

  /** In edit mode a submit awaits an update, so a create's completion cannot follow it. */
  lemma EditModeSubmitAwaitsUpdate(s: UiState, sub: Submission, o: Outcome<ArticleReply>)
    requires Truthy(s.currentArticleId)
    ensures !Serialized(s, Idle, [Submit(sub), PostSettled(o)])
    ensures Serialized(s, Idle, [Submit(sub), PutSettled(sub.articleId, o)])
  {
    RunPair(s, false, Idle, Submit(sub), PostSettled(o));
    RunPair(s, false, Idle, Submit(sub), PutSettled(sub.articleId, o));
  }

  /**
   * Only a successful login and a logout touch the stored token and the route; in
   * particular a failed request (a 401 included) never redirects to the login screen.
   */
  lemma {:induction false} SessionChangesOnlyOnLoginOrLogout(s: UiState, es: seq<Event>)
    requires forall i :: 0 <= i < |es| ==> !ChangesSession(es[i])
    ensures Run(s, es).token == s.token && Run(s, es).route == s.route
    decreases |es|
  {
    if es != [] {
      SessionChangesOnlyOnLoginOrLogout(Step(s, es[0]), es[1..]);
    }
  }

  /**
   * The spinner shows exactly whether a request is in flight, provided no login
   * fails and no delete succeeds; those two completions are where it does not.
   */
  lemma {:induction false} SpinnerTracksRequests(s: UiState, busy: bool, es: seq<Event>)
    requires s.spinnerOn == busy
    requires forall i :: 0 <= i < |es| ==> !SpinnerQuirk(es[i])
    ensures Run(s, es).spinnerOn == InFlight(busy, es)
    decreases |es|
  {
    if es != [] {
      SpinnerTracksRequests(Step(s, es[0]), InFlightAfter(busy, es[0]), es[1..]);
    }
  }

  /** The handlers that send no request, `logout` and `updateArticle`, never touch the article list. */
  predicate IsLocal(e: Event)
  {
    e.Logout? || e.UpdateArticle?
  }

  /** A run of local handlers leaves the article list as it was. */
  lemma {:induction false} LocalEventsKeepArticles(s: UiState, es: seq<Event>)
    requires forall i :: 0 <= i < |es| ==> IsLocal(es[i])
    ensures Run(s, es).articles == s.articles
    decreases |es|
  {
    if es != [] {
      LocalEventsKeepArticles(Step(s, es[0]), es[1..]);
    }
  }

  /** A failed login leaves the spinner on with nothing in flight. */
  lemma FailedLoginLeavesSpinnerOn(s: UiState, username: string, password: string, m: Option<string>)
    ensures var es := [Login(username, password), LoginSettled(Failure(m))];
      Serialized(s, Idle, es) && PendingAt(s, Idle, es) == Idle &&
      Run(s, es).spinnerOn && !InFlight(false, es) && Run(s, es).token == s.token
  {
    RunPair(s, false, Idle, Login(username, password), LoginSettled(Failure(m)));
  }

  /** A successful delete turns the spinner off while its refresh is still in flight. */
  lemma DeleteHidesRefresh(s: UiState, id: Value, reply: DeleteReply)
    ensures var es := [DeleteArticle(id), DeleteSettled(id, Success(reply))];
      Serialized(s, Idle, es) && PendingAt(s, Idle, es) == AwaitList &&
      !Run(s, es).spinnerOn && InFlight(false, es)
  {
    RunPair(s, false, Idle, DeleteArticle(id), DeleteSettled(id, Success(reply)));
  }

  /**
   * A successful delete of a numeric id keeps every entry with that id; only the
   * refresh that follows it decides whether the article is gone: the list becomes
   * exactly the server's, so the id is gone when the server's list lacks it.
   */
  lemma DeleteLeavesListToRefresh(s: UiState, n: int, reply: DeleteReply, list: ListReply)
    ensures var es := [DeleteArticle(Num(n)), DeleteSettled(Num(n), Success(reply))];
      CountId(Run(s, es).articles, n) == CountId(s.articles, n) &&
      Serialized(s, Idle, es + [ArticlesSettled(Success(list))]) &&
      Run(s, es + [ArticlesSettled(Success(list))]).articles == list.articles &&
      (CountId(list.articles, n) == 0 ==> CountId(Run(s, es + [ArticlesSettled(Success(list))]).articles, n) == 0)
  {
    var es := [DeleteArticle(Num(n)), DeleteSettled(Num(n), Success(reply))];
    RunPair(s, false, Idle, es[0], es[1]);
    RunSnoc(s, es, ArticlesSettled(Success(list)));
    SerializedSnoc(s, Idle, es, ArticlesSettled(Success(list)));
  }

  /** Logging in as bob with a server reply of token "abc" stores "abc" and shows the articles screen. */
  lemma LoginScenario(s: UiState)
    ensures var es := [Login("bob", "12345"), LoginSettled(Success(LoginReply("Welcome bob", "abc")))];
      var t := Run(s, es);
      Serialized(s, Idle, es) && t.token == Some("abc") && t.message == Some("Welcome bob") && t.route == ArticlesScreen && !t.spinnerOn
  {
    RunPair(s, false, Idle, Login("bob", "12345"), LoginSettled(Success(LoginReply("Welcome bob", "abc"))));
  }

  /**
   * With no edit target, submitting an article sends a create, whose completion is
   * the one awaited; when the server numbers it 9, exactly one entry with id 9 is
   * added, provided none had it before.
   */
  lemma CreateScenario(s: UiState)
    requires !Truthy(s.currentArticleId) && CountId(s.articles, 9) == 0
    ensures var a := Article(9, "T", "X", "JS");
      var sub := Submission(Undefined, "T", "X", "JS");
      var es := [Submit(sub), PostSettled(Success(ArticleReply("created", a)))];
      var t := Run(s, es);
      SubmitRequest(s.currentArticleId, sub) == CreateRequest(sub) && Serialized(s, Idle, es) &&
      CountId(t.articles, 9) == 1 && t.articles[|t.articles| - 1] == a && t.message == Some("created")
  {
    var a := Article(9, "T", "X", "JS");
    RunPair(s, false, Idle, Submit(Submission(Undefined, "T", "X", "JS")), PostSettled(Success(ArticleReply("created", a))));
    CountIdAppend(s.articles, a, 9);
  }
}
