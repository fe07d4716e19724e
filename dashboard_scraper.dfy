/** dashboard.py's `VoteScraper`: logs in with the credentials of the environment and fetches the
    vote summary page, logging in once more when the session has expired. */
module DashboardScraper {
  import opened Wrappers
  import opened Strings
  import opened Transport
  import opened VoteSummary

  const LoginUrl: string := "https://acmonlinebiz.com/yna2025/login_action.php"
  const LoginPage: string := "https://acmonlinebiz.com/yna2025/login.php"
  const DataUrl: string := "https://acmonlinebiz.com/yna2025/votesummary.php?tpid=4"

  /** The category every result is labelled with. */
  const Category: string := "The Best Couple"

  /** The login is accepted when the final URL no longer mentions "login", or when the session holds
      any cookie at all. */
  predicate LoginAccepted(response: Response)
  {
    !Contains(Lower(response.url), "login") || response.cookies != {}
  }

  /** A bounce to the login page: the data response's URL mentions "login". */
  predicate Redirected(response: Response)
  {
    Contains(Lower(response.url), "login")
  }

  /** `login()`: no request at all without both credentials; otherwise GET the login page and POST
      the credentials, and any network error makes it fail. */
  function LoginOf(username: string, password: string, script: seq<Outcome>): (run: LoginRun)
    ensures |run.requests| <= 2
  {
    if username == "" || password == "" then LoginRun(false, [], script)
    else
      var page := Head(script);
      if page.NetworkError? then LoginRun(false, [Get(LoginPage)], Tail(script))
      else
        var posted := Head(Tail(script));
        var requests := [Get(LoginPage), Post(LoginUrl, map["username" := username, "userpassword" := password])];
        LoginRun(posted.Reply? && LoginAccepted(posted.response), requests, Tail(Tail(script)))
  }

  /** The result built from the data page: the summary only when couples were found. */
  function ResultOf(page: Page): VoteResult
  {
    VoteResult(Some(DataUrl), Some(Category), page.chart, page.couples,
               if page.couples != map[] then Some(SummaryOf(page.chart, page.couples)) else None, None)
  }

  /** `login()` as a function of the session's script. */
  function LoginWith(username: string, password: string): seq<Outcome> -> LoginRun
  {
    s => LoginOf(username, password, s)
  }

  function FetchOf(loggedIn: bool, username: string, password: string, script: seq<Outcome>): FetchRun
  {
    FetchFlow(loggedIn, script, LoginWith(username, password), DataUrl, Redirected, false)
  }

  class VoteScraper {
    var isLoggedIn: bool
    const session: Session
    /** VOTE_USERNAME and VOTE_PASSWORD, as read from the environment. */
    const username: string
    const password: string

    constructor (session: Session, username: string, password: string)
      ensures !isLoggedIn && this.session == session && this.username == username && this.password == password
    {
      isLoggedIn := false;
      this.session := session;
      this.username := username;
      this.password := password;
    }

    method Login() returns (ok: bool)
      modifies this, session
      ensures var run := LoginOf(username, password, old(session.script));
              ok == run.ok && session.log == old(session.log) + run.requests && session.script == run.rest
      ensures isLoggedIn == (ok || old(isLoggedIn))
    {
      if username == "" || password == "" {
        return false;
      }
      var page := session.Send(Get(LoginPage));
      if page.NetworkError? {
        return false;
      }
      var payload := map["username" := username, "userpassword" := password];
      var response := session.Send(Post(LoginUrl, payload));
      if response.NetworkError? {
        return false;
      }
      if LoginAccepted(response.response) {
        isLoggedIn := true;
        return true;
      }
      return false;
    }

    /** The requests of `fetch_vote_data()` once logged in. */
    method Retrieve() returns (response: Option<Response>)
      requires isLoggedIn
      modifies this, session
      ensures var run := RetryFlow(old(session.script), LoginWith(username, password), DataUrl, Redirected, false);
              response == run.result && isLoggedIn == run.loggedIn
              && session.log == old(session.log) + run.requests && session.script == run.rest
    {
      ghost var before := session.log;
      var outcome := session.Send(Get(DataUrl));
      if outcome.Reply? && Redirected(outcome.response) {
        ghost var again := LoginOf(username, password, session.script);
        isLoggedIn := false;
        var ok := Login();
        AppendRequests(before, [Get(DataUrl)], again.requests);
        if !ok {
          return None;
        }
        outcome := session.Send(Get(DataUrl));
        AppendRequests(before, [Get(DataUrl)] + again.requests, [Get(DataUrl)]);
      }
      if outcome.NetworkError? {
        return None;
      }
      return Some(outcome.response);
    }

    /** The requests of `fetch_vote_data()`: the data response it goes on to parse, if any. */
    method FetchPage() returns (response: Option<Response>)
      modifies this, session
      ensures var run := FetchOf(old(isLoggedIn), username, password, old(session.script));
              response == run.result && isLoggedIn == run.loggedIn
              && session.log == old(session.log) + run.requests && session.script == run.rest
    {
      if isLoggedIn {
        response := Retrieve();
      } else {
        response := LoginThenRetrieve();
      }
    }

    /** The requests of `fetch_vote_data()` when not logged in. */
    method LoginThenRetrieve() returns (response: Option<Response>)
      requires !isLoggedIn
      modifies this, session
      ensures var run := AfterLogin(LoginOf(username, password, old(session.script)), LoginWith(username, password),
                                    DataUrl, Redirected, false);
              response == run.result && isLoggedIn == run.loggedIn
              && session.log == old(session.log) + run.requests && session.script == run.rest
    {
      ghost var first := LoginOf(username, password, session.script);
      ghost var before := session.log;
      var ok := Login();
      if !ok {
        return None;
      }
      response := Retrieve();
      AppendRequests(before, first.requests, RetryFlow(first.rest, LoginWith(username, password), DataUrl, Redirected, false).requests);
    }

    /** `fetch_vote_data()`. */
    method FetchVoteData() returns (r: Option<VoteResult>)
      modifies this, session
      ensures var run := FetchOf(old(isLoggedIn), username, password, old(session.script));
              && (r == if run.result.Some? then Some(ResultOf(run.result.value.page)) else None)
              && isLoggedIn == run.loggedIn
              && session.log == old(session.log) + run.requests && session.script == run.rest
    {
      var response := FetchPage();
      if response.None? {
        return None;
      }
      var result := BuildResult(response.value.page);
      r := Some(result);
    }
  }

  /** The part of `fetch_vote_data()` after the requests. */
  method BuildResult(page: Page) returns (result: VoteResult)
    ensures result == ResultOf(page)
  {
    var summary: Option<seq<SummaryItem>> := None;
    if page.couples != map[] {
      var items := BuildSummary(page.chart, page.couples);
      summary := Some(items);
    }
    result := VoteResult(Some(DataUrl), Some(Category), page.chart, page.couples, summary, None);
  }

  /** Missing credentials: `login()` fails without sending anything, so the fetch sends nothing. */
  lemma NoCredentialsNoRequest(username: string, password: string, script: seq<Outcome>)
    requires username == "" || password == ""
    ensures FetchOf(false, username, password, script).result == None
    ensures FetchOf(false, username, password, script).requests == []
  {
  }

  /** At most two logins and two data GETs per fetch; none of the data when the first login fails. */
  lemma FetchBounds(loggedIn: bool, username: string, password: string, script: seq<Outcome>)
    ensures FetchOf(loggedIn, username, password, script).logins <= 2
    ensures Gets(FetchOf(loggedIn, username, password, script).requests, DataUrl) <= 2
    ensures !loggedIn && !LoginOf(username, password, script).ok ==>
              Gets(FetchOf(loggedIn, username, password, script).requests, DataUrl) == 0
  {
    var login := LoginWith(username, password);
    forall s ensures Gets(login(s).requests, DataUrl) == 0 {
      LoginSendsNoDataGet(username, password, s);
    }
    FetchLogins(loggedIn, script, login, DataUrl, Redirected, false);
    FetchGets(loggedIn, script, login, DataUrl, Redirected, false);
  }

  lemma LoginSendsNoDataGet(username: string, password: string, script: seq<Outcome>)
    ensures Gets(LoginOf(username, password, script).requests, DataUrl) == 0
  {
    var requests := LoginOf(username, password, script).requests;
    if requests != [] {
      assert LoginPage != DataUrl by { assert LoginPage[33] != DataUrl[33]; }
      assert Gets([Get(LoginPage)], DataUrl) == 0 by {
        assert [Get(LoginPage)][..0] == [];
      }
      if |requests| == 2 {
        assert requests[..1] == [Get(LoginPage)];
        assert requests[1].Post?;
      } else {
        assert requests == [Get(LoginPage)];
      }
    }
  }
}
