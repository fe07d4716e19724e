/** yna2025_scraper.py's `YNA2025Scraper`: logs in with the credentials of its configuration file,
    fetches the vote summary page, logging in once more when the session has expired, and attaches
    the sorted summary and the ranking lines when the page lists couples. */
module Yna2025Scraper {
  import opened Wrappers
  import opened Strings
  import opened Transport
  import opened VoteSummary
  import DashboardScraper

  /** The configuration keys the login and the fetch read; an absent optional key is None. */
  datatype Config = Config(loginUrl: string, loginPage: Option<string>, dataUrl: string,
                           username: string, password: string,
                           usernameField: Option<string>, passwordField: Option<string>)

  /** `config.get('login_page', login_url)`. */
  function LoginPageOf(c: Config): string
  {
    if c.loginPage.Some? then c.loginPage.value else c.loginUrl
  }

  /** The form fields: `username_field` (default "username") holds the username and
      `password_field` (default "userpassword") the password, which wins when the two names agree. */
  function Payload(c: Config): (payload: map<string, string>)
    ensures payload.Keys == {if c.usernameField.Some? then c.usernameField.value else "username",
                             if c.passwordField.Some? then c.passwordField.value else "userpassword"}
  {
    map[if c.usernameField.Some? then c.usernameField.value else "username" := c.username]
       [if c.passwordField.Some? then c.passwordField.value else "userpassword" := c.password]
  }

  /** The login is accepted when the final URL no longer mentions "login" or mentions "dashboard",
      and otherwise when the session holds any cookie. */
  predicate LoginAccepted(response: Response)
  {
    !Contains(Lower(response.url), "login") || Contains(Lower(response.url), "dashboard")
    || response.cookies != {}
  }

  /** A bounce to the login page: the data response's URL mentions "login". */
  predicate Redirected(response: Response)
  {
    Contains(Lower(response.url), "login")
  }

  /** This check accepts whatever dashboard.py's accepts, and more exactly the responses at a URL
      mentioning both "login" and "dashboard" with an empty cookie jar. */
  lemma AcceptsMoreThanDashboard(response: Response)
    ensures DashboardScraper.LoginAccepted(response) ==> LoginAccepted(response)
    ensures LoginAccepted(response) && !DashboardScraper.LoginAccepted(response) <==>
              Contains(Lower(response.url), "login") && Contains(Lower(response.url), "dashboard")
              && response.cookies == {}
  {
  }

  /** `login()`: GET the login page and POST the credentials; a network error on either fails it. */
  function LoginOf(c: Config, script: seq<Outcome>): (run: LoginRun)
    ensures 1 <= |run.requests| <= 2
    ensures run.ok ==> |run.requests| == 2
  {
    var page := Head(script);
    if page.NetworkError? then LoginRun(false, [Get(LoginPageOf(c))], Tail(script))
    else
      var posted := Head(Tail(script));
      LoginRun(posted.Reply? && LoginAccepted(posted.response),
               [Get(LoginPageOf(c)), Post(c.loginUrl, Payload(c))], Tail(Tail(script)))
  }

  /** `login()` as a function of the session's script. */
  function LoginWith(c: Config): seq<Outcome> -> LoginRun
  {
    s => LoginOf(c, s)
  }

  function FetchOf(loggedIn: bool, c: Config, script: seq<Outcome>): FetchRun
  {
    FetchFlow(loggedIn, script, LoginWith(c), c.dataUrl, Redirected, false)
  }

  /** The result built from the data page: the summary and the ranking only when couples were found.
      `show` is Python's formatting of a percentage. */
  function ResultOf(c: Config, page: Page, show: real -> string): VoteResult
  {
    var listed := page.couples != map[];
    VoteResult(Some(c.dataUrl), Some(page.category), page.chart, page.couples,
               if listed then Some(SummaryOf(page.chart, page.couples)) else None,
               if listed then Some(Ranking(SummaryOf(page.chart, page.couples), show)) else None)
  }

  class Scraper {
    var isLoggedIn: bool
    const session: Session
    const config: Config
    const show: real -> string

    constructor (session: Session, config: Config, show: real -> string)
      ensures !isLoggedIn && this.session == session && this.config == config && this.show == show
    {
      isLoggedIn := false;
      this.session := session;
      this.config := config;
      this.show := show;
    }

    method Login() returns (ok: bool)
      modifies this, session
      ensures var run := LoginOf(config, old(session.script));
              ok == run.ok && session.log == old(session.log) + run.requests && session.script == run.rest
      ensures isLoggedIn == (ok || old(isLoggedIn))
    {
      var loginPage := LoginPageOf(config);
      var page := session.Send(Get(loginPage));
      if page.NetworkError? {
        return false;
      }
      var payload := Payload(config);
      var response := session.Send(Post(config.loginUrl, payload));
      if response.NetworkError? {
        return false;
      }
      if LoginAccepted(response.response) {
        isLoggedIn := true;
        return true;
      }
      return false;
    }

    /** The requests of `fetch_vote_data()` once logged in. */
    method Retrieve() returns (response: Option<Response>)
      requires isLoggedIn
      modifies this, session
      ensures var run := RetryFlow(old(session.script), LoginWith(config), config.dataUrl, Redirected, false);
              response == run.result && isLoggedIn == run.loggedIn
              && session.log == old(session.log) + run.requests && session.script == run.rest
    {
      ghost var before := session.log;
      var outcome := session.Send(Get(config.dataUrl));
      if outcome.Reply? && Redirected(outcome.response) {
        ghost var again := LoginOf(config, session.script);
        isLoggedIn := false;
        var ok := Login();
        AppendRequests(before, [Get(config.dataUrl)], again.requests);
        if !ok {
          return None;
        }
        outcome := session.Send(Get(config.dataUrl));
        AppendRequests(before, [Get(config.dataUrl)] + again.requests, [Get(config.dataUrl)]);
      }
      if outcome.NetworkError? {
        return None;
      }
      return Some(outcome.response);
    }

    /** The requests of `fetch_vote_data()`: the data response it goes on to parse, if any. */
    method FetchPage() returns (response: Option<Response>)
      modifies this, session
      ensures var run := FetchOf(old(isLoggedIn), config, old(session.script));
              response == run.result && isLoggedIn == run.loggedIn
              && session.log == old(session.log) + run.requests && session.script == run.rest
    {
      if isLoggedIn {
        response := Retrieve();
      } else {
        response := LoginThenRetrieve();
      }
    }

    /** The requests of `fetch_vote_data()` when not logged in. */
    method LoginThenRetrieve() returns (response: Option<Response>)
      requires !isLoggedIn
      modifies this, session
      ensures var run := AfterLogin(LoginOf(config, old(session.script)), LoginWith(config), config.dataUrl, Redirected, false);
              response == run.result && isLoggedIn == run.loggedIn
              && session.log == old(session.log) + run.requests && session.script == run.rest
    {
      ghost var first := LoginOf(config, session.script);
      ghost var before := session.log;
      var ok := Login();
      if !ok {
        return None;
      }
      response := Retrieve();
      AppendRequests(before, first.requests, RetryFlow(first.rest, LoginWith(config), config.dataUrl, Redirected, false).requests);
    }

    /** `fetch_vote_data()`. */
    method FetchVoteData() returns (r: Option<VoteResult>)
      modifies this, session
      ensures var run := FetchOf(old(isLoggedIn), config, old(session.script));
              && (r == if run.result.Some? then Some(ResultOf(config, run.result.value.page, show)) else None)
              && isLoggedIn == run.loggedIn
              && session.log == old(session.log) + run.requests && session.script == run.rest
    {
      var response := FetchPage();
      if response.None? {
        return None;
      }
      var result := BuildResult(config, response.value.page, show);
      r := Some(result);
    }
  }

  /** The part of `fetch_vote_data()` after the requests. */
  method BuildResult(c: Config, page: Page, show: real -> string) returns (result: VoteResult)
    ensures result == ResultOf(c, page, show)
  {
    var couples := page.couples;
    result := VoteResult(Some(c.dataUrl), Some(page.category), page.chart, couples, None, None);
    if couples != map[] {
      var summary := BuildSummary(page.chart, couples);
      result := result.(summary := Some(summary), ranking := Some(Ranking(summary, show)));
    }
  }

  /** Summary and ranking come together, exactly when couples are listed, with one entry and one
      line per chart label, and line `i` naming the `i`-th entry of the summary. */
  lemma ResultShape(c: Config, page: Page, show: real -> string)
    ensures ResultOf(c, page, show).summary.Some? <==> page.couples != map[]
    ensures ResultOf(c, page, show).ranking.Some? <==> page.couples != map[]
    ensures page.couples != map[] ==>
              |ResultOf(c, page, show).summary.value| == |page.chart.labels|
              && |ResultOf(c, page, show).ranking.value| == |page.chart.labels|
              && multiset(Codes(ResultOf(c, page, show).summary.value)) == multiset(page.chart.labels)
  {
    SummaryIsRanking(page.chart, page.couples);
  }

  lemma LoginSendsNoDataGet(c: Config, script: seq<Outcome>)
    requires LoginPageOf(c) != c.dataUrl
    ensures Gets(LoginOf(c, script).requests, c.dataUrl) == 0
  {
    var requests := LoginOf(c, script).requests;
    assert Gets([Get(LoginPageOf(c))], c.dataUrl) == 0 by {
      assert [Get(LoginPageOf(c))][..0] == [];
    }
    if |requests| == 2 {
      assert requests[..1] == [Get(LoginPageOf(c))];
      assert requests[1].Post?;
    }
  }

  /** At most two logins and two data GETs per fetch; none of the data when the first login fails. */
  lemma FetchBounds(loggedIn: bool, c: Config, script: seq<Outcome>)
    requires LoginPageOf(c) != c.dataUrl
    ensures FetchOf(loggedIn, c, script).logins <= 2
    ensures Gets(FetchOf(loggedIn, c, script).requests, c.dataUrl) <= 2
    ensures !loggedIn && !LoginOf(c, script).ok ==> Gets(FetchOf(loggedIn, c, script).requests, c.dataUrl) == 0
  {
    var login := LoginWith(c);
    forall s ensures Gets(login(s).requests, c.dataUrl) == 0 {
      LoginSendsNoDataGet(c, s);
    }
    FetchLogins(loggedIn, script, login, c.dataUrl, Redirected, false);
    FetchGets(loggedIn, script, login, c.dataUrl, Redirected, false);
  }
}
