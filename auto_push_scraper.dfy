/** scraper_auto_push.py's `VoteScraper`: the same site, URLs and login check as dashboard.py's
    scraper, with the credentials of its `CONFIG`, but no test for missing credentials, and a result
    that always carries the summary and never a URL, category or ranking. */
module AutoPushScraper {
  import opened Wrappers
  import opened Strings
  import opened Transport
  import opened VoteSummary
  import opened DashboardScraper

  /** `login()`: GET the login page and POST the credentials, whatever they are; a network error on
      either fails it. */
  function PushLoginOf(username: string, password: string, script: seq<Outcome>): (run: LoginRun)
    ensures 1 <= |run.requests| <= 2
  {
    var page := Head(script);
    if page.NetworkError? then LoginRun(false, [Get(LoginPage)], Tail(script))
    else
      var posted := Head(Tail(script));
      LoginRun(posted.Reply? && LoginAccepted(posted.response),
               [Get(LoginPage), Post(LoginUrl, map["username" := username, "userpassword" := password])],
               Tail(Tail(script)))
  }

  /** With both credentials given the login is dashboard.py's; with one missing it still sends the
      form, where dashboard.py sends nothing. */
  lemma LoginLikeDashboard(username: string, password: string, script: seq<Outcome>)
    ensures username != "" && password != "" ==>
              PushLoginOf(username, password, script) == DashboardScraper.LoginOf(username, password, script)
    ensures (username == "" || password == "") ==>
              PushLoginOf(username, password, script).requests[0] == Get(LoginPage)
              && DashboardScraper.LoginOf(username, password, script).requests == []
  {
  }

  /** `login()` as a function of the session's script. */
  function PushLoginWith(username: string, password: string): seq<Outcome> -> LoginRun
  {
    s => PushLoginOf(username, password, s)
  }

  function PushFetchOf(loggedIn: bool, username: string, password: string, script: seq<Outcome>): FetchRun
  {
    FetchFlow(loggedIn, script, PushLoginWith(username, password), DataUrl, Redirected, false)
  }

  /** The result built from the data page: votes, couples and the summary, always. */
  function PushResultOf(page: Page): VoteResult
  {
    VoteResult(None, None, page.chart, page.couples, Some(SummaryOf(page.chart, page.couples)), None)
  }

  class PushScraper {
    var isLoggedIn: bool
    const session: Session
    /** `CONFIG['username']` and `CONFIG['password']`. */
    const username: string
    const password: string

    constructor (session: Session, username: string, password: string)
      ensures !isLoggedIn && this.session == session && this.username == username && this.password == password
    {
      isLoggedIn := false;
      this.session := session;
      this.username := username;
      this.password := password;
    }

    method Login() returns (ok: bool)
      modifies this, session
      ensures var run := PushLoginOf(username, password, old(session.script));
              ok == run.ok && session.log == old(session.log) + run.requests && session.script == run.rest
      ensures isLoggedIn == (ok || old(isLoggedIn))
    {
      var page := session.Send(Get(LoginPage));
      if page.NetworkError? {
        return false;
      }
      var payload := map["username" := username, "userpassword" := password];
      var response := session.Send(Post(LoginUrl, payload));
      if response.NetworkError? {
        return false;
      }
      if LoginAccepted(response.response) {
        isLoggedIn := true;
        return true;
      }
      return false;
    }

    /** The requests of `fetch_data()` once logged in. */
    method Retrieve() returns (response: Option<Response>)
      requires isLoggedIn
      modifies this, session
      ensures var run := RetryFlow(old(session.script), PushLoginWith(username, password), DataUrl, Redirected, false);
              response == run.result && isLoggedIn == run.loggedIn
              && session.log == old(session.log) + run.requests && session.script == run.rest
    {
      ghost var before := session.log;
      var outcome := session.Send(Get(DataUrl));
      if outcome.Reply? && Redirected(outcome.response) {
        ghost var again := PushLoginOf(username, password, session.script);
        isLoggedIn := false;
        var ok := Login();
        AppendRequests(before, [Get(DataUrl)], again.requests);
        if !ok {
          return None;
        }
        outcome := session.Send(Get(DataUrl));
        AppendRequests(before, [Get(DataUrl)] + again.requests, [Get(DataUrl)]);
      }
      if outcome.NetworkError? {
        return None;
      }
      return Some(outcome.response);
    }

    /** The requests of `fetch_data()`: the data response it goes on to parse, if any. */
    method FetchPage() returns (response: Option<Response>)
      modifies this, session
      ensures var run := PushFetchOf(old(isLoggedIn), username, password, old(session.script));
              response == run.result && isLoggedIn == run.loggedIn
              && session.log == old(session.log) + run.requests && session.script == run.rest
    {
      if isLoggedIn {
        response := Retrieve();
      } else {
        response := LoginThenRetrieve();
      }
    }

    /** The requests of `fetch_data()` when not logged in. */
    method LoginThenRetrieve() returns (response: Option<Response>)
      requires !isLoggedIn
      modifies this, session
      ensures var run := AfterLogin(PushLoginOf(username, password, old(session.script)), PushLoginWith(username, password), DataUrl, Redirected, false);
              response == run.result && isLoggedIn == run.loggedIn
              && session.log == old(session.log) + run.requests && session.script == run.rest
    {
      ghost var first := PushLoginOf(username, password, session.script);
      ghost var before := session.log;
      var ok := Login();
      if !ok {
        return None;
      }
      response := Retrieve();
      AppendRequests(before, first.requests, RetryFlow(first.rest, PushLoginWith(username, password), DataUrl, Redirected, false).requests);
    }

    /** `fetch_data()`. */
    method FetchData() returns (r: Option<VoteResult>)
      modifies this, session
      ensures var run := PushFetchOf(old(isLoggedIn), username, password, old(session.script));
              && (r == if run.result.Some? then Some(PushResultOf(run.result.value.page)) else None)
              && isLoggedIn == run.loggedIn
              && session.log == old(session.log) + run.requests && session.script == run.rest
    {
      var response := FetchPage();
      if response.None? {
        return None;
      }
      var summary := BuildSummary(response.value.page.chart, response.value.page.couples);
      r := Some(VoteResult(None, None, response.value.page.chart, response.value.page.couples, Some(summary), None));
    }
  }

  /** Every fetched result holds one summary entry per chart label, sorted from the highest share,
      even when no couple is listed, when its names and series are empty. */
  lemma SummaryAlwaysPresent(page: Page)
    ensures PushResultOf(page).summary.Some?
    ensures |PushResultOf(page).summary.value| == |page.chart.labels|
    ensures multiset(Codes(PushResultOf(page).summary.value)) == multiset(page.chart.labels)
    ensures page.couples == map[] ==>
              forall k :: 0 <= k < |page.chart.labels| ==>
                PushResultOf(page).summary.value[k].names == "" && PushResultOf(page).summary.value[k].series == ""
  {
    SummaryIsRanking(page.chart, page.couples);
    var summary := PushResultOf(page).summary.value;
    if page.couples == map[] {
      forall k | 0 <= k < |page.chart.labels|
        ensures summary[k].names == "" && summary[k].series == ""
      {
        SummaryEntries(page.chart, page.couples, summary[k]);
      }
    }
  }

  lemma PushLoginSendsNoDataGet(username: string, password: string, script: seq<Outcome>)
    ensures Gets(PushLoginOf(username, password, script).requests, DataUrl) == 0
  {
    var requests := PushLoginOf(username, password, script).requests;
    assert LoginPage != DataUrl by { assert LoginPage[33] != DataUrl[33]; }
    assert Gets([Get(LoginPage)], DataUrl) == 0 by {
      assert [Get(LoginPage)][..0] == [];
    }
    if |requests| == 2 {
      assert requests[..1] == [Get(LoginPage)];
      assert requests[1].Post?;
    }
  }

  /** At most two logins and two data GETs per fetch; none of the data when the first login fails. */
  lemma PushFetchBounds(loggedIn: bool, username: string, password: string, script: seq<Outcome>)
    ensures PushFetchOf(loggedIn, username, password, script).logins <= 2
    ensures Gets(PushFetchOf(loggedIn, username, password, script).requests, DataUrl) <= 2
    ensures !loggedIn && !PushLoginOf(username, password, script).ok ==>
              Gets(PushFetchOf(loggedIn, username, password, script).requests, DataUrl) == 0
  {
    var login := PushLoginWith(username, password);
    forall s ensures Gets(login(s).requests, DataUrl) == 0 {
      PushLoginSendsNoDataGet(username, password, s);
    }
    FetchLogins(loggedIn, script, login, DataUrl, Redirected, false);
    FetchGets(loggedIn, script, login, DataUrl, Redirected, false);
  }
}
