/** The HTTP side of the scrapers, with the network replaced by a scripted oracle.

    A `Session` (the scrapers' `requests.Session`) answers each request with the next outcome of its
    script: a response, as the scrapers see it after redirects, or a network error (which `requests`
    raises as an exception). Every request is appended to the session's log. The parts of a page the
    scrapers extract with BeautifulSoup and regular expressions come with the page, already extracted.

    `FetchFlow` is the specification of the fetch-with-one-retry shared by the four scrapers: log in
    when not logged in, GET the data page, and when that lands on the login page, log in once more and
    GET the data page once more, using that second response unchecked. */
module Transport {
  import opened Wrappers

  /** An `<input type="hidden">`: its `name` and `value` attributes, each possibly absent. */
  datatype HiddenInput = HiddenInput(name: Option<string>, value: Option<string>)

  /** The Chart.js `labels` and `data` arrays of the vote page. */
  datatype ChartData = ChartData(labels: seq<string>, data: seq<real>)

  /** A couple's names and series, as listed on the vote page. */
  datatype Couple = Couple(names: string, series: string)

  /** What the scrapers read from a page: its text (`soup.get_text()`), its hidden inputs, the
      `content` of a csrf `<meta>` tag when there is one, the chart data, the couples by code, and the
      category heading. */
  datatype Page = Page(text: string, hiddenInputs: seq<HiddenInput>, csrfMeta: Option<Option<string>>,
                       chart: ChartData, couples: map<string, Couple>, category: string)

  /** A response after redirects: final URL, status code, the names in the session's cookie jar, page. */
  datatype Response = Response(url: string, status: int, cookies: set<string>, page: Page)

  datatype Outcome = Reply(response: Response) | NetworkError

  datatype Request = Get(url: string) | Post(url: string, form: map<string, string>)

  /** The next outcome; an exhausted script behaves like a network that no longer answers. */
  function Head(script: seq<Outcome>): Outcome
  {
    if script == [] then NetworkError else script[0]
  }

  function Tail(script: seq<Outcome>): (rest: seq<Outcome>)
    ensures |rest| <= |script|
  {
    if script == [] then [] else script[1..]
  }

  /** `raise_for_status()` raises for a client or server error status. */
  predicate HttpError(status: int)
  {
    400 <= status < 600
  }

  class Session {
    var script: seq<Outcome>
    var log: seq<Request>

    constructor (script: seq<Outcome>)
      ensures this.script == script && log == []
    {
      this.script := script;
      log := [];
    }

    /** Send one request; the answer is the next outcome of the script. */
    method Send(request: Request) returns (outcome: Outcome)
      modifies this
      ensures outcome == Head(old(script)) && script == Tail(old(script))
      ensures log == old(log) + [request]
    {
      outcome := Head(script);
      script := Tail(script);
      log := log + [request];
    }
  }

  /** One call of a scraper's `login()`: whether it returned True, the requests it sent, and the
      script left over. */
  datatype LoginRun = LoginRun(ok: bool, requests: seq<Request>, rest: seq<Outcome>)

  /** One call of a scraper's fetch method: the data response it goes on to parse (None when it
      returns None), `is_logged_in` afterwards, how many times it called `login()`, the requests it
      sent, and the script left over. */
  datatype FetchRun = FetchRun(result: Option<Response>, loggedIn: bool, logins: nat, requests: seq<Request>,
                               rest: seq<Outcome>)

  /** The data response that is parsed: none after a network error, none after an error status
      when the scraper calls `raise_for_status()`. */
  function Final(outcome: Outcome, checkStatus: bool): Option<Response>
  {
    if outcome.NetworkError? then None
    else if checkStatus && HttpError(outcome.response.status) then None
    else Some(outcome.response)
  }

  /** The fetch once logged in: GET the data page and, when that lands on the login page, log in
      once more and GET the data page once more. */
  function RetryFlow(script: seq<Outcome>, login: seq<Outcome> -> LoginRun, dataUrl: string,
                     redirected: Response -> bool, checkStatus: bool): FetchRun
  {
    var outcome := Head(script);
    if outcome.Reply? && redirected(outcome.response) then
      var again := login(Tail(script));
      if !again.ok then
        FetchRun(None, false, 1, [Get(dataUrl)] + again.requests, again.rest)
      else
        FetchRun(Final(Head(again.rest), checkStatus), true, 1, [Get(dataUrl)] + again.requests + [Get(dataUrl)],
                 Tail(again.rest))
    else
      FetchRun(Final(outcome, checkStatus), true, 0, [Get(dataUrl)], Tail(script))
  }

  /** The fetch with one retry, for a scraper whose `login()` behaves as `login`, whose data page is
      `dataUrl` and which takes a response for a bounce to the login page when `redirected` holds:
      log in first when not logged in, giving up when that fails. */
  function FetchFlow(loggedIn: bool, script: seq<Outcome>, login: seq<Outcome> -> LoginRun, dataUrl: string,
                     redirected: Response -> bool, checkStatus: bool): FetchRun
  {
    if loggedIn then RetryFlow(script, login, dataUrl, redirected, checkStatus)
    else AfterLogin(login(script), login, dataUrl, redirected, checkStatus)
  }

  /** The fetch after a first login that went as `first`. */
  function AfterLogin(first: LoginRun, login: seq<Outcome> -> LoginRun, dataUrl: string,
                      redirected: Response -> bool, checkStatus: bool): FetchRun
  {
    if !first.ok then FetchRun(None, false, 1, first.requests, first.rest)
    else
      var run := RetryFlow(first.rest, login, dataUrl, redirected, checkStatus);
      FetchRun(run.result, run.loggedIn, run.logins + 1, first.requests + run.requests, run.rest)
  }

  lemma AppendRequests(log: seq<Request>, first: seq<Request>, next: seq<Request>)
    ensures log + first + next == log + (first + next)
  {
  }

  /** How many GETs of `url` the requests hold. */
  function Gets(requests: seq<Request>, url: string): nat
  {
    if requests == [] then 0
    else Gets(requests[..|requests| - 1], url) + (if requests[|requests| - 1] == Get(url) then 1 else 0)
  }

  lemma {:induction false} GetsAppend(a: seq<Request>, b: seq<Request>, url: string)
    ensures Gets(a + b, url) == Gets(a, url) + Gets(b, url)
    decreases |b|
  {
    if b == [] {
      assert a + b == a;
    } else {
      assert (a + b)[..|a + b| - 1] == a + b[..|b| - 1];
      GetsAppend(a, b[..|b| - 1], url);
    }
  }

  /** A login that sends no GET of the data page. */
  ghost predicate LeavesDataPage(login: seq<Outcome> -> LoginRun, dataUrl: string)
  {
    forall script :: Gets(login(script).requests, dataUrl) == 0
  }

  /** `login()` is called at most twice, and at most once when already logged in. */
  lemma FetchLogins(loggedIn: bool, script: seq<Outcome>, login: seq<Outcome> -> LoginRun, dataUrl: string,
                    redirected: Response -> bool, checkStatus: bool)
    ensures FetchFlow(loggedIn, script, login, dataUrl, redirected, checkStatus).logins <= 2
    ensures loggedIn ==> FetchFlow(loggedIn, script, login, dataUrl, redirected, checkStatus).logins <= 1
  {
  }

  /** Once logged in, one or two GETs of the data page. */
  lemma {:induction false} RetryGets(script: seq<Outcome>, login: seq<Outcome> -> LoginRun, dataUrl: string,
                                     redirected: Response -> bool, checkStatus: bool)
    requires LeavesDataPage(login, dataUrl)
    ensures 1 <= Gets(RetryFlow(script, login, dataUrl, redirected, checkStatus).requests, dataUrl) <= 2
  {
    assert Gets([Get(dataUrl)], dataUrl) == 1 by {
      assert [Get(dataUrl)][..0] == [];
    }
    var outcome := Head(script);
    if outcome.Reply? && redirected(outcome.response) {
      var again := login(Tail(script));
      assert Gets(again.requests, dataUrl) == 0;
      GetsAppend([Get(dataUrl)], again.requests, dataUrl);
      GetsAppend([Get(dataUrl)] + again.requests, [Get(dataUrl)], dataUrl);
    }
  }

  /** At most two GETs of the data page, and a failed first login sends none: the fetch then returns
      None having sent only the login's own requests. */
  lemma {:induction false} FetchGets(loggedIn: bool, script: seq<Outcome>, login: seq<Outcome> -> LoginRun, dataUrl: string,
                                     redirected: Response -> bool, checkStatus: bool)
    requires LeavesDataPage(login, dataUrl)
    ensures Gets(FetchFlow(loggedIn, script, login, dataUrl, redirected, checkStatus).requests, dataUrl) <= 2
    ensures !loggedIn && !login(script).ok ==>
              FetchFlow(loggedIn, script, login, dataUrl, redirected, checkStatus).requests == login(script).requests
              && Gets(FetchFlow(loggedIn, script, login, dataUrl, redirected, checkStatus).requests, dataUrl) == 0
  {
    assert Gets(login(script).requests, dataUrl) == 0;
    if loggedIn {
      RetryGets(script, login, dataUrl, redirected, checkStatus);
    } else if login(script).ok {
      var run := RetryFlow(login(script).rest, login, dataUrl, redirected, checkStatus);
      RetryGets(login(script).rest, login, dataUrl, redirected, checkStatus);
      GetsAppend(login(script).requests, run.requests, dataUrl);
    }
  }

  /** A parsed response means the scraper ends logged in; a failed re-login leaves it logged out. */
  lemma FetchLoggedIn(loggedIn: bool, script: seq<Outcome>, login: seq<Outcome> -> LoginRun, dataUrl: string,
                      redirected: Response -> bool, checkStatus: bool)
    ensures FetchFlow(loggedIn, script, login, dataUrl, redirected, checkStatus).result.Some? ==>
              FetchFlow(loggedIn, script, login, dataUrl, redirected, checkStatus).loggedIn
    ensures FetchFlow(loggedIn, script, login, dataUrl, redirected, checkStatus).logins == 2 ==>
              (FetchFlow(loggedIn, script, login, dataUrl, redirected, checkStatus).loggedIn
               <==> login(Tail(login(script).rest)).ok)
  {
  }

  /** There is no loop: after a successful re-login the second data response is used as it is, even
      when it bounces to the login page again. */
  lemma SecondResponseUnchecked(script: seq<Outcome>, login: seq<Outcome> -> LoginRun, dataUrl: string,
                                redirected: Response -> bool, r1: Response, r2: Response)
    requires Head(script) == Reply(r1) && redirected(r1) && redirected(r2)
    requires login(Tail(script)).ok && Head(login(Tail(script)).rest) == Reply(r2)
    ensures FetchFlow(true, script, login, dataUrl, redirected, false).result == Some(r2)
    ensures FetchFlow(true, script, login, dataUrl, redirected, false).logins == 1
  {
  }
}
