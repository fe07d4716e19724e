/** scraper.py's `WebScraper`: a configurable scraper for a site behind a login form. The login
    first reads the form's hidden fields (a csrf token among them) from the login page, posts them
    together with the credentials, and judges the outcome by the final URL, the session cookies and
    the error messages on the page. The fetch retries once after a bounce to the login page and
    gives up on an error status. */
module WebScraper {
  import opened Wrappers
  import opened Strings
  import opened Transport
  import opened VoteSummary

  /** The configuration keys the login and the fetch read; an absent optional key is None. */
  datatype Config = Config(loginUrl: string, loginPage: Option<string>, dataUrl: string,
                           username: string, password: string,
                           usernameField: Option<string>, passwordField: Option<string>)

  /** `config.get('login_page', login_url)`: the page the redirect and success checks look for. */
  function LoginPageOf(c: Config): string
  {
    if c.loginPage.Some? then c.loginPage.value else c.loginUrl
  }

  /** `url or config.get('login_page') or config['login_url']`: empty strings fall through. */
  function PageUrl(c: Config, url: string): (page: string)
    ensures page == url || page == c.loginUrl || c.loginPage == Some(page)
    ensures url != "" ==> page == url
  {
    if url != "" then url
    else if c.loginPage.Some? && c.loginPage.value != "" then c.loginPage.value
    else c.loginUrl
  }

  function UsernameField(c: Config): string
  {
    if c.usernameField.Some? then c.usernameField.value else "username"
  }

  function PasswordField(c: Config): string
  {
    if c.passwordField.Some? then c.passwordField.value else "password"
  }

  // ---------------------------------------------------------------------------------------------
  // Hidden fields and the csrf token

  /** An input with a non-empty `name` attribute; the others are skipped. */
  predicate Named(h: HiddenInput)
  {
    h.name.Some? && h.name.value != ""
  }

  /** `hidden.get('value', '')`. */
  function ValueOf(h: HiddenInput): string
  {
    if h.value.Some? then h.value.value else ""
  }

  /** The map the hidden-input loop builds: each named input sets its name to its value, in page order. */
  function HiddenOf(inputs: seq<HiddenInput>): map<string, string>
    decreases |inputs|
  {
    if inputs == [] then map[]
    else
      var last := inputs[|inputs| - 1];
      var before := HiddenOf(inputs[..|inputs| - 1]);
      if Named(last) then before[last.name.value := ValueOf(last)] else before
  }

  /** The hidden fields with a csrf `<meta>` tag's `content` (default empty) stored under `_token`. */
  function CsrfFields(page: Page): map<string, string>
  {
    var fields := HiddenOf(page.hiddenInputs);
    if page.csrfMeta.Some? then
      fields["_token" := if page.csrfMeta.value.Some? then page.csrfMeta.value.value else ""]
    else fields
  }

  /** `get_csrf_token()`'s answer for the login page's outcome: nothing after a network error or an
      error status. */
  function CsrfOf(outcome: Outcome): map<string, string>
  {
    if outcome.NetworkError? || HttpError(outcome.response.status) then map[]
    else CsrfFields(outcome.response.page)
  }

  /** The loop over the hidden inputs and the `<meta>` override. */
  method HiddenFields(page: Page) returns (fields: map<string, string>)
    ensures fields == CsrfFields(page)
  {
    fields := map[];
    var inputs := page.hiddenInputs;
    for i := 0 to |inputs|
      invariant fields == HiddenOf(inputs[..i])
    {
      var hidden := inputs[i];
      var name := hidden.name;
      var value := if hidden.value.Some? then hidden.value.value else "";
      if name.Some? && name.value != "" {
        fields := fields[name.value := value];
      }
      assert inputs[..i + 1][..i] == inputs[..i];
    }
    assert inputs[..|inputs|] == inputs;
    var meta := page.csrfMeta;
    if meta.Some? {
      fields := fields["_token" := if meta.value.Some? then meta.value.value else ""];
    }
  }

  /** A name is a key exactly when some input carries it. */
  lemma {:induction false} HiddenKeys(inputs: seq<HiddenInput>, key: string)
    ensures key in HiddenOf(inputs) <==>
              exists i :: 0 <= i < |inputs| && Named(inputs[i]) && inputs[i].name.value == key
    decreases |inputs|
  {
    if inputs != [] {
      var n := |inputs| - 1;
      var prefix := inputs[..n];
      HiddenKeys(prefix, key);
      if key in HiddenOf(prefix) {
        var i :| 0 <= i < |prefix| && Named(prefix[i]) && prefix[i].name.value == key;
        assert inputs[i] == prefix[i];
      }
      if exists i :: 0 <= i < |inputs| && Named(inputs[i]) && inputs[i].name.value == key {
        var i :| 0 <= i < |inputs| && Named(inputs[i]) && inputs[i].name.value == key;
        if i < n {
          assert prefix[i] == inputs[i];
        }
      }
    }
  }

  /** The last input with a name gives that name its value. */
  lemma {:induction false} HiddenLastWins(inputs: seq<HiddenInput>, i: nat)
    requires i < |inputs| && Named(inputs[i])
    requires forall j :: i < j < |inputs| ==> inputs[j].name != inputs[i].name
    ensures inputs[i].name.value in HiddenOf(inputs)
    ensures HiddenOf(inputs)[inputs[i].name.value] == ValueOf(inputs[i])
    decreases |inputs|
  {
    var n := |inputs| - 1;
    if i < n {
      var prefix := inputs[..n];
      assert prefix[i] == inputs[i];
      forall j | i < j < |prefix|
        ensures prefix[j].name != prefix[i].name
      {
        assert prefix[j] == inputs[j];
      }
      HiddenLastWins(prefix, i);
    }
  }

  /** A csrf `<meta>` tag decides `_token`, whatever the hidden inputs say; without one the inputs
      alone make the fields. */
  lemma MetaDecidesToken(page: Page)
    ensures page.csrfMeta == Some(None) ==> CsrfFields(page)["_token"] == ""
    ensures page.csrfMeta.Some? && page.csrfMeta.value.Some? ==>
              CsrfFields(page)["_token"] == page.csrfMeta.value.value
    ensures page.csrfMeta.None? ==> CsrfFields(page) == HiddenOf(page.hiddenInputs)
  {
  }

  // ---------------------------------------------------------------------------------------------
  // The login payload

  /** The credentials under their field names, with the hidden fields spread over them. */
  function Payload(c: Config, hidden: map<string, string>): map<string, string>
  {
    map[UsernameField(c) := c.username][PasswordField(c) := c.password] + hidden
  }

  /** The payload holds the two credential fields and the hidden fields; a hidden field wins over a
      credential of the same name, and the password wins over a username field of the same name. */
  lemma PayloadFields(c: Config, hidden: map<string, string>)
    ensures Payload(c, hidden).Keys == {UsernameField(c), PasswordField(c)} + hidden.Keys
    ensures forall k :: k in hidden ==> Payload(c, hidden)[k] == hidden[k]
    ensures PasswordField(c) !in hidden ==> Payload(c, hidden)[PasswordField(c)] == c.password
    ensures UsernameField(c) !in hidden && UsernameField(c) != PasswordField(c) ==>
              Payload(c, hidden)[UsernameField(c)] == c.username
  {
  }

  // ---------------------------------------------------------------------------------------------
  // The login check

  /** The error messages looked for on the page ("error", "incorrect", "invalid", "error", "failed",
      "incorrect" — the first and last in Thai). */
  const ErrorKeywords: seq<string> := [
    "\U{0E1C}\U{0E34}\U{0E14}\U{0E1E}\U{0E25}\U{0E32}\U{0E14}",
    "incorrect", "invalid", "error", "failed",
    "\U{0E44}\U{0E21}\U{0E48}\U{0E16}\U{0E39}\U{0E01}\U{0E15}\U{0E49}\U{0E2D}\U{0E07}"
  ]

  /** A response still at the login form or the login action: the URL contains either. */
  predicate Redirected(c: Config, response: Response)
  {
    Contains(response.url, c.loginUrl) || Contains(response.url, LoginPageOf(c))
  }

  predicate SessionCookie(cookies: set<string>)
  {
    "session" in cookies || "PHPSESSID" in cookies || "laravel_session" in cookies
  }

  /** The lowercased page text shows one of the error messages. */
  predicate ErrorShown(text: string)
  {
    exists k :: 0 <= k < |ErrorKeywords| && Contains(Lower(text), ErrorKeywords[k])
  }

  /** `_check_login_success`: left the login pages, or holds a session cookie, or shows no error. */
  predicate LoginSucceeded(c: Config, response: Response)
  {
    !Redirected(c, response) || SessionCookie(response.cookies) || !ErrorShown(response.page.text)
  }

  /** A page at the login form with no session cookie that says "Invalid password" is a failed login,
      the capital letter notwithstanding. */
  lemma InvalidPasswordFails(c: Config, cookies: set<string>, page: Page)
    requires page.text == "Invalid password" && !SessionCookie(cookies)
    ensures !LoginSucceeded(c, Response(c.loginUrl, 200, cookies, page))
  {
    assert Contains(c.loginUrl, c.loginUrl) by {
      assert c.loginUrl[..|c.loginUrl|] == c.loginUrl;
    }
    assert Lower(page.text) == "invalid" + " password";
    ContainsAfter("", "invalid", " password");
    assert ErrorKeywords[2] == "invalid";
  }

  /** Leaving the login pages is enough; at the login pages a session cookie is enough; otherwise
      any error message on the page fails the login. */
  lemma LoginSucceededCases(c: Config, response: Response)
    ensures !Redirected(c, response) ==> LoginSucceeded(c, response)
    ensures SessionCookie(response.cookies) ==> LoginSucceeded(c, response)
    ensures Redirected(c, response) && !SessionCookie(response.cookies) ==>
              (LoginSucceeded(c, response) <==>
               forall k :: 0 <= k < |ErrorKeywords| ==> !Contains(Lower(response.page.text), ErrorKeywords[k]))
  {
  }

  // ---------------------------------------------------------------------------------------------
  // Login and fetch

  /** `login()`: GET the form (a failure there only loses the hidden fields), POST the payload, and a
      network error on the POST fails the login. */
  function LoginOf(c: Config, script: seq<Outcome>): (run: LoginRun)
    ensures |run.requests| == 2
  {
    var hidden := CsrfOf(Head(script));
    var posted := Head(Tail(script));
    LoginRun(posted.Reply? && LoginSucceeded(c, posted.response),
             [Get(PageUrl(c, LoginPageOf(c))), Post(c.loginUrl, Payload(c, hidden))], Tail(Tail(script)))
  }

  /** `login()` as a function of the session's script. */
  function LoginWith(c: Config): seq<Outcome> -> LoginRun
  {
    s => LoginOf(c, s)
  }

  /** The redirect check as a function of the response. */
  function BouncedBy(c: Config): Response -> bool
  {
    r => Redirected(c, r)
  }

  function FetchOf(loggedIn: bool, c: Config, script: seq<Outcome>): FetchRun
  {
    FetchFlow(loggedIn, script, LoginWith(c), c.dataUrl, BouncedBy(c), true)
  }

  class Scraper {
    var isLoggedIn: bool
    const session: Session
    const config: Config

    constructor (session: Session, config: Config)
      ensures !isLoggedIn && this.session == session && this.config == config
    {
      isLoggedIn := false;
      this.session := session;
      this.config := config;
    }

    /** `get_csrf_token(url)`. */
    method GetCsrfToken(url: string) returns (fields: map<string, string>)
      modifies session
      ensures fields == CsrfOf(Head(old(session.script)))
      ensures session.log == old(session.log) + [Get(PageUrl(config, url))]
      ensures session.script == Tail(old(session.script))
    {
      var pageUrl := if url != "" then url
                     else if config.loginPage.Some? && config.loginPage.value != "" then config.loginPage.value
                     else config.loginUrl;
      var response := session.Send(Get(pageUrl));
      if response.NetworkError? || HttpError(response.response.status) {
        return map[];
      }
      fields := HiddenFields(response.response.page);
    }

    /** `_check_login_success(response)`, with its loop over the error messages. */
    method CheckLoginSuccess(response: Response) returns (ok: bool)
      ensures ok == LoginSucceeded(config, response)
    {
      var loginPage := LoginPageOf(config);
      if !Contains(response.url, config.loginUrl) && !Contains(response.url, loginPage) {
        return true;
      }
      var cookies := response.cookies;
      if "session" in cookies || "PHPSESSID" in cookies || "laravel_session" in cookies {
        return true;
      }
      var pageText := Lower(response.page.text);
      for k := 0 to |ErrorKeywords|
        invariant forall j :: 0 <= j < k ==> !Contains(pageText, ErrorKeywords[j])
      {
        if Contains(pageText, ErrorKeywords[k]) {
          return false;
        }
      }
      return true;
    }

    method Login() returns (ok: bool)
      modifies this, session
      ensures var run := LoginOf(config, old(session.script));
              ok == run.ok && session.log == old(session.log) + run.requests && session.script == run.rest
      ensures isLoggedIn == (ok || old(isLoggedIn))
    {
      var loginPage := LoginPageOf(config);
      var hiddenFields := GetCsrfToken(loginPage);
      var payload := Payload(config, hiddenFields);
      var response := session.Send(Post(config.loginUrl, payload));
      if response.NetworkError? {
        return false;
      }
      ok := CheckLoginSuccess(response.response);
      if ok {
        isLoggedIn := true;
      }
    }

    /** The requests of `fetch_data()` once logged in. */
    method Retrieve() returns (response: Option<Response>)
      requires isLoggedIn
      modifies this, session
      ensures var run := RetryFlow(old(session.script), LoginWith(config), config.dataUrl,
                                   BouncedBy(config), true);
              response == run.result && isLoggedIn == run.loggedIn
              && session.log == old(session.log) + run.requests && session.script == run.rest
    {
      ghost var before := session.log;
      var outcome := session.Send(Get(config.dataUrl));
      if outcome.Reply? && Redirected(config, outcome.response) {
        ghost var again := LoginOf(config, session.script);
        isLoggedIn := false;
        var ok := Login();
        AppendRequests(before, [Get(config.dataUrl)], again.requests);
        if !ok {
          return None;
        }
        outcome := session.Send(Get(config.dataUrl));
        AppendRequests(before, [Get(config.dataUrl)] + again.requests, [Get(config.dataUrl)]);
      }
      if outcome.NetworkError? || HttpError(outcome.response.status) {
        return None;
      }
      return Some(outcome.response);
    }

    /** `fetch_data()`: the response its data is extracted from, if any. */
    method FetchData() returns (response: Option<Response>)
      modifies this, session
      ensures var run := FetchOf(old(isLoggedIn), config, old(session.script));
              response == run.result && isLoggedIn == run.loggedIn
              && session.log == old(session.log) + run.requests && session.script == run.rest
    {
      if isLoggedIn {
        response := Retrieve();
      } else {
        response := LoginThenRetrieve();
      }
    }

    /** The requests of `fetch_data()` when not logged in. */
    method LoginThenRetrieve() returns (response: Option<Response>)
      requires !isLoggedIn
      modifies this, session
      ensures var run := AfterLogin(LoginOf(config, old(session.script)), LoginWith(config), config.dataUrl, BouncedBy(config), true);
              response == run.result && isLoggedIn == run.loggedIn
              && session.log == old(session.log) + run.requests && session.script == run.rest
    {
      ghost var first := LoginOf(config, session.script);
      ghost var before := session.log;
      var ok := Login();
      if !ok {
        return None;
      }
      response := Retrieve();
      AppendRequests(before, first.requests, RetryFlow(first.rest, LoginWith(config), config.dataUrl, BouncedBy(config), true).requests);
    }
  }

  /** The login's own requests do not fetch the data page, when the form is not the data page. */
  lemma LoginSendsNoDataGet(c: Config, script: seq<Outcome>)
    requires PageUrl(c, LoginPageOf(c)) != c.dataUrl
    ensures Gets(LoginOf(c, script).requests, c.dataUrl) == 0
  {
    var requests := LoginOf(c, script).requests;
    assert Gets([Get(PageUrl(c, LoginPageOf(c)))], c.dataUrl) == 0 by {
      assert [Get(PageUrl(c, LoginPageOf(c)))][..0] == [];
    }
    assert requests[..1] == [Get(PageUrl(c, LoginPageOf(c)))];
    assert requests[1].Post?;
  }

  /** At most two logins and two data GETs per fetch; none of the data when the first login fails. */
  lemma FetchBounds(loggedIn: bool, c: Config, script: seq<Outcome>)
    requires PageUrl(c, LoginPageOf(c)) != c.dataUrl
    ensures FetchOf(loggedIn, c, script).logins <= 2
    ensures Gets(FetchOf(loggedIn, c, script).requests, c.dataUrl) <= 2
    ensures !loggedIn && !LoginOf(c, script).ok ==> Gets(FetchOf(loggedIn, c, script).requests, c.dataUrl) == 0
  {
    var login := LoginWith(c);
    forall s ensures Gets(login(s).requests, c.dataUrl) == 0 {
      LoginSendsNoDataGet(c, s);
    }
    FetchLogins(loggedIn, script, login, c.dataUrl, BouncedBy(c), true);
    FetchGets(loggedIn, script, login, c.dataUrl, BouncedBy(c), true);
  }

  /** Unlike the other scrapers, an error status on the data page gives no data, and the scraper
      stays logged in. */
  lemma ErrorStatusGivesNothing(c: Config, script: seq<Outcome>, r: Response)
    requires Head(script) == Reply(r) && !Redirected(c, r) && HttpError(r.status)
    ensures FetchOf(true, c, script).result == None && FetchOf(true, c, script).loggedIn
  {
  }
}
