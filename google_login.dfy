/** Google sign-in: the login-evidence checks over session cookies (through
    the profile service and through the browser), the page-state classifier
    after the password step, the repeated-evidence check, the three-round
    handler after the password, and the login procedure around them. */
module GoogleLogin {
  import opened Common
  import Excel

  /** A cookie as the browser or the profile service lists it; a field is
      None when its key is absent (indexing it raises). */
  datatype Cookie = Cookie(name: Option<string>, value: Option<string>)

  /** The cookies whose joint presence is taken as proof of a signed-in account. */
  const Required: set<string> := {"SID", "HSID", "SSID"}

  /** Every cookie names itself. */
  predicate Named(cs: seq<Cookie>) {
    forall i :: 0 <= i < |cs| ==> cs[i].name.Some?
  }

  /** Some cookie of `cs` is called `n`. */
  predicate HasCookie(cs: seq<Cookie>, n: string) {
    exists i :: 0 <= i < |cs| && cs[i].name == Some(n)
  }

  /** The required names present in a list of named cookies. */
  function RequiredNames(cs: seq<Cookie>): (r: set<string>)
    requires Named(cs)
    ensures r <= Required
    ensures forall n :: n in r <==> n in Required && HasCookie(cs, n)
  {
    if cs == [] then {}
    else
      var rest := RequiredNames(cs[1..]);
      assert forall n :: HasCookie(cs, n) <==> cs[0].name == Some(n) || HasCookie(cs[1..], n) by {
        forall n
          ensures HasCookie(cs, n) <==> cs[0].name == Some(n) || HasCookie(cs[1..], n)
        {
          if HasCookie(cs, n) && cs[0].name != Some(n) {
            var i :| 0 <= i < |cs| && cs[i].name == Some(n);
            assert cs[1..][i - 1] == cs[i];
          }
          if HasCookie(cs[1..], n) {
            var i :| 0 <= i < |cs[1..]| && cs[1..][i].name == Some(n);
            assert cs[i + 1] == cs[1..][i];
          }
        }
      }
      if cs[0].name.value in Required then rest + {cs[0].name.value} else rest
  }

  /** `check_adspower_cookies`: with a profile id, asks the profile service for
      the profile's `.google.com` cookies (`reply.data` is None when the reply
      has no data key) and accepts exactly when all three required cookies are
      among them. A failed call, a non-zero code, or a cookie without a name
      gives False. */
  function CheckAdspowerCookies(profileId: Option<string>, reply: Reply<Option<seq<Cookie>>>): (r: bool)
    ensures r <==> profileId.Some? && profileId.value != "" && reply.IsOk()
                   && reply.data.Some? && Named(reply.data.value)
                   && forall n :: n in Required ==> HasCookie(reply.data.value, n)
  {
    if profileId.None? || profileId.value == "" then false
    else if !reply.IsOk() then false
    else
      var cs := reply.data.GetOr([]);
      assert reply.data.None? ==> !HasCookie(cs, "SID");
      Named(cs) && RequiredNames(cs) == Required
  }

  /** The cookie dictionary `get_google_cookies` builds: required cookies only,
      by name, a later cookie of the same name overwriting an earlier one.
      None when reading a name (or a required cookie's value) raises. */
  function CookieMap(cs: seq<Cookie>): (r: Option<map<string, string>>)
    ensures r.Some? ==> r.value.Keys <= Required
    ensures r.Some? ==> forall n :: n in r.value <==> n in Required && HasCookie(cs, n)
    ensures r.None? <==> exists i :: 0 <= i < |cs| && (cs[i].name.None? || (cs[i].name.value in Required && cs[i].value.None?))
  {
    if cs == [] then Some(map[])
    else
      var init := cs[..|cs| - 1];
      var last := cs[|cs| - 1];
      var rest := CookieMap(init);
      assert forall i :: 0 <= i < |init| ==> init[i] == cs[i];
      assert forall n :: HasCookie(cs, n) <==> HasCookie(init, n) || last.name == Some(n) by {
        forall n | HasCookie(cs, n)
          ensures HasCookie(init, n) || last.name == Some(n)
        {
          var i :| 0 <= i < |cs| && cs[i].name == Some(n);
          if i < |init| {
            assert init[i] == cs[i];
          }
        }
      }
      if rest.None? then None
      else if last.name.None? then None
      else if last.name.value in Required then
        if last.value.None? then None
        else Some(rest.value[last.name.value := last.value.value])
      else rest
  }

  /** In the dictionary, each cookie name carries the value of the LAST cookie
      of that name. */
  lemma {:induction false} CookieMapLastWins(cs: seq<Cookie>, i: nat)
    requires CookieMap(cs).Some? && i < |cs| && cs[i].name.Some? && cs[i].name.value in Required
    requires forall j :: i < j < |cs| ==> cs[j].name != cs[i].name
    ensures cs[i].value.Some? && CookieMap(cs).value[cs[i].name.value] == cs[i].value.value
  {
    var init := cs[..|cs| - 1];
    if i < |cs| - 1 {
      assert init[i] == cs[i];
      assert forall j :: i < j < |init| ==> init[j] == cs[j];
      CookieMapLastWins(init, i);
    }
  }

  /** `get_google_cookies`: `cookies` is None when reading the browser's
      cookies raised; any failure gives the empty dictionary. */
  method GetGoogleCookies(cookies: Option<seq<Cookie>>) returns (r: map<string, string>)
    ensures cookies.Some? && CookieMap(cookies.value).Some? ==> r == CookieMap(cookies.value).value
    ensures cookies.None? || CookieMap(cookies.value).None? ==> r == map[]
  {
    if cookies.None? {
      return map[];
    }
    var cs := cookies.value;
    r := map[];
    var i := 0;
    while i < |cs|
      invariant 0 <= i <= |cs|
      invariant CookieMap(cs[..i]) == Some(r)
    {
      assert cs[..i + 1][..i] == cs[..i];
      var c := cs[i];
      if c.name.None? {
        assert CookieMap(cs[..i + 1]).None?;
        CookieFailurePersists(cs, i + 1);
        return map[];
      }
      if c.name.value in Required {
        if c.value.None? {
          assert CookieMap(cs[..i + 1]).None?;
          CookieFailurePersists(cs, i + 1);
          return map[];
        }
        r := r[c.name.value := c.value.value];
      }
      i := i + 1;
    }
    assert cs[..i] == cs;
  }

  /** Once a prefix of the cookie list makes the dictionary fail, the whole
      list does. */
  lemma CookieFailurePersists(cs: seq<Cookie>, k: nat)
    requires k <= |cs| && CookieMap(cs[..k]).None?
    ensures CookieMap(cs).None?
  {
    var i :| 0 <= i < |cs[..k]| && (cs[..k][i].name.None? || (cs[..k][i].name.value in Required && cs[..k][i].value.None?));
    assert cs[..k][i] == cs[i];
  }

  /** `verify_google_cookies`: the browser holds all three required cookies
      (with values, all named). */
  predicate BrowserCookiesVerified(cookies: Option<seq<Cookie>>) {
    cookies.Some? && CookieMap(cookies.value).Some? && CookieMap(cookies.value).value.Keys == Required
  }

  method VerifyGoogleCookies(cookies: Option<seq<Cookie>>) returns (ok: bool)
    ensures ok == BrowserCookiesVerified(cookies)
    ensures ok ==> forall n :: n in Required ==> HasCookie(cookies.value, n)
  {
    var m := GetGoogleCookies(cookies);
    ok := m.Keys == Required;
  }

  /** The two cookie channels agree: when the profile service lists exactly
      the browser's well-formed cookies, both checks give the same answer. */
  lemma CookieChannelsAgree(profileId: string, msg: string, cs: seq<Cookie>)
    requires profileId != ""
    requires forall i :: 0 <= i < |cs| ==> cs[i].name.Some? && cs[i].value.Some?
    ensures CheckAdspowerCookies(Some(profileId), Answer(0, msg, Some(cs))) == BrowserCookiesVerified(Some(cs))
  {
    var m := CookieMap(cs);
    assert m.Some?;
    if forall n :: n in Required ==> HasCookie(cs, n) {
      assert m.value.Keys == Required;
    }
  }

  /** What one call of `check_login_success` can observe: the profile id, the
      profile service's cookie reply, the browser's cookies, whether the
      account avatar appears within the short wait, and the current URL (None
      when reading it raised). */
  datatype LoginEvidence = LoginEvidence(
    profileId: Option<string>,
    serviceReply: Reply<Option<seq<Cookie>>>,
    browserCookies: Option<seq<Cookie>>,
    avatarShown: bool,
    url: Option<string>)

  /** URLs only a signed-in account reaches. */
  const SignedInUrls: seq<string> := ["myaccount.google.com", "accounts.google.com/SignOutOptions", "accounts.google.com/o/oauth2"]

  predicate SignedInUrl(url: Option<string>) {
    url.Some? && exists i :: 0 <= i < |SignedInUrls| && Contains(url.value, SignedInUrls[i])
  }

  /** Cookie evidence, the only evidence the quick mode consults. */
  predicate CookieEvidence(e: LoginEvidence) {
    CheckAdspowerCookies(e.profileId, e.serviceReply) || BrowserCookiesVerified(e.browserCookies)
  }

  /** `check_login_success`: cookie evidence first; the page avatar and the
      URL only outside quick mode. */
  function CheckLoginSuccess(quick: bool, e: LoginEvidence): (r: bool)
    ensures r <==> CookieEvidence(e) || (!quick && (e.avatarShown || SignedInUrl(e.url)))
  {
    if e.profileId.Some? && e.profileId.value != "" && CheckAdspowerCookies(e.profileId, e.serviceReply) then true
    else if BrowserCookiesVerified(e.browserCookies) then true
    else if !quick && e.avatarShown then true
    else !quick && SignedInUrl(e.url)
  }

  /** The quick mode ignores the page and the URL entirely. */
  lemma QuickCheckIgnoresPage(e: LoginEvidence, avatarShown: bool, url: Option<string>)
    ensures CheckLoginSuccess(true, e) == CheckLoginSuccess(true, e.(avatarShown := avatarShown, url := url))
  {
  }

  /** The full check accepts whatever the quick check accepts. */
  lemma QuickImpliesFull(e: LoginEvidence)
    ensures CheckLoginSuccess(true, e) ==> CheckLoginSuccess(false, e)
  {
  }

  /** Labels of the Google `check_next_step`. */
  datatype GoogleStep = VerifyEmail | VerifyEmailInput | SimplifySignin | RecoveryInfo | Success

  /** One probe of the page after the password: the URL (None when reading the
      URL or the title raised, which aborts the classification), the presence
      of each indicator of each page group, and the login evidence. */
  datatype GooglePage = GooglePage(
    url: Option<string>,
    verifyIndicators: seq<bool>,
    recoveryOptionShown: seq<bool>,
    emailInputIndicators: seq<bool>,
    simplifyIndicators: seq<bool>,
    recoveryInfoIndicators: seq<bool>,
    evidence: LoginEvidence)

  /** The URL gate of the identity-verification check. */
  predicate ChallengeUrl(url: string) {
    Contains(Lower(url), "signoutoptions") || Contains(Lower(url), "challenge")
  }

  /** The identity-verification page with a displayed recovery-email option. */
  predicate VerifyEmailPage(p: GooglePage)
    requires p.url.Some?
  {
    ChallengeUrl(p.url.value) && Count(p.verifyIndicators) >= 2 && true in p.recoveryOptionShown
  }

  /** None of the four intermediate pages is recognised. */
  predicate NoPageRecognised(p: GooglePage)
    requires p.url.Some?
  {
    !VerifyEmailPage(p) && Count(p.emailInputIndicators) == 0
    && Count(p.simplifyIndicators) < 2 && Count(p.recoveryInfoIndicators) < 2
  }

  /** The classification `check_next_step` makes of one probe. */
  function NextStep(p: GooglePage): (r: Option<GoogleStep>)
    ensures p.url.None? ==> r.None?
    ensures r == Some(VerifyEmail) <==> p.url.Some? && VerifyEmailPage(p)
    ensures r == Some(VerifyEmailInput) <==>
              p.url.Some? && !VerifyEmailPage(p) && Count(p.emailInputIndicators) >= 1
    ensures r == Some(SimplifySignin) <==>
              p.url.Some? && !VerifyEmailPage(p) && Count(p.emailInputIndicators) == 0
              && Count(p.simplifyIndicators) >= 2
    ensures r == Some(RecoveryInfo) <==>
              p.url.Some? && !VerifyEmailPage(p) && Count(p.emailInputIndicators) == 0
              && Count(p.simplifyIndicators) < 2 && Count(p.recoveryInfoIndicators) >= 2
    ensures r == Some(Success) <==> p.url.Some? && NoPageRecognised(p) && CheckLoginSuccess(true, p.evidence)
    ensures r.None? <==> p.url.None? || (NoPageRecognised(p) && !CheckLoginSuccess(true, p.evidence))
  {
    if p.url.None? then None
    else if VerifyEmailPage(p) then Some(VerifyEmail)
    else if Count(p.emailInputIndicators) >= 1 then Some(VerifyEmailInput)
    else if Count(p.simplifyIndicators) >= 2 then Some(SimplifySignin)
    else if Count(p.recoveryInfoIndicators) >= 2 then Some(RecoveryInfo)
    else if CheckLoginSuccess(true, p.evidence) then Some(Success)
    else None
  }

  /** A recognised page is reported as that page whatever the login evidence
      says: the cookies and the avatar are consulted only when no page group
      reaches its threshold. */
  lemma RecognisedPageOutranksEvidence(p: GooglePage, e: LoginEvidence)
    requires p.url.Some? && !NoPageRecognised(p)
    ensures NextStep(p.(evidence := e)) == NextStep(p)
    ensures NextStep(p).Some? && NextStep(p) != Some(Success)
  {
  }

  /** How many indicators of a group are present, counted one by one. */
  method CountMatches(found: seq<bool>) returns (n: nat)
    ensures n == Count(found)
  {
    n := 0;
    var i := 0;
    while i < |found|
      invariant 0 <= i <= |found|
      invariant n == Count(found[..i])
    {
      assert found[..i + 1][..i] == found[..i];
      if found[i] {
        n := n + 1;
      }
      i := i + 1;
    }
    assert found[..i] == found;
  }

  /** `check_next_step` of the login flow: one probe, checked in order. */
  method CheckNextStep(p: GooglePage) returns (r: Option<GoogleStep>)
    ensures r == NextStep(p)
  {
    if p.url.None? {
      return None;
    }
    if ChallengeUrl(p.url.value) {
      var matches := CountMatches(p.verifyIndicators);
      if matches >= 2 {
        var shown := FirstHit(p.recoveryOptionShown);
        if shown {
          return Some(VerifyEmail);
        }
      }
    }
    var inputs := CountMatches(p.emailInputIndicators);
    if inputs >= 1 {
      return Some(VerifyEmailInput);
    }
    var simplify := CountMatches(p.simplifyIndicators);
    if simplify >= 2 {
      return Some(SimplifySignin);
    }
    var info := CountMatches(p.recoveryInfoIndicators);
    if info >= 2 {
      return Some(RecoveryInfo);
    }
    if CheckLoginSuccess(true, p.evidence) {
      return Some(Success);
    }
    r := None;
  }

  /** `check_login_success_multiple`: `checkTimes` quick checks; two successes
      suffice. Otherwise `checkTimes` full checks, again needing two. `calls`
      counts the checks made. */
  method CheckLoginSuccessMultiple(checkTimes: nat, quick: seq<bool>, full: seq<bool>)
    returns (ok: bool, calls: nat)
    requires |quick| == checkTimes && |full| == checkTimes
    ensures ok <==> Count(quick) >= 2 || Count(full) >= 2
    ensures calls == if Count(quick) >= 2 then checkTimes else 2 * checkTimes
    ensures checkTimes < 2 ==> !ok
  {
    var successes := CountMatches(quick);
    calls := checkTimes;
    if successes >= 2 {
      return true, calls;
    }
    successes := CountMatches(full);
    calls := calls + checkTimes;
    ok := successes >= 2;
  }

  /** One round of `handle_after_password`: the classification, and for the
      verify-email branch whether the confirm option could be clicked, whether
      the recovery e-mail was entered (the field appeared, and scrolling to
      it, clearing it, typing the address and pressing ENTER all worked; any
      of these raising fails the round), and what the quick and repeated
      login checks then said. Clicking "Not now" or "Cancel" is irrelevant: failure
      only moves on to the next round. */
  datatype AfterPasswordRound = AfterPasswordRound(
    step: Option<GoogleStep>,
    confirmClicked: bool,
    recoveryEntered: bool,
    quickAfter: bool,
    multipleAfter: bool)

  const AfterPasswordRounds := 3

  /** The outcome of a round: a verdict, or None to go on. */
  function RoundVerdict(r: AfterPasswordRound): Option<bool> {
    match r.step
    case Some(Success) => Some(true)
    case Some(VerifyEmail) =>
      if !r.confirmClicked || !r.recoveryEntered then Some(false)
      else if r.quickAfter || r.multipleAfter then Some(true)
      else None
    case _ => None
  }

  function AfterPasswordSpec(rounds: seq<AfterPasswordRound>): (ok: bool)
    ensures ok ==> exists i :: 0 <= i < |rounds| && RoundVerdict(rounds[i]) == Some(true)
  {
    if rounds == [] then false
    else if RoundVerdict(rounds[0]).Some? then RoundVerdict(rounds[0]).value
    else
      var ok := AfterPasswordSpec(rounds[1..]);
      assert ok ==> exists i :: 1 <= i < |rounds| && RoundVerdict(rounds[i]) == Some(true) by {
        if ok {
          var i :| 0 <= i < |rounds[1..]| && RoundVerdict(rounds[1..][i]) == Some(true);
          assert rounds[i + 1] == rounds[1..][i];
        }
      }
      ok
  }

  /** `handle_after_password`: at most three rounds; True only on a success
      classification or after the recovery email is accepted. */
  method HandleAfterPassword(rounds: seq<AfterPasswordRound>) returns (ok: bool)
    requires |rounds| == AfterPasswordRounds
    ensures ok == AfterPasswordSpec(rounds)
  {
    var k := 0;
    while k < |rounds|
      invariant 0 <= k <= |rounds|
      invariant AfterPasswordSpec(rounds) == AfterPasswordSpec(rounds[k..])
    {
      var r := rounds[k];
      if r.step == Some(VerifyEmail) {
        if !r.confirmClicked || !r.recoveryEntered {
          return false;
        }
        if r.quickAfter {
          return true;
        }
        if r.multipleAfter {
          return true;
        }
      } else if r.step == Some(Success) {
        return true;
      }
      assert rounds[k..][1..] == rounds[k + 1..];
      k := k + 1;
    }
    ok := false;
  }

  /** Three rounds in which no page is recognised end in failure. */
  lemma UnrecognisedPagesFail(rounds: seq<AfterPasswordRound>)
    requires forall i :: 0 <= i < |rounds| ==> rounds[i].step.None?
    ensures !AfterPasswordSpec(rounds)
  {
  }

  /** Python truthiness of `store_data.get(key)`: a missing key is None, an
      empty string is falsy, and NaN (an empty cell) is truthy. */
  predicate Truthy(row: Excel.Row, key: string) {
    key in row && (row[key].Nan? || row[key].s != "")
  }

  /** The input guard of `login`. */
  predicate HasCredentials(row: Excel.Row) {
    Truthy(row, "email") && Truthy(row, "password") && Truthy(row, "recovery_email")
  }

  /** An empty spreadsheet cell passes the guard. */
  lemma EmptyCellPassesGuard(row: Excel.Row)
    requires "email" in row && "password" in row && "recovery_email" in row
    requires row["email"] == Excel.Nan && row["password"] == Excel.Nan && row["recovery_email"] == Excel.Nan
    ensures HasCredentials(row)
  {
  }

  /** Everything one `login` call observes: whether the e-mail could be entered,
      whether the password field became clickable, whether it could be
      scrolled into view, which of the three focus strategies worked, whether
      clearing the field, typing the password and pressing ENTER worked, the
      rounds after the password, and what the avatar probe of the `finally`
      clause found (None when that probe itself raised). */
  datatype LoginRun = LoginRun(
    emailEntered: bool,
    passwordField: bool,
    fieldScrolled: bool,
    focusWorked: seq<bool>,
    passwordTyped: bool,
    rounds: seq<AfterPasswordRound>,
    avatarAtEnd: Option<bool>)

  /** The verdict of `login` when its `finally` clause completes. */
  predicate LoginSucceeds(row: Excel.Row, l: LoginRun)
    requires |l.rounds| == AfterPasswordRounds
  {
    HasCredentials(row) && l.emailEntered && l.passwordField && l.fieldScrolled
    && true in l.focusWorked && l.passwordTyped && AfterPasswordSpec(l.rounds)
  }

  /** `login`. Its `finally` clause runs on every path, including the
      incomplete-input one: it quits the browser when the avatar is absent,
      and when its own probe raises, that exception replaces the verdict
      (`r` is None). */
  method Login(row: Excel.Row, l: LoginRun) returns (r: Option<bool>, quit: bool)
    requires |l.rounds| == AfterPasswordRounds
    ensures r.Some? <==> l.avatarAtEnd.Some?
    ensures r.Some? ==> r.value == LoginSucceeds(row, l)
    ensures quit <==> l.avatarAtEnd == Some(false)
  {
    var ok := false;
    if HasCredentials(row) && l.emailEntered && l.passwordField && l.fieldScrolled {
      var focused := FirstHit(l.focusWorked);
      if focused && l.passwordTyped {
        ok := HandleAfterPassword(l.rounds);
      }
    }
    // the finally clause
    if l.avatarAtEnd.None? {
      return None, false;
    }
    quit := !l.avatarAtEnd.value;
    r := Some(ok);
  }

  /** A successful login has seen a success page or an accepted recovery email. */
  lemma LoginNeedsEvidence(row: Excel.Row, l: LoginRun)
    requires |l.rounds| == AfterPasswordRounds && LoginSucceeds(row, l)
    ensures exists i :: 0 <= i < |l.rounds| &&
              (l.rounds[i].step == Some(Success)
               || (l.rounds[i].step == Some(VerifyEmail) && (l.rounds[i].quickAfter || l.rounds[i].multipleAfter)))
  {
    var i :| 0 <= i < |l.rounds| && RoundVerdict(l.rounds[i]) == Some(true);
  }
}
