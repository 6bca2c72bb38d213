/** Store registration: the page-state classifier with fixed priority, the
    polling loops around it, the challenge waiters, the click fallback, and the
    session gate that may replace the browser handle.

    Every presence check of the page is an abstract input. A polling loop with
    a wall-clock budget receives one observation per pass that starts inside
    the budget; a loop without any cap receives a finite sequence and reports
    `StillRunning` when it has not exited by the end of it. */
module RegisterFlow {
  import opened Common
  import Excel

  /** Labels `check_next_step` returns, plus `Captcha`, which
      `register_shopify` tests for although no check produces it. */
  datatype Step = Dashboard | StartTrial | EmailSignup | SetupPage | SkipSetup | SkipPlan | Captcha

  /** What one pass of `check_next_step` observes. `url` is None when reading
      the current URL raised. The setup flags mean "present and displayed". */
  datatype RegisterProbe = RegisterProbe(
    url: Option<string>,
    homeLandmark: bool,
    startTrialButton: bool,
    emailSignupButton: bool,
    setupTitleShown: bool,
    setupSkipShown: bool,
    skipSetupLink: bool,
    skipPlanLink: bool)

  const DashboardUrl := "admin.shopify.com/store"
  const SetupUrl := "admin.shopify.com/signup/"
  const CfPassedUrl := "accounts.shopify.com/signup"
  const MerchantAdminUrl := "myshopify.com/admin"

  /** The evidence each label needs, independently of the others. */
  predicate Signals(p: RegisterProbe, s: Step) {
    match s
    case Dashboard => p.url.Some? && Contains(p.url.value, DashboardUrl) && p.homeLandmark
    case StartTrial => p.startTrialButton
    case EmailSignup => p.emailSignupButton
    case SetupPage => p.url.Some? && Contains(p.url.value, SetupUrl) && p.setupTitleShown && p.setupSkipShown
    case SkipSetup => p.skipSetupLink
    case SkipPlan => p.skipPlanLink
    case Captcha => false
  }

  /** The order in which `check_next_step` tries its checks. */
  const Priority: seq<Step> := [Dashboard, StartTrial, EmailSignup, SetupPage, SkipSetup, SkipPlan]

  /** The first label of `order` whose evidence is present. */
  function FirstSignalled(p: RegisterProbe, order: seq<Step>): (r: Option<Step>)
    ensures r.Some? ==> exists i :: 0 <= i < |order| && order[i] == r.value && Signals(p, r.value)
                           && forall j :: 0 <= j < i ==> !Signals(p, order[j])
    ensures r.None? ==> forall i :: 0 <= i < |order| ==> !Signals(p, order[i])
  {
    if order == [] then None
    else if Signals(p, order[0]) then Some(order[0])
    else FirstSignalled(p, order[1..])
  }

  /** One pass of `check_next_step`: the first check that succeeds decides. */
  function Classify(p: RegisterProbe): (r: Option<Step>)
    ensures r.Some? ==> Signals(p, r.value)
    ensures r.None? <==> forall s :: !Signals(p, s)
    ensures Signals(p, Dashboard) ==> r == Some(Dashboard)
    ensures r != Some(Captcha)
  {
    if Signals(p, Dashboard) then Some(Dashboard)
    else if Signals(p, StartTrial) then Some(StartTrial)
    else if Signals(p, EmailSignup) then Some(EmailSignup)
    else if Signals(p, SetupPage) then Some(SetupPage)
    else if Signals(p, SkipSetup) then Some(SkipSetup)
    else if Signals(p, SkipPlan) then Some(SkipPlan)
    else None
  }

  /** Unfolds `FirstSignalled` once over a list with head `s`. */
  lemma FirstSignalledStep(p: RegisterProbe, s: Step, rest: seq<Step>)
    ensures FirstSignalled(p, [s] + rest) == if Signals(p, s) then Some(s) else FirstSignalled(p, rest)
  {
    assert ([s] + rest)[1..] == rest;
  }

  /** A pass reports exactly the highest-priority label whose evidence is present. */
  lemma ClassifyFollowsPriority(p: RegisterProbe)
    ensures Classify(p) == FirstSignalled(p, Priority)
  {
    var t5: seq<Step> := [SkipPlan];
    var t4 := [SkipSetup] + t5;
    var t3 := [SetupPage] + t4;
    var t2 := [EmailSignup] + t3;
    var t1 := [StartTrial] + t2;
    FirstSignalledStep(p, SkipPlan, []);
    assert t5 == [SkipPlan] + [];
    FirstSignalledStep(p, SkipSetup, t5);
    FirstSignalledStep(p, SetupPage, t4);
    FirstSignalledStep(p, EmailSignup, t3);
    FirstSignalledStep(p, StartTrial, t2);
    FirstSignalledStep(p, Dashboard, t1);
    assert Priority == [Dashboard] + t1;
  }

  /** The verdict of the whole polling budget: the first pass that classifies. */
  function FirstClassified(passes: seq<RegisterProbe>): (r: Option<Step>)
    ensures r.None? <==> forall i :: 0 <= i < |passes| ==> Classify(passes[i]).None?
    ensures r.Some? ==> exists i :: 0 <= i < |passes| && Classify(passes[i]) == r
                           && forall j :: 0 <= j < i ==> Classify(passes[j]).None?
    ensures r != Some(Captcha)
  {
    if passes == [] then None
    else if Classify(passes[0]).Some? then Classify(passes[0])
    else FirstClassified(passes[1..])
  }

  /** `check_next_step`: repeats the pass until one classifies or the budget
      (the passes given) is spent, then reports None. */
  method CheckNextStep(passes: seq<RegisterProbe>) returns (r: Option<Step>)
    ensures r == FirstClassified(passes)
  {
    var k := 0;
    while k < |passes|
      invariant 0 <= k <= |passes|
      invariant FirstClassified(passes) == FirstClassified(passes[k..])
    {
      var step := Classify(passes[k]);
      if step.Some? {
        return step;
      }
      assert passes[k..][1..] == passes[k + 1..];
      k := k + 1;
    }
    r := None;
  }

  const MaxSubmitAttempts := 5

  /** The submit loop of `process_store`: at most five attempts, each followed
      by a full `check_next_step`; the submit action's own failure is only
      logged. `made` is the number of attempts used. */
  method SubmitForm(attempts: seq<seq<RegisterProbe>>) returns (ok: bool, made: nat)
    requires |attempts| == MaxSubmitAttempts
    ensures 1 <= made <= MaxSubmitAttempts
    ensures ok <==> exists k :: 0 <= k < MaxSubmitAttempts && FirstClassified(attempts[k]).Some?
    ensures ok ==> FirstClassified(attempts[made - 1]).Some?
    ensures forall k :: 0 <= k < made - 1 ==> FirstClassified(attempts[k]).None?
    ensures !ok ==> made == MaxSubmitAttempts
  {
    made := 0;
    while made < MaxSubmitAttempts
      invariant 0 <= made <= MaxSubmitAttempts
      invariant forall k :: 0 <= k < made ==> FirstClassified(attempts[k]).None?
    {
      var step := CheckNextStep(attempts[made]);
      made := made + 1;
      if step.Some? {
        return true, made;
      }
    }
    ok := false;
  }

  /** One iteration of the follow-up loop: the passes of its classification and
      whether the skip control it then waits for could be clicked. */
  datatype FollowUpRound = FollowUpRound(passes: seq<RegisterProbe>, clicked: bool)

  /** Whether an iteration of the follow-up loop leaves it, and with what. */
  function RoundExit(step: Option<Step>, clicked: bool): Option<bool> {
    match step
    case None => Some(false)
    case Some(Dashboard) => Some(true)
    case Some(SkipSetup) => if clicked then None else Some(false)
    case Some(SkipPlan) => if clicked then None else Some(false)
    case Some(SetupPage) => if clicked then None else Some(false)
    case Some(_) => None
  }

  function FollowUpSpec(rounds: seq<FollowUpRound>): Run {
    if rounds == [] then StillRunning
    else match RoundExit(FirstClassified(rounds[0].passes), rounds[0].clicked)
      case Some(b) => Finished(b)
      case None => FollowUpSpec(rounds[1..])
  }

  /** The follow-up loop ends in success only on a dashboard classification. */
  lemma {:induction false} FollowUpSucceedsOnlyAtDashboard(rounds: seq<FollowUpRound>)
    requires FollowUpSpec(rounds) == Finished(true)
    ensures exists i :: 0 <= i < |rounds| && FirstClassified(rounds[i].passes) == Some(Dashboard)
  {
    if RoundExit(FirstClassified(rounds[0].passes), rounds[0].clicked).None? {
      FollowUpSucceedsOnlyAtDashboard(rounds[1..]);
      var i :| 0 <= i < |rounds[1..]| && FirstClassified(rounds[1..][i].passes) == Some(Dashboard);
      assert rounds[i + 1] == rounds[1..][i];
    }
  }

  /** The follow-up loop has no iteration cap: a page that keeps showing the
      trial button keeps it polling for any number of iterations. */
  lemma {:induction false} FollowUpHasNoCap(rounds: seq<FollowUpRound>)
    requires forall i :: 0 <= i < |rounds| ==> FirstClassified(rounds[i].passes) == Some(StartTrial)
    ensures FollowUpSpec(rounds) == StillRunning
  {
    if rounds != [] {
      FollowUpHasNoCap(rounds[1..]);
    }
  }

  /** The table after a run: the store is reported "success" with its URL
      when the run reached the dashboard and the URL could be read. */
  function SuccessReport(rows: seq<Excel.Row>, run: Run, name: Excel.Cell, storeUrl: Option<string>): seq<Excel.Row> {
    if run == Finished(true) && storeUrl.Some?
    then Excel.AfterReport(rows, name, "success", "Store URL: " + storeUrl.value)
    else rows
  }

  /** The table after the outer error handler of `process_store`. */
  function FailureReport(rows: seq<Excel.Row>, name: Excel.Cell, errorText: string): seq<Excel.Row> {
    Excel.AfterReport(rows, name, "failed", "Error: " + errorText)
  }

  /** The follow-up loop of `process_store`. On the dashboard it reports the
      store as "success" with its URL (when the URL can be read; a failing
      report is swallowed) and returns True. */
  method FollowUp(rounds: seq<FollowUpRound>, handler: Excel.ExcelHandler?, name: Excel.Cell,
                  storeUrl: Option<string>, saved: bool) returns (run: Run)
    requires handler != null ==> handler.Valid()
    modifies if handler != null then {handler.df} else {}
    ensures run == FollowUpSpec(rounds)
    ensures handler != null ==> handler.Valid()
    ensures handler != null ==> handler.df.rows == SuccessReport(old(handler.df.rows), run, name, storeUrl)
  {
    var k := 0;
    while k < |rounds|
      invariant 0 <= k <= |rounds|
      invariant FollowUpSpec(rounds) == FollowUpSpec(rounds[k..])
      invariant handler != null ==> handler.Valid() && handler.df.rows == old(handler.df.rows)
    {
      var step := CheckNextStep(rounds[k].passes);
      var exit := RoundExit(step, rounds[k].clicked);
      if exit == Some(true) {
        if handler != null && storeUrl.Some? {
          var _ := handler.UpdateStoreStatus(name, "success", "Store URL: " + storeUrl.value, saved);
        }
        return Finished(true);
      } else if exit == Some(false) {
        return Finished(false);
      }
      assert rounds[k..][1..] == rounds[k + 1..];
      k := k + 1;
    }
    run := StillRunning;
  }

  /** The 30-second search for the email sign-up button: each poll tries the
      selectors in order and clicks the first displayed, enabled one. */
  method FindEmailSignup(polls: seq<seq<bool>>) returns (clicked: bool)
    ensures clicked <==> exists k :: 0 <= k < |polls| && true in polls[k]
  {
    var k := 0;
    while k < |polls|
      invariant 0 <= k <= |polls|
      invariant forall j :: 0 <= j < k ==> !(true in polls[j])
    {
      var hit := FirstHit(polls[k]);
      if hit {
        return true;
      }
      k := k + 1;
    }
    clicked := false;
  }

  /** `handle_recaptcha`: no challenge present at first means True at once;
      otherwise True at the first poll that finds none, False when the 100 s
      budget (the polls given) runs out. */
  method HandleRecaptcha(initial: seq<bool>, polls: seq<seq<bool>>) returns (ok: bool)
    ensures ok <==> !(true in initial) || exists k :: 0 <= k < |polls| && !(true in polls[k])
  {
    var present := FirstHit(initial);
    if !present {
      return true;
    }
    var k := 0;
    while k < |polls|
      invariant 0 <= k <= |polls|
      invariant forall j :: 0 <= j < k ==> true in polls[j]
    {
      var still := FirstHit(polls[k]);
      if !still {
        return true;
      }
      k := k + 1;
    }
    ok := false;
  }

  /** `wait_for_page_load`: True iff some poll inside the budget reads a URL
      containing `pattern`; a failed read is skipped. */
  method WaitForPageLoad(pattern: string, polls: seq<Option<string>>) returns (ok: bool)
    ensures ok <==> exists k :: 0 <= k < |polls| && polls[k].Some? && Contains(polls[k].value, pattern)
  {
    var k := 0;
    while k < |polls|
      invariant 0 <= k <= |polls|
      invariant forall j :: 0 <= j < k ==> !(polls[j].Some? && Contains(polls[j].value, pattern))
    {
      if polls[k].Some? && Contains(polls[k].value, pattern) {
        return true;
      }
      k := k + 1;
    }
    ok := false;
  }

  /** `wait_for_cf_check`: True iff the sign-up page's URL shows up before the
      timeout. The challenge-page and challenge-frame branches only change how
      long a poll sleeps, that is how many polls fit in the budget. */
  method WaitForCfCheck(polls: seq<Option<string>>) returns (ok: bool)
    ensures ok <==> exists k :: 0 <= k < |polls| && polls[k].Some? && Contains(polls[k].value, CfPassedUrl)
  {
    ok := WaitForPageLoad(CfPassedUrl, polls);
  }

  /** `wait_for_recaptcha`: True at once without a challenge frame; otherwise
      True at the first poll that no longer finds it, False after the budget. */
  method WaitForRecaptcha(present: bool, polls: seq<bool>) returns (ok: bool)
    ensures ok <==> !present || false in polls
  {
    if !present {
      return true;
    }
    var k := 0;
    while k < |polls|
      invariant 0 <= k <= |polls|
      invariant !(false in polls[..k])
    {
      if !polls[k] {
        return true;
      }
      assert polls[..k + 1] == polls[..k] + [polls[k]];
      k := k + 1;
    }
    assert polls[..k] == polls;
    ok := false;
  }

  /** One poll of `skip_all_steps`: a Skip button was clicked, none appeared
      within the quick wait, or the click failed otherwise. */
  datatype SkipPoll = SkipClicked | SkipTimedOut | SkipFailed

  /** `skip_all_steps`: clicks Skip until none appears (True); any other
      failure gives False. It has no cap of its own. */
  method SkipAllSteps(polls: seq<SkipPoll>) returns (run: Run)
    ensures run == StillRunning <==> forall k :: 0 <= k < |polls| ==> polls[k] == SkipClicked
    ensures run.Finished? ==> exists k :: 0 <= k < |polls| && polls[k] != SkipClicked
                               && (forall j :: 0 <= j < k ==> polls[j] == SkipClicked)
                               && run.ok == (polls[k] == SkipTimedOut)
  {
    var k := 0;
    while k < |polls|
      invariant 0 <= k <= |polls|
      invariant forall j :: 0 <= j < k ==> polls[j] == SkipClicked
    {
      if polls[k] == SkipTimedOut {
        return Finished(true);
      } else if polls[k] == SkipFailed {
        return Finished(false);
      }
      k := k + 1;
    }
    run := StillRunning;
  }

  /** An iteration of `register_shopify`'s loop: its classification, what the
      skip handler would return, and the URL read afterwards. The loop's
      captcha branch is left out: no classification is ever `Captcha`
      (`FirstClassified` ensures so), so it can never be taken. */
  datatype RegisterRound = RegisterRound(
    passes: seq<RegisterProbe>,
    skipped: bool,
    url: Option<string>)

  function RegisterSpec(rounds: seq<RegisterRound>): Run {
    if rounds == [] then StillRunning
    else
      var r := rounds[0];
      var step := FirstClassified(r.passes);
      if step.None? then Finished(false)
      else if step.value == Dashboard then Finished(true)
      else if step.value == SkipSetup && !r.skipped then Finished(false)
      else if r.url.Some? && Contains(r.url.value, MerchantAdminUrl) then Finished(true)
      else RegisterSpec(rounds[1..])
  }

  /** `register_shopify` after opening the sign-up page (`navigated` is False when
      that navigation raised). */
  method RegisterShopify(navigated: bool, rounds: seq<RegisterRound>) returns (run: Run)
    ensures run == if navigated then RegisterSpec(rounds) else Finished(false)
  {
    if !navigated {
      return Finished(false);
    }
    var k := 0;
    while k < |rounds|
      invariant 0 <= k <= |rounds|
      invariant RegisterSpec(rounds) == RegisterSpec(rounds[k..])
    {
      var r := rounds[k];
      var step := CheckNextStep(r.passes);
      if step.None? {
        return Finished(false);
      }
      if step == Some(Dashboard) {
        return Finished(true);
      }
      if step == Some(SkipSetup) && !r.skipped {
        return Finished(false);
      }
      if r.url.Some? && Contains(r.url.value, MerchantAdminUrl) {
        return Finished(true);
      }
      assert rounds[k..][1..] == rounds[k + 1..];
      k := k + 1;
    }
    run := StillRunning;
  }

  /** `register_shopify` succeeds only on the dashboard or on a merchant
      admin URL. */
  lemma {:induction false} RegisterNeedsAdminEvidence(rounds: seq<RegisterRound>)
    requires RegisterSpec(rounds) == Finished(true)
    ensures exists i :: 0 <= i < |rounds| &&
              (FirstClassified(rounds[i].passes) == Some(Dashboard)
               || (rounds[i].url.Some? && Contains(rounds[i].url.value, MerchantAdminUrl)))
  {
    var step := FirstClassified(rounds[0].passes);
    if step.Some? && step.value != Dashboard && !(step.value == SkipSetup && !rounds[0].skipped)
       && !(rounds[0].url.Some? && Contains(rounds[0].url.value, MerchantAdminUrl)) {
      RegisterNeedsAdminEvidence(rounds[1..]);
      var i :| 0 <= i < |rounds[1..]| &&
               (FirstClassified(rounds[1..][i].passes) == Some(Dashboard)
                || (rounds[1..][i].url.Some? && Contains(rounds[1..][i].url.value, MerchantAdminUrl)));
      assert rounds[i + 1] == rounds[1..][i];
    }
  }

  /** The three click strategies of `click_element_with_retry`, in the order
      they are tried. */
  datatype ClickStrategy = DirectClick | PointerChain | ScriptClick

  const ClickOrder: seq<ClickStrategy> := [DirectClick, PointerChain, ScriptClick]

  /** What trying a strategy gave: it (or the success condition) raised, or it
      ran and the success condition held or not. */
  datatype ClickOutcome = ClickRaised | Clicked(conditionHolds: bool)

  /** `click_element_with_retry`: tries the strategies in order and keeps the
      first whose success condition holds; one that raises is skipped.
      `tried` counts the strategies attempted, `used` names the winner. */
  method ClickElementWithRetry(outcome: ClickStrategy -> ClickOutcome)
    returns (ok: bool, tried: nat, used: Option<ClickStrategy>)
    ensures ok <==> outcome(DirectClick) == Clicked(true) || outcome(PointerChain) == Clicked(true)
                    || outcome(ScriptClick) == Clicked(true)
    ensures ok <==> used.Some?
    ensures 1 <= tried <= |ClickOrder|
    ensures ok ==> ClickOrder[tried - 1] == used.value && outcome(used.value) == Clicked(true)
    ensures forall i :: 0 <= i < tried - 1 ==> outcome(ClickOrder[i]) != Clicked(true)
    ensures !ok ==> tried == |ClickOrder|
  {
    tried := 0;
    while tried < |ClickOrder|
      invariant 0 <= tried <= |ClickOrder|
      invariant forall i :: 0 <= i < tried ==> outcome(ClickOrder[i]) != Clicked(true)
    {
      var s := ClickOrder[tried];
      tried := tried + 1;
      if outcome(s) == Clicked(true) {
        assert s == DirectClick || s == PointerChain || s == ScriptClick;
        return true, tried, Some(s);
      }
    }
    assert ClickOrder[0] == DirectClick && ClickOrder[1] == PointerChain && ClickOrder[2] == ScriptClick;
    ok, used := false, None;
  }

  /** Everything one `process_store` run observes, phase by phase. */
  datatype StoreRun = StoreRun(
    alive: bool,
    navigated: bool,
    trialClicked: bool,
    cfPolls: seq<Option<string>>,
    signupPolls: seq<seq<bool>>,
    formFilled: bool,  // both fields found, and clearing and typing into each worked
    attempts: seq<seq<RegisterProbe>>,
    rounds: seq<FollowUpRound>,
    storeUrl: Option<string>)

  predicate ReachedSignup(cfPolls: seq<Option<string>>) {
    exists k :: 0 <= k < |cfPolls| && cfPolls[k].Some? && Contains(cfPolls[k].value, CfPassedUrl)
  }

  predicate SignupClicked(polls: seq<seq<bool>>) {
    exists k :: 0 <= k < |polls| && true in polls[k]
  }

  predicate Submitted(attempts: seq<seq<RegisterProbe>>)
    requires |attempts| == MaxSubmitAttempts
  {
    exists k :: 0 <= k < MaxSubmitAttempts && FirstClassified(attempts[k]).Some?
  }

  /** The outcome of `process_store`, phase by phase. */
  function StoreOutcome(r: StoreRun): Run
    requires |r.attempts| == MaxSubmitAttempts
  {
    if !r.alive || !r.navigated || !r.trialClicked || !ReachedSignup(r.cfPolls)
       || !SignupClicked(r.signupPolls) || !r.formFilled || !Submitted(r.attempts)
    then Finished(false)
    else FollowUpSpec(r.rounds)
  }

  /** The table after `process_store`: a navigation error is reported as
      "failed", reaching the dashboard as "success". */
  function StoreReport(rows: seq<Excel.Row>, r: StoreRun, run: Run, name: Excel.Cell, errorText: string): seq<Excel.Row> {
    if r.alive && !r.navigated then FailureReport(rows, name, errorText)
    else SuccessReport(rows, run, name, r.storeUrl)
  }

  /** `process_store`. A navigation error reaches the outer handler, which
      reports the store as "failed" with the error text; reaching the
      dashboard reports it as "success". */
  method ProcessStore(r: StoreRun, handler: Excel.ExcelHandler?, name: Excel.Cell,
                      errorText: string, saved: bool) returns (run: Run)
    requires |r.attempts| == MaxSubmitAttempts
    requires handler != null ==> handler.Valid()
    modifies if handler != null then {handler.df} else {}
    ensures run == StoreOutcome(r)
    ensures handler != null ==> handler.Valid()
    ensures handler != null ==> handler.df.rows == StoreReport(old(handler.df.rows), r, run, name, errorText)
  {
    if !r.alive {
      return Finished(false);
    }
    if !r.navigated {
      if handler != null {
        var _ := handler.UpdateStoreStatus(name, "failed", "Error: " + errorText, saved);
      }
      return Finished(false);
    }
    if !r.trialClicked {
      return Finished(false);
    }
    var cf := WaitForCfCheck(r.cfPolls);
    if !cf {
      return Finished(false);
    }
    var signup := FindEmailSignup(r.signupPolls);
    if !signup {
      return Finished(false);
    }
    if !r.formFilled {
      return Finished(false);
    }
    var submitted, _ := SubmitForm(r.attempts);
    if !submitted {
      return Finished(false);
    }
    run := FollowUp(r.rounds, handler, name, r.storeUrl, saved);
  }

  /** `process_store` succeeds only if the dashboard was classified. */
  lemma ProcessStoreNeedsDashboard(r: StoreRun)
    requires |r.attempts| == MaxSubmitAttempts
    requires StoreOutcome(r) == Finished(true)
    ensures exists i :: 0 <= i < |r.rounds| && FirstClassified(r.rounds[i].passes) == Some(Dashboard)
  {
    FollowUpSucceedsOnlyAtDashboard(r.rounds);
  }

  /** A Python attribute that may never have been assigned. */
  datatype Attr<T> = Unassigned | Assigned(value: T)

  /** Whether the reconnection branch of `ensure_browser_active` produces a new
      handle: a non-empty profile id is bound, the start call answers code 0
      with both endpoints, and the new driver could be created. */
  predicate Reconnects(profileId: Attr<Option<string>>, reply: Reply<LaunchData>, created: Option<Session>) {
    && profileId.Assigned? && profileId.value.Some? && profileId.value.value != ""
    && reply.IsOk() && reply.data.selenium.Some? && reply.data.webdriver.Some?
    && created.Some?
  }

  class ShopifyRegister {
    var driver: Session
    var waitDriver: Session
    var quickWaitDriver: Session
    var actionsDriver: Session
    /** The handle the helper components (human-like actions, payments, 2FA,
        2FA verifier) were built on by `_init_components`. */
    var componentsDriver: Session
    /** `self.adspower_id`: read by the gate, assigned nowhere in the class. */
    var adspowerId: Attr<Option<string>>

    /** Every holder of a handle uses the current one. */
    predicate AllOnCurrent()
      reads this
    {
      waitDriver == driver && quickWaitDriver == driver && actionsDriver == driver && componentsDriver == driver
    }

    constructor (d: Session)
      ensures driver == d && AllOnCurrent() && adspowerId == Unassigned
    {
      driver, waitDriver, quickWaitDriver, actionsDriver, componentsDriver := d, d, d, d, d;
      adspowerId := Unassigned;
    }

    /** `ensure_browser_active`. A live handle is kept untouched. Otherwise the
        profile is restarted and only `driver`, `wait` and the components are
        rebuilt on the new handle; `quick_wait` and `actions` keep the old one.
        Any failure, including the unassigned profile id, gives False. */
    method EnsureBrowserActive(alive: bool, reply: Reply<LaunchData>, created: Option<Session>)
      returns (ok: bool)
      modifies this
      ensures alive ==> ok && unchanged(this)
      ensures !alive ==> (ok <==> Reconnects(old(adspowerId), reply, created))
      ensures !alive && !ok ==> unchanged(this)
      ensures !alive && ok ==> driver == created.value && waitDriver == created.value
                               && componentsDriver == created.value
                               && quickWaitDriver == old(quickWaitDriver) && actionsDriver == old(actionsDriver)
                               && adspowerId == old(adspowerId)
      ensures old(adspowerId) == Unassigned && !alive ==> !ok
      ensures old(AllOnCurrent()) && ok && driver != old(driver) ==> !AllOnCurrent()
    {
      if alive {
        return true;
      }
      if adspowerId.Unassigned? {
        // reading the attribute raises; the handler answers False
        return false;
      }
      if adspowerId.value.None? || adspowerId.value.value == "" {
        return false;
      }
      if !reply.IsOk() || reply.data.selenium.None? || reply.data.webdriver.None? || created.None? {
        return false;
      }
      driver := created.value;
      waitDriver := created.value;
      componentsDriver := created.value;
      ok := true;
    }
  }
}
