/** Two-step authentication setup: enabling it, signing in again with Google,
    reading the setup code, submitting the verification, and the step sequence
    that ties them together. Page interactions are abstract inputs.

    Both waiting loops call a captcha handler that the shipped class does not
    define; each such call raises, the attempt's handler swallows it, and the
    attempt is used up. An attempt therefore records what calling the handler
    gave: None when the call raised. */
module TwoFactor {
  import opened Common

  const MaxAttempts := 5

  /** One attempt of a waiting loop: whether the awaited heading appeared
      within the wait, whether a captcha frame was found, and what calling the
      captcha handler gave (None: the call raised). */
  datatype Attempt = Attempt(headingShown: bool, captchaShown: bool, handlerResult: Option<bool>)

  /** The verdict of the attempt loop: the heading ends it with success, a
      handler that answers False ends it with failure, anything else uses up
      the attempt. */
  function AttemptsSpec(attempts: seq<Attempt>): (ok: bool)
    ensures ok ==> exists i :: 0 <= i < |attempts| && attempts[i].headingShown
  {
    if attempts == [] then false
    else if attempts[0].headingShown then true
    else if attempts[0].captchaShown && attempts[0].handlerResult == Some(false) then false
    else
      var ok := AttemptsSpec(attempts[1..]);
      assert ok ==> attempts[1..][HeadingIndex(attempts[1..])].headingShown;
      ok
  }

  /** The first attempt showing the heading (|attempts| when none does). */
  function HeadingIndex(attempts: seq<Attempt>): (i: nat)
    ensures i <= |attempts|
    ensures i < |attempts| ==> attempts[i].headingShown
    ensures forall j :: 0 <= j < i ==> !attempts[j].headingShown
  {
    if attempts == [] then 0
    else if attempts[0].headingShown then 0
    else HeadingIndex(attempts[1..]) + 1
  }

  /** With the shipped class, where every handler call raises, the loop
      succeeds exactly when the heading shows up in some attempt. */
  lemma {:induction false} RaisingHandlerIsIgnored(attempts: seq<Attempt>)
    requires forall i :: 0 <= i < |attempts| ==> attempts[i].handlerResult.None?
    ensures AttemptsSpec(attempts) <==> exists i :: 0 <= i < |attempts| && attempts[i].headingShown
  {
    if attempts != [] && !attempts[0].headingShown {
      RaisingHandlerIsIgnored(attempts[1..]);
      if exists i :: 0 <= i < |attempts| && attempts[i].headingShown {
        var i :| 0 <= i < |attempts| && attempts[i].headingShown;
        assert attempts[1..][i - 1] == attempts[i];
      }
    }
  }

  /** The `for attempt in range(5)` loop of both `relogin_with_google` and
      `submit_2fa_verification`. */
  method AwaitHeading(attempts: seq<Attempt>) returns (ok: bool)
    requires |attempts| == MaxAttempts
    ensures ok == AttemptsSpec(attempts)
  {
    var k := 0;
    while k < MaxAttempts
      invariant 0 <= k <= MaxAttempts
      invariant AttemptsSpec(attempts) == AttemptsSpec(attempts[k..])
    {
      var a := attempts[k];
      if a.headingShown {
        return true;
      }
      if a.captchaShown && a.handlerResult == Some(false) {
        return false;
      }
      assert attempts[k..][1..] == attempts[k + 1..];
      k := k + 1;
    }
    ok := false;
  }

  /** `relogin_with_google`: the Google button must be clickable (choosing the
      account may fail silently), then the attempt loop waits for the
      "Two-step authentication" heading. */
  method ReloginWithGoogle(buttonClicked: bool, attempts: seq<Attempt>) returns (ok: bool)
    requires |attempts| == MaxAttempts
    ensures ok <==> buttonClicked && AttemptsSpec(attempts)
  {
    if !buttonClicked {
      return false;
    }
    ok := AwaitHeading(attempts);
  }

  /** `save_2fa_code`: the stripped text of the code element, or "" when the
      link could not be clicked or the code did not appear. */
  function Save2faCode(linkClicked: bool, codeText: Option<string>): (code: string)
    ensures code != "" ==> linkClicked && codeText.Some?
    ensures code != "" ==> !IsSpace(code[0]) && !IsSpace(code[|code| - 1])
    ensures codeText.Some? && linkClicked ==>
              exists i :: OccursAt(codeText.value, code, i)
                          && (forall j :: 0 <= j < i ==> IsSpace(codeText.value[j]))
                          && (forall j :: i + |code| <= j < |codeText.value| ==> IsSpace(codeText.value[j]))
  {
    if !linkClicked || codeText.None? then ""
    else
      var t := codeText.value;
      StrippedCodeIsInText(t);
      Strip(t)
  }

  /** The stripped text occurs in the text with only whitespace around it. */
  lemma StrippedCodeIsInText(t: string)
    ensures exists i :: OccursAt(t, Strip(t), i)
                        && (forall j :: 0 <= j < i ==> IsSpace(t[j]))
                        && (forall j :: i + |Strip(t)| <= j < |t| ==> IsSpace(t[j]))
  {
    var i := |t| - |TrimLeft(t)|;
    assert OccursAt(t, Strip(t), i);
  }

  /** Stripping a code that is already stripped changes nothing. */
  lemma SavedCodeIsStripped(linkClicked: bool, codeText: Option<string>)
    ensures Strip(Save2faCode(linkClicked, codeText)) == Save2faCode(linkClicked, codeText)
  {
    if linkClicked && codeText.Some? {
      StripIsIdempotent(codeText.value);
    }
  }

  /** `submit_2fa_verification`: `codeLookup` is the one-time code the
      authenticator helper gives for the setup code (None when the lookup
      raised, as it does with the shipped helper, which lacks the method).
      A missing or empty code ends the call before any page action.
      `codeEntered` says the code input appeared and moving to it and typing
      the code worked; `turnOnClicked` that the button became clickable and
      the click worked. `acted` says whether the page was touched. */
  method Submit2faVerification(codeLookup: Option<string>, codeEntered: bool, turnOnClicked: bool,
                               attempts: seq<Attempt>) returns (ok: bool, acted: bool)
    requires |attempts| == MaxAttempts
    ensures acted <==> codeLookup.Some? && codeLookup.value != ""
    ensures ok <==> acted && codeEntered && turnOnClicked && AttemptsSpec(attempts)
    ensures ok ==> exists i :: 0 <= i < MaxAttempts && attempts[i].headingShown
  {
    if codeLookup.None? || codeLookup.value == "" {
      return false, false;
    }
    acted := true;
    if !codeEntered || !turnOnClicked {
      return false, acted;
    }
    ok := AwaitHeading(attempts);
  }

  /** The result tuple of the step sequence of `setup_2fa` when every step is
      actually called: (False, "") up to the code, (False, code) after it, and
      (True, code) only when all five steps succeed. */
  function SetupOutcome(enabled: bool, relogged: bool, code: string, submitted: bool, completed: bool)
    : (r: (bool, string))
    ensures r.0 <==> enabled && relogged && code != "" && submitted && completed
    ensures r.1 == "" || r.1 == code
    ensures r.1 != "" <==> enabled && relogged && code != ""
  {
    if !enabled || !relogged || code == "" then (false, "")
    else if !submitted || !completed then (false, code)
    else (true, code)
  }

  /** Everything `setup_2fa` observes, step by step. */
  datatype SetupRun = SetupRun(
    enabled: bool,
    reloginButton: bool,
    reloginAttempts: seq<Attempt>,
    linkClicked: bool,
    codeText: Option<string>,
    codeLookup: Option<string>,
    codeEntered: bool,
    turnOnClicked: bool,
    verifyAttempts: seq<Attempt>,
    completed: bool)

  /** `setup_2fa`. `reloginEmail` is the argument passed to
      `relogin_with_google`: the shipped code passes none (None), which raises
      a TypeError that the method's handler turns into (False, ""). */
  method Setup2fa(reloginEmail: Option<string>, s: SetupRun) returns (ok: bool, code: string)
    requires |s.reloginAttempts| == MaxAttempts && |s.verifyAttempts| == MaxAttempts
    ensures reloginEmail.None? ==> !ok && code == ""
    ensures reloginEmail.Some? ==>
              (ok, code) == SetupOutcome(s.enabled, s.reloginButton && AttemptsSpec(s.reloginAttempts),
                                         Save2faCode(s.linkClicked, s.codeText),
                                         s.codeLookup.Some? && s.codeLookup.value != "" && s.codeEntered
                                         && s.turnOnClicked && AttemptsSpec(s.verifyAttempts),
                                         s.completed)
  {
    if !s.enabled {
      return false, "";
    }
    if reloginEmail.None? {
      // the call is missing its required argument and raises
      return false, "";
    }
    var relogged := ReloginWithGoogle(s.reloginButton, s.reloginAttempts);
    if !relogged {
      return false, "";
    }
    code := Save2faCode(s.linkClicked, s.codeText);
    if code == "" {
      return false, "";
    }
    var submitted, _ := Submit2faVerification(s.codeLookup, s.codeEntered, s.turnOnClicked, s.verifyAttempts);
    if !submitted {
      return false, code;
    }
    if !s.completed {
      return false, code;
    }
    ok := true;
  }
}
