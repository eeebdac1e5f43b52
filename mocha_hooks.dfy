/**
 * The decisions taken by the Mocha hooks of lib/mocha-hooks.js: whether a screenshot is
 * taken and under which name, whether to break into the Sauce Labs debugger, dismiss
 * alerts, stop the per-test video or quit the browser, and the two pass/fail flags the
 * hooks keep across tests. The side effects themselves (writing the screenshot, talking
 * to the driver, the video recorder and Sauce Labs) are not modelled; each hook returns
 * the decision it takes.
 */
module MochaHooks {
  import opened Wrappers
  import opened ScreenshotNames

  /** The JavaScript values a configuration entry or a global flag can hold. */
  datatype JsValue = Undefined | Null | Bool(b: bool) | Number(n: int) | Str(s: string)

  /** JavaScript truthiness (numbers are integers here, so NaN does not arise). */
  predicate Truthy(v: JsValue) {
    match v
    case Undefined => false
    case Null => false
    case Bool(b) => b
    case Number(n) => n != 0
    case Str(s) => s != ""
  }

  /** `v === true`. */
  predicate IsTrue(v: JsValue) {
    v == Bool(true)
  }

  /** Mocha's `state` of a finished test: `'passed'`, `'failed'`, or anything else (pending). */
  datatype TestState = Passed | Failed | Pending

  /** The parts of Mocha's `this.currentTest` that the hooks read. */
  datatype Test = Test(title: string, fullTitle: string, state: TestState)

  /** The configuration entries the hooks consult; `sauce` may be absent (`config.has`). */
  datatype Config = Config(
    sauce: Option<JsValue>,
    neverSaveScreenshots: JsValue,
    saveAllScreenshots: JsValue,
    closeBrowserOnComplete: JsValue)

  /** `config.has('sauce') && config.get('sauce')`. */
  predicate SauceEnabled(cfg: Config) {
    cfg.sauce.Some? && Truthy(cfg.sauce.value)
  }

  predicate IsFailed(test: Option<Test>) {
    test.Some? && test.value.state == Failed
  }

  /** What a hook that reads `this.currentTest.state` does: nothing, its action, or a TypeError
      because there is no current test. */
  datatype HookResult = Skip | Act | TypeError

  /**
   * The Sauce breakpoint hook: the `&&` chain short-circuits on an unset `SAUCEDEBUG`
   * before it reads the current test, and throws when it does read a missing one.
   */
  function SauceBreakpoint(sauceDebug: Option<string>, test: Option<Test>, cfg: Config): (r: HookResult)
    ensures r == Act <==> sauceDebug.Some? && sauceDebug.value != "" && IsFailed(test) && SauceEnabled(cfg)
    ensures r == TypeError <==> sauceDebug.Some? && sauceDebug.value != "" && test.None?
  {
    if sauceDebug.None? || sauceDebug.value == "" then Skip
    else if test.None? then TypeError
    else if test.value.state == Failed && SauceEnabled(cfg) then Act
    else Skip
  }

  /** Which kind of screenshot, if any, a finished test gets. */
  datatype Capture = NoCapture | CaptureFailure | CaptureAll

  /** A failed test is captured unless `neverSaveScreenshots` is truthy; any other test only
      when `saveAllScreenshots === true`. */
  function CapturePolicy(state: TestState, cfg: Config): (c: Capture)
    ensures c == CaptureFailure <==> state == Failed && !Truthy(cfg.neverSaveScreenshots)
    ensures c == CaptureAll <==> state != Failed && IsTrue(cfg.saveAllScreenshots)
  {
    if state == Failed then
      if Truthy(cfg.neverSaveScreenshots) then NoCapture else CaptureFailure
    else if IsTrue(cfg.saveAllScreenshots) then CaptureAll
    else NoCapture
  }

  /** The name the screenshot hook writes, or None when it writes nothing. */
  function ScreenshotFilename(test: Option<Test>, cfg: Config, locale: string, screenSize: string, date: string): (r: Option<string>)
    ensures r.Some? <==> test.Some? && CapturePolicy(test.value.state, cfg) != NoCapture
    ensures r.Some? && test.value.state == Failed ==> |r.value| >= 7 && r.value[..7] == "FAILED-"
  {
    if test.None? then None
    else
      match CapturePolicy(test.value.state, cfg)
      case NoCapture => None
      case CaptureFailure =>
        FailedFilenameShape(locale, screenSize, test.value.title, date);
        Some(FailedFilename(locale, screenSize, test.value.title, date))
      case CaptureAll => Some(SaveAllFilename(locale, screenSize, SuiteName(test.value.fullTitle), test.value.title, date))
  }

  /** The alert hook: dismiss alerts only after a failed test, and only when the browser is
      to be closed or runs headless. */
  predicate DismissAlerts(test: Option<Test>, cfg: Config, isHeadless: JsValue)
    ensures DismissAlerts(test, cfg, isHeadless) ==> test.Some? && test.value.state == Failed
    ensures DismissAlerts(test, cfg, isHeadless) ==> cfg.closeBrowserOnComplete == Bool(true) || isHeadless == Bool(true)
  {
    IsFailed(test) && (IsTrue(cfg.closeBrowserOnComplete) || IsTrue(isHeadless))
  }

  /** The per-test video hook: the recording is stopped (kept) only for failed tests. */
  predicate StopTestVideo(test: Option<Test>)
    ensures StopTestVideo(test) <==> test.Some? && test.value.state == Failed
  {
    IsFailed(test)
  }

  /** The batch-level quit hook. */
  predicate QuitBrowser(cfg: Config, isHeadless: JsValue)
    ensures SauceEnabled(cfg) ==> QuitBrowser(cfg, isHeadless)
    ensures !SauceEnabled(cfg) ==> (QuitBrowser(cfg, isHeadless) <==>
              cfg.closeBrowserOnComplete == Bool(true) || isHeadless == Bool(true))
  {
    SauceEnabled(cfg) || IsTrue(cfg.closeBrowserOnComplete) || IsTrue(isHeadless)
  }

  /** The script the batch-level status hook sends to Sauce Labs, if any. */
  function JobResultScript(cfg: Config, driverAllPassed: bool): (r: Option<string>)
    ensures r.Some? <==> SauceEnabled(cfg)
    ensures r.Some? ==> r.value == "sauce:job-result=" + (if driverAllPassed then "true" else "false")
  {
    if SauceEnabled(cfg) then Some("sauce:job-result=" + (if driverAllPassed then "true" else "false"))
    else None
  }

  /** One step of the module-level `allPassed`: unchanged without a current test, otherwise
      AND-ed with "this test passed". */
  function AfterTest(allPassed: bool, test: Option<Test>): (r: bool)
    ensures r ==> allPassed
    ensures r <==> allPassed && (test.None? || test.value.state == Passed)
  {
    if test.None? then allPassed else allPassed && test.value.state == Passed
  }

  /** `allPassed` after the screenshot hook has run for each of `tests` in turn. */
  function AfterTests(allPassed: bool, tests: seq<Option<Test>>): (r: bool)
    ensures r ==> allPassed
    ensures r ==> forall i :: 0 <= i < |tests| ==> AfterTest(true, tests[i])
    decreases |tests|
  {
    if tests == [] then allPassed
    else AfterTests(AfterTest(allPassed, tests[0]), tests[1..])
  }

  /** One step of `driver.allPassed` with Sauce enabled: the `&&` reads the current test only
      while the flag is true, so a false flag stays false without looking; None is the
      TypeError of a missing test. */
  function SauceStep(flag: bool, test: Option<Test>): (r: Option<bool>)
    ensures r.None? <==> flag && test.None?
    ensures r.Some? ==> (r.value <==> flag && test.Some? && test.value.state == Passed)
  {
    if !flag then Some(false)
    else if test.None? then None
    else Some(test.value.state == Passed)
  }

  /** `driver.allPassed` after the status hook has run for each of `tests` in turn with Sauce
      enabled, or None when one of the runs threw. A throw leaves the flag as it was, which
      is true (see `AbortedRunStaysTrue`), and the batch-level hook still pushes it. */
  function SauceRun(flag: bool, tests: seq<Option<Test>>): (r: Option<bool>)
    ensures r == Some(true) ==> flag
    decreases |tests|
  {
    if tests == [] then Some(flag)
    else
      match SauceStep(flag, tests[0])
      case None => None
      case Some(next) => SauceRun(next, tests[1..])
  }

  /** The flags the hooks keep between tests. */
  class HookState {
    /** The module-level `allPassed`, true when the module loads. */
    var allPassed: bool
    /** `driver.allPassed`, whose first value is set outside the hooks (a boolean here). */
    var driverAllPassed: bool

    constructor (initialDriverAllPassed: bool)
      ensures allPassed
      ensures driverAllPassed == initialDriverAllPassed
    {
      allPassed := true;
      driverAllPassed := initialDriverAllPassed;
    }

    /**
     * The screenshot hook: returns at once without a current test; otherwise records the
     * outcome in `allPassed` and decides on the screenshot and its name.
     */
    method TakeScreenshot(test: Option<Test>, cfg: Config, locale: string, screenSize: string, date: string)
      returns (filename: Option<string>)
      modifies this`allPassed
      ensures allPassed == AfterTest(old(allPassed), test)
      ensures filename == ScreenshotFilename(test, cfg, locale, screenSize, date)
    {
      if test.None? {
        return None;
      }
      var t := test.value;
      allPassed := allPassed && t.state == Passed;
      if t.state == Failed {
        if Truthy(cfg.neverSaveScreenshots) {
          return None;
        }
        filename := Some(FailedFilename(locale, screenSize, t.title, date));
      } else if IsTrue(cfg.saveAllScreenshots) {
        filename := Some(SaveAllFilename(locale, screenSize, SuiteName(t.fullTitle), t.title, date));
      } else {
        return None;
      }
    }

    /**
     * The local Sauce job-status hook: with Sauce enabled it AND-s `driver.allPassed` with
     * "this test passed". The `&&` reads the current test only when the flag is still true,
     * and without a guard: a TypeError when there is none, leaving the flag as it was.
     */
    method UpdateSauceStatus(test: Option<Test>, cfg: Config) returns (result: HookResult)
      modifies this`driverAllPassed
      ensures result == (if !SauceEnabled(cfg) then Skip
                         else if old(driverAllPassed) && test.None? then TypeError
                         else Act)
      ensures driverAllPassed == (if result == Act then old(driverAllPassed) && test.value.state == Passed
                                  else old(driverAllPassed))
      ensures SauceEnabled(cfg) ==> (result == TypeError <==> SauceStep(old(driverAllPassed), test).None?)
      ensures result == Act ==> Some(driverAllPassed) == SauceStep(old(driverAllPassed), test)
    {
      if !SauceEnabled(cfg) {
        return Skip;
      }
      if driverAllPassed {
        if test.None? {
          return TypeError;
        }
        driverAllPassed := test.value.state == Passed;
      }
      result := Act;
    }

    /** The batch-level hook that pushes the job status to Sauce Labs. */
    method PushJobStatus(cfg: Config) returns (script: Option<string>)
      ensures SauceEnabled(cfg) <==> script.Some?
      ensures script.Some? ==> script.value == "sauce:job-result=" + (if driverAllPassed then "true" else "false")
    {
      script := JobResultScript(cfg, driverAllPassed);
    }
  }

  // ---------------------------------------------------------------------------------------
  // Properties of the hooks
  // ---------------------------------------------------------------------------------------

  /** After a run of tests, `allPassed` holds exactly when it held before and every test that
      was current passed; runs without a current test leave it alone. */
  lemma {:induction false} AfterTestsAllPassed(allPassed: bool, tests: seq<Option<Test>>)
    ensures AfterTests(allPassed, tests) <==>
      allPassed && forall i :: 0 <= i < |tests| && tests[i].Some? ==> tests[i].value.state == Passed
    decreases |tests|
  {
    if tests != [] {
      AfterTestsAllPassed(AfterTest(allPassed, tests[0]), tests[1..]);
      forall i | 1 <= i < |tests| ensures tests[i] == tests[1..][i - 1] { }
    }
  }

  /** Once `allPassed` is false, no later test makes it true again. */
  lemma {:induction false} FalseStaysFalse(tests: seq<Option<Test>>, more: seq<Option<Test>>, allPassed: bool)
    requires !AfterTests(allPassed, tests)
    ensures !AfterTests(allPassed, tests + more)
    decreases |tests|
  {
    if tests == [] {
      assert tests + more == more;
      AfterTestsAllPassed(false, more);
    } else {
      assert (tests + more)[1..] == tests[1..] + more;
      FalseStaysFalse(tests[1..], more, AfterTest(allPassed, tests[0]));
    }
  }

  /** With Sauce enabled, a run of the status hook in which no call threw leaves
      `driver.allPassed` true exactly when it started true and every test was present and
      passed. */
  lemma {:induction false} SauceRunAllPassed(flag: bool, tests: seq<Option<Test>>)
    ensures SauceRun(flag, tests) == Some(true) <==>
      flag && forall i :: 0 <= i < |tests| ==> tests[i].Some? && tests[i].value.state == Passed
    decreases |tests|
  {
    if tests != [] {
      var step := SauceStep(flag, tests[0]);
      if step.Some? {
        SauceRunAllPassed(step.value, tests[1..]);
        forall i | 1 <= i < |tests| ensures tests[i] == tests[1..][i - 1] { }
      }
    }
  }

  /** A run that starts with a false `driver.allPassed` never throws and ends false: the `&&`
      never reads a test again. */
  lemma {:induction false} SauceRunFalseStaysFalse(tests: seq<Option<Test>>)
    ensures SauceRun(false, tests) == Some(false)
    decreases |tests|
  {
    if tests != [] {
      SauceRunFalseStaysFalse(tests[1..]);
    }
  }

  /** The run throws exactly when, while the flag is still true, a test is missing. */
  lemma {:induction false} SauceRunThrows(flag: bool, tests: seq<Option<Test>>)
    ensures SauceRun(flag, tests).None? <==>
      flag && exists k :: (0 <= k < |tests| && tests[k].None? &&
                           forall i :: 0 <= i < k ==> tests[i].Some? && tests[i].value.state == Passed)
    decreases |tests|
  {
    if tests != [] {
      var step := SauceStep(flag, tests[0]);
      if step.Some? {
        if step.value {
          SauceRunThrows(true, tests[1..]);
          if SauceRun(flag, tests).None? {
            var k :| 0 <= k < |tests[1..]| && tests[1..][k].None? &&
              forall i :: 0 <= i < k ==> tests[1..][i].Some? && tests[1..][i].value.state == Passed;
            assert tests[k + 1].None?;
            forall i | 0 <= i < k + 1 ensures tests[i].Some? && tests[i].value.state == Passed {
              if i > 0 { assert tests[i] == tests[1..][i - 1]; }
            }
          } else if flag {
            forall k | 0 <= k < |tests| && tests[k].None?
              ensures exists i :: 0 <= i < k && !(tests[i].Some? && tests[i].value.state == Passed)
            {
              assert k > 0;
              assert tests[1..][k - 1].None?;
              var j :| 0 <= j < k - 1 && !(tests[1..][j].Some? && tests[1..][j].value.state == Passed);
              assert tests[j + 1] == tests[1..][j];
            }
          }
        } else {
          SauceRunFalseStaysFalse(tests[1..]);
          if flag {
            forall k | 0 <= k < |tests| && tests[k].None?
              ensures exists i :: 0 <= i < k && !(tests[i].Some? && tests[i].value.state == Passed)
            {
              assert !(tests[0].Some? && tests[0].value.state == Passed);
            }
          }
        }
      }
    }
  }

  /** The job result pushed at the end of a run that did not throw reads `true` exactly when
      `driver.allPassed` started true and every test was present and passed. */
  lemma JobResultTrueIffAllPassed(cfg: Config, flag: bool, tests: seq<Option<Test>>)
    requires SauceEnabled(cfg) && SauceRun(flag, tests).Some?
    ensures JobResultScript(cfg, SauceRun(flag, tests).value) == Some("sauce:job-result=true") <==>
      flag && forall i :: 0 <= i < |tests| ==> tests[i].Some? && tests[i].value.state == Passed
  {
    SauceRunAllPassed(flag, tests);
    if !SauceRun(flag, tests).value {
      var script := JobResultScript(cfg, false).value;
      assert script[17] == 'f' && "sauce:job-result=true"[17] == 't';
    } else {
      assert "sauce:job-result=" + "true" == "sauce:job-result=true";
    }
  }

  /** A run that throws has kept `driver.allPassed` true up to the missing test, so the
      batch-level hook, which still runs, pushes `sauce:job-result=true` for it. */
  lemma AbortedRunStaysTrue(cfg: Config, flag: bool, tests: seq<Option<Test>>)
    requires SauceEnabled(cfg) && SauceRun(flag, tests).None?
    ensures exists k :: 0 <= k < |tests| && tests[k].None? && SauceRun(flag, tests[..k]) == Some(true)
    ensures JobResultScript(cfg, true) == Some("sauce:job-result=true")
  {
    SauceRunThrows(flag, tests);
    var k :| 0 <= k < |tests| && tests[k].None? &&
      forall i :: 0 <= i < k ==> tests[i].Some? && tests[i].value.state == Passed;
    forall i | 0 <= i < k ensures tests[..k][i] == tests[i] { }
    SauceRunAllPassed(flag, tests[..k]);
    assert "sauce:job-result=" + "true" == "sauce:job-result=true";
  }

  /** A failed test with a truthy `neverSaveScreenshots` gets no screenshot. */
  lemma NeverSaveSuppressesFailure(test: Test, cfg: Config, locale: string, screenSize: string, date: string)
    requires test.state == Failed && Truthy(cfg.neverSaveScreenshots)
    ensures ScreenshotFilename(Some(test), cfg, locale, screenSize, date) == None
  {
  }

  /** Any other failed test is captured under the FAILED name. */
  lemma FailedTestCaptured(test: Test, cfg: Config, locale: string, screenSize: string, date: string)
    requires test.state == Failed && !Truthy(cfg.neverSaveScreenshots)
    ensures ScreenshotFilename(Some(test), cfg, locale, screenSize, date)
         == Some("FAILED-" + UpperCase(locale) + "-" + UpperCase(screenSize) + "-" + Sanitise(test.title) + "-" + date)
  {
    FailedFilenameTemplate(locale, screenSize, test.title, date);
  }

  /** A test that did not fail is captured iff `saveAllScreenshots === true` (a truthy value
      such as the string "true" is not enough), under the name that embeds the suite name. */
  lemma OtherTestCapturedIffSaveAll(test: Test, cfg: Config, locale: string, screenSize: string, date: string)
    requires test.state != Failed
    ensures ScreenshotFilename(Some(test), cfg, locale, screenSize, date)
         == if cfg.saveAllScreenshots == Bool(true)
            then Some(SaveAllFilename(locale, screenSize, SuiteName(test.fullTitle), test.title, date))
            else None
  {
  }

  /** Without a current test the per-test hooks that guard on it do nothing. */
  lemma NoCurrentTestNoAction(cfg: Config, isHeadless: JsValue, locale: string, screenSize: string, date: string, allPassed: bool)
    ensures ScreenshotFilename(None, cfg, locale, screenSize, date) == None
    ensures AfterTest(allPassed, None) == allPassed
    ensures !DismissAlerts(None, cfg, isHeadless) && !StopTestVideo(None)
  {
  }

  /** Alerts are dismissed only in runs whose browser is also quit at the end, and only
      after tests whose video is kept. */
  lemma DismissImpliesQuitAndStop(test: Option<Test>, cfg: Config, isHeadless: JsValue)
    requires DismissAlerts(test, cfg, isHeadless)
    ensures QuitBrowser(cfg, isHeadless) && StopTestVideo(test)
  {
  }

  /** A test whose failure screenshot is written also has its video stopped. */
  lemma FailureScreenshotKeepsVideo(test: Option<Test>, cfg: Config, locale: string, screenSize: string, date: string)
    requires test.Some? && CapturePolicy(test.value.state, cfg) == CaptureFailure
    ensures StopTestVideo(test)
    ensures ScreenshotFilename(test, cfg, locale, screenSize, date).Some?
  {
  }
}
