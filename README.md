# Screenshot naming, hook decisions and login-flow account resolution

This project is a Dafny model of the two pieces of logic inside a WordPress.com
end-to-end browser test suite that are more than calls to the browser driver.

- **The Mocha hooks** (`lib/mocha-hooks.js`). After each test they decide whether to take a
  screenshot and what to call it. The name is built from the locale, the screen size, the
  sanitised test title, the suite name and a timestamp. The hooks also decide whether to
  break into the Sauce Labs debugger, dismiss alerts, stop the test's video and quit the
  browser. Across tests they keep two pass/fail flags: the module-level `allPassed` and
  `driver.allPassed`.
- **The login flow** (`lib/flows/login-flow.js`). Its constructor resolves the test account
  from a configuration key (a default key depends on the host) or from a feature set drawn
  from the account pool. It throws when the route it takes yields no account. Its journeys log in
  with `email || username` and the password, then switch site under conditions that depend
  on the host and on whether the account is the Jetpack connect account. `end()` releases
  the account.

Modules:

- `Wrappers` (wrappers.dfy): `Option` and `Result`.
- `ScreenshotNames` (screenshot_names.dfy): title sanitisation, the suite-name cut, the two
  file-name shapes, and lemmas about them.
- `MochaHooks` (mocha_hooks.dfy): JavaScript truthiness versus `=== true`, the capture
  policy, the hook predicates, and the class `HookState`. That class holds the two flags,
  which the hooks update in place.
- `LoginFlow` (login_flow.dfy): account resolution, written once as a specification function
  (`Resolve`) and once step by step as the source does it (`ResolveAccount`). It also holds
  the credential and site-switch choices, the journeys as sequences of opaque browser steps,
  and the class `LoginFlow`, whose account is set once by its constructor.

Some small definitions have no row of their own, because other members state their content:
`LegacyAccount` (through `FoundKeyAccount`), `SauceEnabled` (through `QuitBrowser` and
`JobResultScript`), `SwitchSite` (through `MySiteSwitchesIff` and the journeys), and the
character maps `LowerChar` and `UpperChar` (through `LowerCase` and `UpperCase`).

The unseen helpers become inputs. These are `getAccountConfig`,
`pickRandomAccountWithFeatures`, `getJetpackHost`, `getJetpackSiteName`,
`currentLocale`, `currentScreenSize`, the timestamp and `process.env.SAUCEDEBUG`.

Three points of the code's behaviour are easy to misread:

- Not every teardown hook tolerates a missing current test. The Sauce breakpoint hook and
  the local Sauce status hook read `this.currentTest.state` without a guard, but only after
  a `&&` that may stop first. The breakpoint hook fails only when `SAUCEDEBUG` is set. The
  status hook fails only when Sauce is enabled and `driver.allPassed` is still true; once
  it is false, the `&&` never reads the test. The model returns `TypeError` in exactly
  those cases (`SauceBreakpoint`, `HookState.UpdateSauceStatus`).
- `end()` releases every account that is not a string, legacy key accounts included.
- Different journeys test different host conditions. `HostTestsDiffer` and
  `ThemesRepeatsMySiteSearch` state the consequences.

## Model

| member | source | states |
|---|---|---|
| `ScreenshotNames.DashNonAlnum` | lib/mocha-hooks.js:48 | same length; alphanumerics kept in place, every other code unit becomes `-` |
| `ScreenshotNames.LowerCase` | lib/mocha-hooks.js:48 | same length; no ASCII upper-case letter is left; every other code unit is unchanged; each upper-case letter becomes the lower-case letter 32 above it |
| `ScreenshotNames.UpperCase` | lib/mocha-hooks.js:56-57 | same length; no ASCII lower-case letter is left; every other code unit is unchanged; each lower-case letter becomes the upper-case letter 32 below it |
| `ScreenshotNames.Sanitise` | lib/mocha-hooks.js:48 | output length equals input length; output holds only `a-z`, `0-9`, `-`; alphanumerics kept lower-cased at their position, all else `-` |
| `ScreenshotNames.SanitiseIdempotent` | lib/mocha-hooks.js:48 | sanitising an already sanitised title changes nothing |
| `ScreenshotNames.SanitiseEqualIff` | lib/mocha-hooks.js:48 | two titles give the same name iff they agree position-wise up to case and up to which non-alphanumeric is used |
| `ScreenshotNames.AfterLastParen` | lib/mocha-hooks.js:51 | result is the suffix after the last `)` (the whole title when there is none): a suffix, free of `)`, preceded by `)` when shorter |
| `ScreenshotNames.AfterLastParenUnique` | lib/mocha-hooks.js:51 | those three properties determine the result |
| `ScreenshotNames.BeforeFirstAt` | lib/mocha-hooks.js:52 | result is the prefix before the first `@`: a prefix, free of `@`, followed by `@` when shorter |
| `ScreenshotNames.BeforeFirstAtUnique` | lib/mocha-hooks.js:52 | those three properties determine the result |
| `ScreenshotNames.AfterLastParenAt` | lib/mocha-hooks.js:51 | given the position of the last `)` (or none), what remains is everything after it |
| `ScreenshotNames.BeforeFirstAtAt` | lib/mocha-hooks.js:52 | given the position of the first `@` (or none), what remains is everything before it |
| `ScreenshotNames.SuiteName` | lib/mocha-hooks.js:49-54 | the suite name is no longer than the full title and holds only `a-z`, `0-9`, `-` |
| `ScreenshotNames.SuiteNameSlice` | lib/mocha-hooks.js:49-54 | the suite name is the sanitised slice between the last `)` and the first `@` after it |
| `ScreenshotNames.Dashed` | lib/mocha-hooks.js:74-77 | five parts joined by dashes: each part sits at its offset, separated by single dashes, and the length is the parts' total plus four |
| `ScreenshotNames.FailedFilename` | lib/mocha-hooks.js:74 | the FAILED name is ten characters longer than its four parts together (the `FAILED` prefix and four dashes) |
| `ScreenshotNames.FailedFilenameShape` | lib/mocha-hooks.js:74 | a failed test's name is `FAILED-`, the upper-cased locale, `-`, the upper-cased screen size, `-`, the sanitised title, `-` and the timestamp, each at its offset |
| `ScreenshotNames.FailedFilenameTemplate` | lib/mocha-hooks.js:74 | the FAILED name equals the source's template string written out |
| `ScreenshotNames.SaveAllFilename` | lib/mocha-hooks.js:76-77 | the save-all name is four characters (its dashes) longer than its five parts together |
| `ScreenshotNames.SaveAllFilenameShape` | lib/mocha-hooks.js:76-77 | a save-all name is the upper-cased locale, the upper-cased screen size, the suite name, the timestamp and the sanitised title, dash-separated, each at its offset |
| `MochaHooks.SauceBreakpoint` | lib/mocha-hooks.js:26-37 | breakpoint iff `SAUCEDEBUG` set, test failed and Sauce enabled; TypeError iff `SAUCEDEBUG` set and no current test |
| `MochaHooks.CapturePolicy` | lib/mocha-hooks.js:61-80 | a failure capture iff the test failed and `neverSaveScreenshots` is falsy; a save-all capture iff the test did not fail and `saveAllScreenshots === true` |
| `MochaHooks.ScreenshotFilename` | lib/mocha-hooks.js:61-80 | a name iff there is a current test and the capture policy captures; a failed test's name starts with `FAILED-` |
| `MochaHooks.AfterTest` | lib/mocha-hooks.js:45 | the flag after one test is true iff it was true and the test is absent or passed |
| `MochaHooks.AfterTests` | lib/mocha-hooks.js:45 | a flag still true after a run was true before and would stay true through each test alone |
| `MochaHooks.DismissAlerts` | lib/mocha-hooks.js:99-105 | alerts are dismissed only after a failed current test, and only when `closeBrowserOnComplete === true` or `isHeadless === true` |
| `MochaHooks.StopTestVideo` | lib/mocha-hooks.js:125-129 | the test's video is stopped iff there is a current test and it failed |
| `MochaHooks.QuitBrowser` | lib/mocha-hooks.js:146-152 | the browser is quit whenever Sauce is enabled; otherwise iff `closeBrowserOnComplete === true` or `isHeadless === true` |
| `MochaHooks.JobResultScript` | lib/mocha-hooks.js:136-138 | a script iff Sauce is enabled; it is `sauce:job-result=` followed by `true`/`false` |
| `MochaHooks.HookState.constructor` | lib/mocha-hooks.js:13 | `allPassed` starts true; `driver.allPassed` starts at the value given |
| `MochaHooks.HookState.TakeScreenshot` | lib/mocha-hooks.js:40-92 | `allPassed` AND-ed with "passed" only when there is a current test; the filename is the one the capture policy chooses |
| `MochaHooks.SauceStep` | lib/mocha-hooks.js:120 | one status step: a TypeError iff the flag is true and there is no test; otherwise the new flag is true iff the flag was true and the test is present and passed |
| `MochaHooks.SauceRun` | lib/mocha-hooks.js:116-122 | `driver.allPassed` after a run of the status hook with Sauce enabled, or None after a throw (which leaves the flag true); it ends true only if it started true |
| `MochaHooks.AbortedRunStaysTrue` | lib/mocha-hooks.js:116-139 | a run that throws kept the flag true up to the missing test, so the batch-level hook still pushes `sauce:job-result=true` |
| `MochaHooks.SauceRunAllPassed` | lib/mocha-hooks.js:120 | a run that ends true is exactly one that started true in which every test was present and passed |
| `MochaHooks.SauceRunFalseStaysFalse` | lib/mocha-hooks.js:120 | starting false, a run never throws and ends false |
| `MochaHooks.SauceRunThrows` | lib/mocha-hooks.js:120 | a run throws iff the flag started true and some test is missing while every test before it passed |
| `MochaHooks.JobResultTrueIffAllPassed` | lib/mocha-hooks.js:116-139 | after a run that did not throw, the pushed script is `sauce:job-result=true` iff the flag started true and every test was present and passed |
| `MochaHooks.HookState.UpdateSauceStatus` | lib/mocha-hooks.js:116-122 | nothing without Sauce; with Sauce, a false `driver.allPassed` stays false whether or not there is a current test; a true one becomes "the test passed", or a TypeError with no change when there is no current test; throws and new value agree with `SauceStep` |
| `MochaHooks.HookState.PushJobStatus` | lib/mocha-hooks.js:132-139 | script sent iff Sauce enabled, carrying the current `driver.allPassed` |
| `MochaHooks.AfterTestsAllPassed` | lib/mocha-hooks.js:45 | after a run, `allPassed` holds iff it held before and every current test passed |
| `MochaHooks.FalseStaysFalse` | lib/mocha-hooks.js:45 | once `allPassed` is false, no later test makes it true |
| `MochaHooks.NeverSaveSuppressesFailure` | lib/mocha-hooks.js:61-65 | a failed test with truthy `neverSaveScreenshots` gets no screenshot |
| `MochaHooks.FailedTestCaptured` | lib/mocha-hooks.js:61-74 | any other failed test gets exactly the FAILED-… name |
| `MochaHooks.OtherTestCapturedIffSaveAll` | lib/mocha-hooks.js:75-80 | a test that did not fail is captured iff `saveAllScreenshots === true`, under the save-all name |
| `MochaHooks.NoCurrentTestNoAction` | lib/mocha-hooks.js:42-45 | without a current test: no screenshot, `allPassed` unchanged, no alert dismissal, no video stop |
| `MochaHooks.DismissImpliesQuitAndStop` | lib/mocha-hooks.js:99-105 | alerts are dismissed only when the browser is also quit at the end and the test's video is stopped |
| `MochaHooks.FailureScreenshotKeepsVideo` | lib/mocha-hooks.js:124-129 | a test captured as failed also has its video stopped |
| `LoginFlow.DefaultKey` | lib/flows/login-flow.js:19-22 | the default key is never empty |
| `LoginFlow.EffectiveSelector` | lib/flows/login-flow.js:19-22 | after defaulting, the argument is always truthy |
| `LoginFlow.DefaultKeyByHost` | lib/flows/login-flow.js:19-22 | no argument: `'jetpackUser' + host` off WPCOM, `'defaultUser'` on WPCOM |
| `LoginFlow.SuppliedSelectorKept` | lib/flows/login-flow.js:19-22 | a truthy argument is never replaced |
| `LoginFlow.Resolve` | lib/flows/login-flow.js:17-44 | fails iff the effective key has no configuration or the feature set has no pool account, with the matching error; a key account carries the key as legacy name and equal email and username |
| `LoginFlow.ResolveAccount` | lib/flows/login-flow.js:17-44 | the step-by-step resolution gives exactly `Resolve` |
| `LoginFlow.MissingKeyFails` | lib/flows/login-flow.js:23-27 | a key without configuration throws "key not found" and yields no account |
| `LoginFlow.FoundKeyAccount` | lib/flows/login-flow.js:29-35 | a found key gives email = username = `config[0]`, password `config[1]`, loginURL `config[2]`, legacy name = key |
| `LoginFlow.NoFeatureMatchFails` | lib/flows/login-flow.js:36-42 | a feature set with no pool account throws |
| `LoginFlow.ResolvedAccountOrigin` | lib/flows/login-flow.js:23-43 | a resolved account is the key's configured account or the pool's answer for the unchanged feature set |
| `LoginFlow.NewLoginFlow` | lib/flows/login-flow.js:17-44 | fails iff resolution fails, with its error; otherwise a fresh flow holding the resolved account as a record |
| `LoginFlow.LoginFlow.constructor` | lib/flows/login-flow.js:17-44 | the account is stored as a record, never a string |
| `LoginFlow.LoginName` | lib/flows/login-flow.js:50-53 | the email when it is non-empty, else the username |
| `LoginFlow.LoginFlow.Login` | lib/flows/login-flow.js:46-54 | login ends by submitting `email \|\| username` and the password |
| `LoginFlow.LoginFlow.LoginUsingExistingForm` | lib/flows/login-flow.js:181-187 | the existing form receives the same credentials as `login()` |
| `LoginFlow.NewPostSite` | lib/flows/login-flow.js:57-62 | a given site is kept; without one, the Jetpack site when the host is not WPCOM and the account is not the connect account; any change of the argument is to the Jetpack site under those conditions |
| `LoginFlow.MySiteSearch` | lib/flows/login-flow.js:120-130 | a search iff a site is given or the host is CI or JN and the account is not the connect account; the given site, else the Jetpack site |
| `LoginFlow.ThemesSearch` | lib/flows/login-flow.js:147-155 | a search iff the host is CI or JN and the account is not the connect account; always for the Jetpack site |
| `LoginFlow.LoginFlow.LoginAndSelectMySite` | lib/flows/login-flow.js:111-133 | login, reader page, "My Sites", then two switcher steps exactly when a site is searched, ending on the stats page |
| `LoginFlow.LoginFlow.StartNewPostSteps` | lib/flows/login-flow.js:56-76 | seven steps: login, reader page, "create new post" for the chosen site, editor page, A/B test groups |
| `LoginFlow.LoginFlow.StartNewPageSteps` | lib/flows/login-flow.js:78-88 | the "My Sites" journey for the same site, then "add new page", the editor page and the A/B test groups last |
| `LoginFlow.LoginFlow.LoginAndSelectFromSidebar` | lib/flows/login-flow.js:90-179 | the "My Sites" journey without a site, then the one sidebar entry |
| `LoginFlow.LoginFlow.LoginAndSelectAllSites` | lib/flows/login-flow.js:135-141 | the "My Sites" journey without a site, then the switcher and "All sites" |
| `LoginFlow.LoginFlow.LoginAndSelectThemes` | lib/flows/login-flow.js:143-158 | the "My Sites" journey without a site; when the themes search applies, the site switcher and a search for the Jetpack site; then "Themes" |
| `LoginFlow.LoginFlow.OpenWooStoreSteps` | lib/flows/login-flow.js:189-194 | the "My Sites" journey without a site, then the store option and the store dashboard |
| `LoginFlow.ExplicitSiteWins` | lib/flows/login-flow.js:57-125 | a given site is always used, for new posts and for "My Sites" |
| `LoginFlow.NewPostSiteWithoutSite` | lib/flows/login-flow.js:57-62 | without a site: the Jetpack site iff host ≠ WPCOM and not the connect account, else the argument unchanged |
| `LoginFlow.MySiteSwitchesIff` | lib/flows/login-flow.js:120-130 | the site switcher searches iff a site is given or (host ∈ {CI, JN} and not the connect account); it searches the given site, else the Jetpack site |
| `LoginFlow.JourneysStartWithLogin` | lib/flows/login-flow.js:78-194 | every journey begins with the login steps |
| `LoginFlow.HostTestsDiffer` | lib/flows/login-flow.js:56-133 | on a host other than WPCOM, CI and JN, new posts go to the Jetpack site while "My Sites" does not switch |
| `LoginFlow.ThemesRepeatsMySiteSearch` | lib/flows/login-flow.js:143-158 | the themes journey searches again for the site its "My Sites" step already chose |
| `LoginFlow.LoginFlow.LoginAndStartNewPost` | lib/flows/login-flow.js:56-76 | drives the new-post steps and sets the editor page |
| `LoginFlow.LoginFlow.LoginAndStartNewPage` | lib/flows/login-flow.js:78-88 | drives the new-page steps and sets the editor page |
| `LoginFlow.LoginFlow.LoginAndOpenWooStore` | lib/flows/login-flow.js:189-194 | drives the store steps and sets the sidebar component |
| `LoginFlow.LoginFlow.End` | lib/flows/login-flow.js:196-200 | for a constructed flow the account is always released |

## Left out

- Browser and side effects are not modelled: taking and writing the screenshot, logging the URL, Slack warnings, the console-error check (lines 109-113), dismissing alerts, quitting the browser, and starting or stopping the display and video (lines 16-23, 155-163). The model returns only the decision to invoke each one.
- Mocha registration, hook ordering, `this.timeout` and promise chaining are runner behaviour and are left out.
- UpperCase: upper-cases ASCII letters only, while `toUpperCase` covers all of Unicode. Locale and screen-size strings are ASCII in practice. Sanitised titles are exact, because only ASCII survives the replacement.
- AfterLastParen: models `/.*\)/g` only for titles without line terminators. With a line break, `.` stops at the break and the cut happens once per line.
- BeforeFirstAt: models `/\@.*/g` only for titles without line terminators, for the same reason.
- `config.get` throws on a missing key. The model assumes `neverSaveScreenshots`, `saveAllScreenshots` and `closeBrowserOnComplete` are configured, and has `has` only for `sauce`.
- JavaScript numbers are integers here, so NaN (falsy) does not arise.
- The first value of `driver.allPassed` is set outside these files, so it is a constructor argument. The module-level `allPassed` is kept, though the source reads it only in its own update at line 45.
- HookState.UpdateSauceStatus: `driver.allPassed` is assumed to start as a boolean. A non-boolean start value such as `undefined` would be kept by the short-circuit and sent as `sauce:job-result=undefined`.
- Sanitise: treats a character outside the Basic Multilingual Plane as one unit. The source replaces each of its two UTF-16 code units, giving `--`, so lengths differ for such titles.
- Page objects, their `Expect` waits and timeouts, and the `driver` field are not modelled. Journeys are sequences of opaque steps. A component's `Expect` is folded into the action that follows it. The fields `editorPage` and `sideBarComponent` are reduced to "has been set".
- `getAccountConfig`, `pickRandomAccountWithFeatures`, `getJetpackSiteName`, `getJetpackHost` and `releaseAccount` are foreign code and become inputs. The random choice of a pool account is fixed by the function passed in. The pool's in-use bookkeeping is not modelled, and `End` returns the account to release.
- A missing email or username is modelled as the empty string. A configuration array shorter than three entries, which gives `undefined` fields, is not modelled.
- Error messages are represented by the error's kind and its key or feature set, not by the message text.
- lib/pages/cancel-domain-page.js is a sequence of driver calls with no decisions, and is not modelled.
