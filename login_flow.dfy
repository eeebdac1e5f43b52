/**
 * The login flow of lib/flows/login-flow.js: how the constructor resolves the test account
 * (by configuration key, by default key for the host, or by a feature set drawn from the
 * pool), which credentials a login submits, which site the journeys switch to, and the
 * release of the account in `end()`.
 *
 * The helpers of the unseen data-helper module are parameters: `accountConfig` is
 * `getAccountConfig`, `pick` is `pickRandomAccountWithFeatures` (its random choice is fixed
 * by the function passed in), `host` is the value of `getJetpackHost()` and
 * `jetpackSiteName` that of `getJetpackSiteName()`. Browser navigation is represented by
 * opaque steps; each journey is the sequence of steps it drives.
 */
module LoginFlow {
  import opened Wrappers

  /** The constructor's `accountOrFeatures` argument: missing, a configuration key, or a
      feature set for the account pool. */
  datatype Selector = NoSelector | Key(name: string) | Features(features: seq<string>)

  /** JavaScript truthiness of the argument: a missing value and the empty key are falsy,
      a feature array is always truthy. */
  predicate Truthy(sel: Selector) {
    !(sel.NoSelector? || sel == Key(""))
  }

  /** The triple `[login, password, loginURL]` kept under a configuration key. */
  datatype LegacyConfig = LegacyConfig(login: string, password: string, loginURL: string)

  /** An account record; an empty string stands for a missing email or username, and pool
      accounts may have no `legacyAccountName`. */
  datatype Account = Account(
    email: string,
    username: string,
    password: string,
    loginURL: string,
    legacyAccountName: Option<string>)

  /** The two errors the constructor throws. */
  datatype FlowError = AccountKeyNotFound(key: string) | NoAccountWithFeatures(features: seq<string>)

  /** The key used when no argument is given. */
  function DefaultKey(host: string): (k: string)
    ensures k != ""
  {
    if host != "WPCOM" then "jetpackUser" + host else "defaultUser"
  }

  /** The argument after the two defaulting assignments of the constructor. */
  function EffectiveSelector(host: string, sel: Selector): (r: Selector)
    ensures Truthy(r)
  {
    if Truthy(sel) then sel else Key(DefaultKey(host))
  }

  /** The account record built from a key's configuration triple. */
  function LegacyAccount(key: string, config: LegacyConfig): Account {
    Account(config.login, config.login, config.password, config.loginURL, Some(key))
  }

  /** What the constructor stores in `this.account`, or the error it throws. */
  function Resolve(
    host: string, sel: Selector,
    accountConfig: string -> Option<LegacyConfig>,
    pick: seq<string> -> Option<Account>): (r: Result<Account, FlowError>)
    ensures var s := EffectiveSelector(host, sel);
            r.Failure? <==> (s.Key? && accountConfig(s.name).None?) || (s.Features? && pick(s.features).None?)
    ensures var s := EffectiveSelector(host, sel);
            r.Failure? ==> r.error == if s.Key? then AccountKeyNotFound(s.name) else NoAccountWithFeatures(s.features)
    ensures var s := EffectiveSelector(host, sel);
            r.Success? && s.Key? ==> r.value.legacyAccountName == Some(s.name) && r.value.email == r.value.username
  {
    var s := EffectiveSelector(host, sel);
    if s.Key? then
      var config := accountConfig(s.name);
      if config.None? then Failure(AccountKeyNotFound(s.name))
      else Success(LegacyAccount(s.name, config.value))
    else
      var account := pick(s.features);
      if account.None? then Failure(NoAccountWithFeatures(s.features))
      else Success(account.value)
  }

  /** The account resolution of the constructor, step by step as the source does it. */
  method ResolveAccount(
    host: string, accountOrFeatures: Selector,
    accountConfig: string -> Option<LegacyConfig>,
    pick: seq<string> -> Option<Account>)
    returns (r: Result<Account, FlowError>)
    ensures r == Resolve(host, accountOrFeatures, accountConfig, pick)
  {
    var sel := accountOrFeatures;
    if host != "WPCOM" && !Truthy(sel) {
      sel := Key("jetpackUser" + host);
    }
    if !Truthy(sel) {
      sel := Key("defaultUser");
    }
    if sel.Key? {
      var legacyConfig := accountConfig(sel.name);
      if legacyConfig.None? {
        return Failure(AccountKeyNotFound(sel.name));
      }
      r := Success(Account(legacyConfig.value.login, legacyConfig.value.login,
                           legacyConfig.value.password, legacyConfig.value.loginURL, Some(sel.name)));
    } else {
      var account := pick(sel.features);
      if account.None? {
        return Failure(NoAccountWithFeatures(sel.features));
      }
      r := Success(account.value);
    }
  }

  /** `this.account.email || this.account.username`: the name a login submits. */
  function LoginName(account: Account): (name: string)
    ensures account.email != "" ==> name == account.email
    ensures account.email == "" ==> name == account.username
  {
    if account.email != "" then account.email else account.username
  }

  /** The legacy account used only to connect a Jetpack site, which never switches site. */
  predicate IsConnectAccount(account: Account) {
    account.legacyAccountName == Some("jetpackConnectUser")
  }

  /** A truthy site argument. */
  predicate Given(site: Option<string>) {
    site.Some? && site.value != ""
  }

  /** The `siteURL` that `loginAndStartNewPost` passes to "create new post". */
  function NewPostSite(host: string, account: Account, siteURL: Option<string>, jetpackSiteName: string): (r: Option<string>)
    ensures Given(siteURL) ==> r == siteURL
    ensures !Given(siteURL) && host != "WPCOM" && !IsConnectAccount(account) ==> r == Some(jetpackSiteName)
    ensures r != siteURL ==> r == Some(jetpackSiteName) && host != "WPCOM" && !IsConnectAccount(account)
  {
    if Given(siteURL) || (host != "WPCOM" && !IsConnectAccount(account)) then
      Some(if Given(siteURL) then siteURL.value else jetpackSiteName)
    else siteURL
  }

  /** The site `loginAndSelectMySite` searches for in the site switcher, or None when it does
      not switch site. */
  function MySiteSearch(host: string, account: Account, site: Option<string>, jetpackSiteName: string): (r: Option<string>)
    ensures r.Some? <==> Given(site) || ((host == "CI" || host == "JN") && !IsConnectAccount(account))
    ensures Given(site) ==> r == site
    ensures r.Some? && !Given(site) ==> r.value == jetpackSiteName
  {
    if Given(site) || ((host == "CI" || host == "JN") && !IsConnectAccount(account)) then
      Some(if Given(site) then site.value else jetpackSiteName)
    else None
  }

  /** The site `loginAndSelectThemes` searches for after selecting "My Sites", or None. */
  function ThemesSearch(host: string, account: Account, jetpackSiteName: string): (r: Option<string>)
    ensures r.Some? <==> (host == "CI" || host == "JN") && !IsConnectAccount(account)
    ensures r.Some? ==> r.value == jetpackSiteName
  {
    if (host == "CI" || host == "JN") && !IsConnectAccount(account) then Some(jetpackSiteName) else None
  }

  /** Sidebar entries the journeys select. */
  datatype SidebarItem = AddNewPage | Domains | People | AddPerson | AllSites | Themes
                       | ManagePlugins | Plugins | Settings | StoreOption

  /** The opaque browser steps a journey drives; each `Expect` waits for its page. */
  datatype Step =
    | EnsureNotLoggedIn
    | VisitLoginPage
    | ExpectLoginPage
    | SubmitLogin(usernameOrEmail: string, password: string)
    | ExpectReaderPage
    | ClickCreateNewPost(siteURL: Option<string>)
    | ClickMySites
    | SelectSiteSwitcher
    | SearchForSite(site: string)
    | ExpectStatsPage
    | ExpectEditorPage
    | SetABTestControlGroups
    | SelectInSidebar(item: SidebarItem)
    | ExpectStoreDashboard

  /** Opening the site switcher and searching, when there is a site to search for. */
  function SwitchSite(search: Option<string>): seq<Step> {
    if search.None? then [] else [SelectSiteSwitcher, SearchForSite(search.value)]
  }

  /** What `this.account` can hold: the source guards `end()` against a string. */
  datatype AccountSlot = LegacyString(key: string) | Record(account: Account)

  class LoginFlow {
    /** The module-level host classification (`getJetpackHost()`). */
    const host: string
    /** Set once, by the constructor. */
    const account: AccountSlot
    /** Whether `this.editorPage` has been set by a journey. */
    var hasEditorPage: bool
    /** Whether `this.sideBarComponent` has been set by a journey. */
    var hasSideBarComponent: bool

    predicate Valid() {
      account.Record?
    }

    constructor (host: string, account: Account)
      ensures Valid()
      ensures this.host == host && this.account == Record(account)
      ensures !hasEditorPage && !hasSideBarComponent
    {
      this.host := host;
      this.account := Record(account);
      hasEditorPage := false;
      hasSideBarComponent := false;
    }

    /** `login()`: log out if needed, visit the login page and submit the credentials. */
    function Login(): (steps: seq<Step>)
      requires Valid()
      ensures |steps| == 3 && steps[2] == SubmitLogin(LoginName(account.account), account.account.password)
    {
      [EnsureNotLoggedIn, VisitLoginPage, SubmitLogin(LoginName(account.account), account.account.password)]
    }

    /** `loginUsingExistingForm()`: submit the credentials on the login page already shown. */
    function LoginUsingExistingForm(): (steps: seq<Step>)
      requires Valid()
      ensures |steps| == 2 && steps[1] == Login()[2]
    {
      [ExpectLoginPage, SubmitLogin(LoginName(account.account), account.account.password)]
    }

    /** `loginAndSelectMySite(site)`. */
    function LoginAndSelectMySite(site: Option<string>, jetpackSiteName: string): (steps: seq<Step>)
      requires Valid()
      ensures |steps| == if MySiteSearch(host, account.account, site, jetpackSiteName).None? then 6 else 8
      ensures steps[..3] == Login() && steps[3] == ExpectReaderPage && steps[4] == ClickMySites
      ensures steps[|steps| - 1] == ExpectStatsPage
    {
      Login() + [ExpectReaderPage, ClickMySites]
        + SwitchSite(MySiteSearch(host, account.account, site, jetpackSiteName))
        + [ExpectStatsPage]
    }

    /** The steps of `loginAndStartNewPost(siteURL)`. */
    function StartNewPostSteps(siteURL: Option<string>, jetpackSiteName: string): (steps: seq<Step>)
      requires Valid()
      ensures |steps| == 7 && steps[..3] == Login() && steps[3] == ExpectReaderPage
      ensures steps[4] == ClickCreateNewPost(NewPostSite(host, account.account, siteURL, jetpackSiteName))
      ensures steps[5] == ExpectEditorPage && steps[6] == SetABTestControlGroups
    {
      Login() + [ExpectReaderPage, ClickCreateNewPost(NewPostSite(host, account.account, siteURL, jetpackSiteName)),
                 ExpectEditorPage, SetABTestControlGroups]
    }

    /** The steps of `loginAndStartNewPage(site)`. */
    function StartNewPageSteps(site: Option<string>, jetpackSiteName: string): (steps: seq<Step>)
      requires Valid()
      ensures var mySite := LoginAndSelectMySite(site, jetpackSiteName);
              |steps| == |mySite| + 3 && steps[..|mySite|] == mySite
      ensures steps[..3] == Login()
      ensures steps[|steps| - 3] == SelectInSidebar(AddNewPage) && steps[|steps| - 2] == ExpectEditorPage
      ensures steps[|steps| - 1] == SetABTestControlGroups
    {
      LoginAndSelectMySite(site, jetpackSiteName) + [SelectInSidebar(AddNewPage), ExpectEditorPage, SetABTestControlGroups]
    }

    /** `loginAndSelectDomains`, `…People`, `…AddPersonFromSidebar`, `…ManagePlugins`,
        `…Plugins` and `…Settings`: "My Sites", then one sidebar entry. */
    function LoginAndSelectFromSidebar(item: SidebarItem, jetpackSiteName: string): (steps: seq<Step>)
      requires Valid()
      requires item in {Domains, People, AddPerson, ManagePlugins, Plugins, Settings}
      ensures |steps| == |LoginAndSelectMySite(None, jetpackSiteName)| + 1
      ensures steps[..|steps| - 1] == LoginAndSelectMySite(None, jetpackSiteName)
      ensures steps[..3] == Login() && steps[|steps| - 1] == SelectInSidebar(item)
    {
      LoginAndSelectMySite(None, jetpackSiteName) + [SelectInSidebar(item)]
    }

    /** `loginAndSelectAllSites`. */
    function LoginAndSelectAllSites(jetpackSiteName: string): (steps: seq<Step>)
      requires Valid()
      ensures |steps| == |LoginAndSelectMySite(None, jetpackSiteName)| + 2
      ensures steps[..|steps| - 2] == LoginAndSelectMySite(None, jetpackSiteName)
      ensures steps[..3] == Login()
      ensures steps[|steps| - 2] == SelectSiteSwitcher && steps[|steps| - 1] == SelectInSidebar(AllSites)
    {
      LoginAndSelectMySite(None, jetpackSiteName) + [SelectSiteSwitcher, SelectInSidebar(AllSites)]
    }

    /** `loginAndSelectThemes`. */
    function LoginAndSelectThemes(jetpackSiteName: string): (steps: seq<Step>)
      requires Valid()
      ensures var mySite := LoginAndSelectMySite(None, jetpackSiteName);
              |mySite| < |steps| && steps[..|mySite|] == mySite
      ensures steps[..3] == Login() && steps[|steps| - 1] == SelectInSidebar(Themes)
      ensures |steps| == if ThemesSearch(host, account.account, jetpackSiteName).None? then 7 else 11
      ensures ThemesSearch(host, account.account, jetpackSiteName).Some? ==>
                steps[|steps| - 3] == SelectSiteSwitcher && steps[|steps| - 2] == SearchForSite(jetpackSiteName)
    {
      LoginAndSelectMySite(None, jetpackSiteName)
        + SwitchSite(ThemesSearch(host, account.account, jetpackSiteName))
        + [SelectInSidebar(Themes)]
    }

    /** The steps of `loginAndOpenWooStore`. */
    function OpenWooStoreSteps(jetpackSiteName: string): (steps: seq<Step>)
      requires Valid()
      ensures |steps| == |LoginAndSelectMySite(None, jetpackSiteName)| + 2
      ensures steps[..|steps| - 2] == LoginAndSelectMySite(None, jetpackSiteName)
      ensures steps[..3] == Login()
      ensures steps[|steps| - 2] == SelectInSidebar(StoreOption) && steps[|steps| - 1] == ExpectStoreDashboard
    {
      LoginAndSelectMySite(None, jetpackSiteName) + [SelectInSidebar(StoreOption), ExpectStoreDashboard]
    }

    /** `loginAndStartNewPost(siteURL)`: drives its steps and keeps the editor page. */
    method LoginAndStartNewPost(siteURL: Option<string>, jetpackSiteName: string) returns (steps: seq<Step>)
      requires Valid()
      modifies this`hasEditorPage
      ensures steps == StartNewPostSteps(siteURL, jetpackSiteName)
      ensures hasEditorPage
    {
      steps := StartNewPostSteps(siteURL, jetpackSiteName);
      hasEditorPage := true;
    }

    /** `loginAndStartNewPage(site)`: drives its steps and keeps the editor page. */
    method LoginAndStartNewPage(site: Option<string>, jetpackSiteName: string) returns (steps: seq<Step>)
      requires Valid()
      modifies this`hasEditorPage
      ensures steps == StartNewPageSteps(site, jetpackSiteName)
      ensures hasEditorPage
    {
      steps := StartNewPageSteps(site, jetpackSiteName);
      hasEditorPage := true;
    }

    /** `loginAndOpenWooStore()`: drives its steps and keeps the sidebar component. */
    method LoginAndOpenWooStore(jetpackSiteName: string) returns (steps: seq<Step>)
      requires Valid()
      modifies this`hasSideBarComponent
      ensures steps == OpenWooStoreSteps(jetpackSiteName)
      ensures hasSideBarComponent
    {
      steps := OpenWooStoreSteps(jetpackSiteName);
      hasSideBarComponent := true;
    }

    /** `end()`: the account is released unless it is a string, which it never is. */
    method End() returns (released: Option<Account>)
      requires Valid()
      ensures released == Some(account.account)
    {
      if !account.LegacyString? {
        released := Some(account.account);
      } else {
        released := None;
      }
    }
  }

  /** `new LoginFlow(driver, accountOrFeatures)`: the object, or the error the constructor throws. */
  method NewLoginFlow(
    host: string, accountOrFeatures: Selector,
    accountConfig: string -> Option<LegacyConfig>,
    pick: seq<string> -> Option<Account>)
    returns (r: Result<LoginFlow, FlowError>)
    ensures r.Failure? <==> Resolve(host, accountOrFeatures, accountConfig, pick).Failure?
    ensures r.Failure? ==> r.error == Resolve(host, accountOrFeatures, accountConfig, pick).error
    ensures r.Success? ==>
      fresh(r.value) && r.value.Valid() && r.value.host == host &&
      r.value.account == Record(Resolve(host, accountOrFeatures, accountConfig, pick).value)
  {
    var account := ResolveAccount(host, accountOrFeatures, accountConfig, pick);
    if account.Failure? {
      return Failure(account.error);
    }
    var flow := new LoginFlow(host, account.value);
    r := Success(flow);
  }

  // ---------------------------------------------------------------------------------------
  // Properties of account resolution
  // ---------------------------------------------------------------------------------------

  /** Without a (truthy) argument the key is `'jetpackUser' + host` off WordPress.com and
      `'defaultUser'` on it. */
  lemma DefaultKeyByHost(host: string, sel: Selector)
    requires !Truthy(sel)
    ensures host != "WPCOM" ==> EffectiveSelector(host, sel) == Key("jetpackUser" + host)
    ensures host == "WPCOM" ==> EffectiveSelector(host, sel) == Key("defaultUser")
  {
  }

  /** A supplied argument is never replaced. */
  lemma SuppliedSelectorKept(host: string, sel: Selector)
    requires Truthy(sel)
    ensures EffectiveSelector(host, sel) == sel
  {
  }

  /** A key missing from the configuration is an error, and no account is produced. */
  lemma MissingKeyFails(host: string, sel: Selector, key: string,
                        accountConfig: string -> Option<LegacyConfig>, pick: seq<string> -> Option<Account>)
    requires EffectiveSelector(host, sel) == Key(key) && accountConfig(key).None?
    ensures Resolve(host, sel, accountConfig, pick) == Failure(AccountKeyNotFound(key))
  {
  }

  /** A found key yields the account built from its triple: email and username are both the
      first entry, and the key is kept as the legacy account name. */
  lemma FoundKeyAccount(host: string, sel: Selector, key: string,
                        accountConfig: string -> Option<LegacyConfig>, pick: seq<string> -> Option<Account>)
    requires EffectiveSelector(host, sel) == Key(key) && accountConfig(key).Some?
    ensures var r := Resolve(host, sel, accountConfig, pick);
            var c := accountConfig(key).value;
            r.Success? && r.value.email == c.login && r.value.username == c.login
            && r.value.password == c.password && r.value.loginURL == c.loginURL
            && r.value.legacyAccountName == Some(key)
            && LoginName(r.value) == c.login
  {
  }

  /** A feature set for which the pool has no account is an error. */
  lemma NoFeatureMatchFails(host: string, features: seq<string>,
                            accountConfig: string -> Option<LegacyConfig>, pick: seq<string> -> Option<Account>)
    requires pick(features).None?
    ensures Resolve(host, Features(features), accountConfig, pick) == Failure(NoAccountWithFeatures(features))
  {
  }

  /** Every resolved account comes from where the argument points: the configuration of the
      effective key, or the pool's answer for the feature set. */
  lemma ResolvedAccountOrigin(host: string, sel: Selector, account: Account,
                              accountConfig: string -> Option<LegacyConfig>, pick: seq<string> -> Option<Account>)
    requires Resolve(host, sel, accountConfig, pick) == Success(account)
    ensures var s := EffectiveSelector(host, sel);
            (s.Key? && accountConfig(s.name).Some? && account == LegacyAccount(s.name, accountConfig(s.name).value))
            || (s.Features? && s == sel && pick(s.features) == Some(account))
  {
  }

  // ---------------------------------------------------------------------------------------
  // Properties of the journeys
  // ---------------------------------------------------------------------------------------

  /** An explicit site always wins over the host-derived default, in both journeys that take one. */
  lemma ExplicitSiteWins(host: string, account: Account, site: Option<string>, jetpackSiteName: string)
    requires Given(site)
    ensures NewPostSite(host, account, site, jetpackSiteName) == site
    ensures MySiteSearch(host, account, site, jetpackSiteName) == site
  {
  }

  /** Without an explicit site, a new post goes to the Jetpack site iff the host is not
      WordPress.com and the account is not the connect account; otherwise the argument is
      passed on unchanged. */
  lemma NewPostSiteWithoutSite(host: string, account: Account, siteURL: Option<string>, jetpackSiteName: string)
    requires !Given(siteURL)
    ensures NewPostSite(host, account, siteURL, jetpackSiteName)
         == if host != "WPCOM" && !IsConnectAccount(account) then Some(jetpackSiteName) else siteURL
  {
  }

  /** `loginAndSelectMySite` searches for a site iff a site is given or the host is CI or JN and
      the account is not the connect account; the site searched is the given one, else the
      Jetpack site. */
  lemma {:induction false} MySiteSwitchesIff(flow: LoginFlow, site: Option<string>, jetpackSiteName: string, url: string)
    requires flow.Valid()
    ensures SearchForSite(url) in flow.LoginAndSelectMySite(site, jetpackSiteName)
        <==> (Given(site) || ((flow.host == "CI" || flow.host == "JN") && !IsConnectAccount(flow.account.account)))
             && url == (if Given(site) then site.value else jetpackSiteName)
  {
    var search := MySiteSearch(flow.host, flow.account.account, site, jetpackSiteName);
    var steps := flow.LoginAndSelectMySite(site, jetpackSiteName);
    var fixed := flow.Login() + [ExpectReaderPage, ClickMySites];
    assert steps == fixed + SwitchSite(search) + [ExpectStatsPage];
    assert SearchForSite(url) !in fixed;
    assert SearchForSite(url) in steps <==> SearchForSite(url) in SwitchSite(search);
  }

  /** Every journey starts by logging in with the flow's credentials. */
  lemma JourneysStartWithLogin(flow: LoginFlow, site: Option<string>, item: SidebarItem, jetpackSiteName: string)
    requires flow.Valid()
    requires item in {Domains, People, AddPerson, ManagePlugins, Plugins, Settings}
    ensures var login := flow.Login();
            flow.LoginAndSelectMySite(site, jetpackSiteName)[..3] == login
            && flow.StartNewPostSteps(site, jetpackSiteName)[..3] == login
            && flow.StartNewPageSteps(site, jetpackSiteName)[..3] == login
            && flow.LoginAndSelectFromSidebar(item, jetpackSiteName)[..3] == login
            && flow.LoginAndSelectAllSites(jetpackSiteName)[..3] == login
            && flow.LoginAndSelectThemes(jetpackSiteName)[..3] == login
            && flow.OpenWooStoreSteps(jetpackSiteName)[..3] == login
  {
  }

  /** The host tests of the two journeys differ: on a host other than WordPress.com, CI and JN,
      a new post goes to the Jetpack site while "My Sites" does not switch site. */
  lemma HostTestsDiffer(host: string, account: Account, jetpackSiteName: string)
    requires host != "WPCOM" && host != "CI" && host != "JN" && !IsConnectAccount(account)
    ensures NewPostSite(host, account, None, jetpackSiteName) == Some(jetpackSiteName)
    ensures MySiteSearch(host, account, None, jetpackSiteName) == None
  {
  }

  /** The themes journey searches again for exactly the site its "My Sites" step already
      switched to. */
  lemma ThemesRepeatsMySiteSearch(host: string, account: Account, jetpackSiteName: string)
    ensures ThemesSearch(host, account, jetpackSiteName) == MySiteSearch(host, account, None, jetpackSiteName)
  {
  }
}
