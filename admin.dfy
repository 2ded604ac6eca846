/**
 * The admin panel of plataforma/app.js without its DOM: the demo account
 * table, the session (`currentUser`, `currentSection`, the login error text,
 * which screen shows, which placeholder card is rendered) and the handlers
 * that change it: login, logout, section navigation, the client switcher and
 * the automatic login when the page loads.
 */
module AdminSession {
  import opened Wrappers
  import opened Text
  import opened KeyValueStorage

  // -------------------------------------------------------------- accounts

  datatype Account = Account(password: string, displayName: string)

  /** The demo accounts, keyed by e-mail address. */
  const Accounts: map<string, Account> := map[
    "cliente1@demo.pt" := Account("1234", "Cliente 1"),
    "cliente2@demo.pt" := Account("1234", "Cliente 2")
  ]

  /** The storage key that remembers the signed-in account. */
  const SessionKey := "currentUser"

  /** The section shown first. */
  const StartSection := "conversas"

  const MissingFieldsError := "Por favor, preencha o e\U{2011}mail e a palavra\U{2011}passe."
  const InvalidCredentialsError := "E\U{2011}mail ou palavra\U{2011}passe inv\U{E1}lidos."

  // ----------------------------------------------------------------- login

  /** `(loginEmail.value || '').trim().toLowerCase()`. */
  function NormalizeEmail(raw: string): (e: string)
    ensures |e| == |Trim(raw)| <= |raw|
  {
    Lower(Trim(raw))
  }

  /** A normalised address has no white space at its ends and no upper-case letter. */
  lemma NormalizedShape(raw: string)
    ensures Trimmed(NormalizeEmail(raw)) && IsLowerCase(NormalizeEmail(raw))
  {
    TrimSpec(raw);
    LowerKeepsTrimmed(Trim(raw));
    LowerIdempotent(Trim(raw));
  }

  /** A normalised address has nothing left to trim or lower-case. */
  lemma NormalizeEmailIdempotent(raw: string)
    ensures NormalizeEmail(NormalizeEmail(raw)) == NormalizeEmail(raw)
  {
    var t := Trim(raw);
    TrimSpec(raw);
    LowerKeepsTrimmed(t);
    TrimSpec(Lower(t));
    LowerIdempotent(t);
  }

  datatype LoginOutcome = MissingFields | InvalidCredentials | Accepted(user: string)

  /** The decision `handleLogin` takes: empty fields first, then the account and its
      password. Success exactly when the normalised address is an account whose password
      is the one typed, and the user is then that normalised address. */
  function AttemptLogin(accounts: map<string, Account>, emailInput: string, passwordInput: string): (o: LoginOutcome)
    ensures o == MissingFields <==> NormalizeEmail(emailInput) == "" || passwordInput == ""
    ensures o.Accepted? <==>
              NormalizeEmail(emailInput) != "" && passwordInput != ""
              && NormalizeEmail(emailInput) in accounts && accounts[NormalizeEmail(emailInput)].password == passwordInput
    ensures o.Accepted? ==> o.user == NormalizeEmail(emailInput) && o.user in accounts
  {
    var email := NormalizeEmail(emailInput);
    if email == "" || passwordInput == "" then MissingFields
    else if email !in accounts || accounts[email].password != passwordInput then InvalidCredentials
    else Accepted(email)
  }

  /** Letter case and surrounding white space in the typed address make no difference,
      and the signed-in user is always a normalised address. */
  lemma LoginIgnoresCaseAndPadding(accounts: map<string, Account>, emailInput: string, passwordInput: string)
    ensures AttemptLogin(accounts, emailInput, passwordInput) == AttemptLogin(accounts, NormalizeEmail(emailInput), passwordInput)
    ensures AttemptLogin(accounts, emailInput, passwordInput).Accepted? ==>
              var user := AttemptLogin(accounts, emailInput, passwordInput).user;
              NormalizeEmail(user) == user
  {
    NormalizeEmailIdempotent(emailInput);
  }

  /** A typed address with no white space at its ends and no capital letter is
      already normalised. */
  lemma NormalizedAlready(raw: string)
    requires Trimmed(raw) && IsLowerCase(raw)
    ensures NormalizeEmail(raw) == raw
  {
    TrimSpec(raw);
    LowerOfLowerCase(raw);
  }

  /** Every address in the demo table is one of the two demo addresses, has password
      "1234" and a display name, and has nothing to trim or lower-case, so by
      `NormalizedAlready` it is its own normal form and login can reach it. */
  lemma DemoAccounts(e: string)
    requires e in Accounts
    ensures e == "cliente1@demo.pt" || e == "cliente2@demo.pt"
    ensures Accounts[e].password == "1234" && Accounts[e].displayName != ""
    ensures Trimmed(e) && IsLowerCase(e)
  {
  }

  // In the examples below the typed address is a parameter pinned by `requires`: a
  // string literal inside the postcondition would make the verifier unfold
  // trimming and lower-casing on it without bound.

  /** Any typing of the demo address signs in with its password; a wrong password is
      refused; an empty password asks for both fields. */
  lemma ExampleDemoLogin(email: string)
    requires NormalizeEmail(email) == "cliente1@demo.pt"
    ensures AttemptLogin(Accounts, email, "1234") == Accepted("cliente1@demo.pt")
    ensures AttemptLogin(Accounts, email, "4321") == InvalidCredentials
    ensures AttemptLogin(Accounts, email, "") == MissingFields
  {
  }

  /** Any typing of an address that is not in the table is refused as invalid,
      whatever non-empty password comes with it. */
  lemma ExampleUnregisteredLogin(email: string, password: string)
    requires NormalizeEmail(email) != "" && NormalizeEmail(email) !in Accounts
    requires password != ""
    ensures AttemptLogin(Accounts, email, password) == InvalidCredentials
  {
  }

  /** The text `loginError` shows after an attempt. */
  function LoginErrorText(o: LoginOutcome): (text: string)
    ensures text == "" <==> o.Accepted?
  {
    match o
    case MissingFields => MissingFieldsError
    case InvalidCredentials => InvalidCredentialsError
    case Accepted(_) => ""
  }

  // -------------------------------------------------------------- sections

  /** The seven entries of the navigation menu. */
  datatype Section = Conversas | Conteudo | Fluxos | Integracoes | Agenda | Analytics | Definicoes

  /** The `data-section` name of a menu entry. */
  function SectionName(s: Section): string
  {
    match s
    case Conversas => "conversas"
    case Conteudo => "conteudo"
    case Fluxos => "fluxos"
    case Integracoes => "integracoes"
    case Agenda => "agenda"
    case Analytics => "analytics"
    case Definicoes => "definicoes"
  }

  /** The `switch` of `renderSection`: the section a name selects, if any. It inverts
      `SectionName`, and the seven names are distinct. */
  function ParseSection(name: string): (r: Option<Section>)
    ensures r.Some? ==> SectionName(r.value) == name
    ensures forall s :: SectionName(s) == name ==> r == Some(s)
  {
    match name
    case "conversas" => Some(Conversas)
    case "conteudo" => Some(Conteudo)
    case "fluxos" => Some(Fluxos)
    case "integracoes" => Some(Integracoes)
    case "agenda" => Some(Agenda)
    case "analytics" => Some(Analytics)
    case "definicoes" => Some(Definicoes)
    case _ => None
  }

  /** What `mainContent` holds: nothing yet, a section's card naming the user, or the
      "Secção não encontrada." placeholder. */
  datatype Panel = Blank | SectionCard(section: Section, userDisplay: string) | NotFound

  /** `accounts[currentUser]?.displayName || currentUser`, with `null` printed as "null". */
  function DisplayName(accounts: map<string, Account>, user: Option<string>): (name: string)
    ensures user.Some? && user.value in accounts && accounts[user.value].displayName != "" ==>
              name == accounts[user.value].displayName
    ensures user.Some? && (user.value !in accounts || accounts[user.value].displayName == "") ==> name == user.value
    ensures user.None? ==> name == "null"
  {
    match user
    case None => "null"
    case Some(u) => if u in accounts && accounts[u].displayName != "" then accounts[u].displayName else u
  }

  /** The card `renderSection(section)` writes: a known section gives its card with the
      user's display name, any other name gives the not-found placeholder. */
  function Render(accounts: map<string, Account>, section: string, user: Option<string>): (p: Panel)
    ensures p != Blank
    ensures p == NotFound <==> forall s :: SectionName(s) != section
    ensures p.SectionCard? ==> SectionName(p.section) == section && p.userDisplay == DisplayName(accounts, user)
  {
    match ParseSection(section)
    case Some(s) => SectionCard(s, DisplayName(accounts, user))
    case None => NotFound
  }

  /** A signed-in demo account lands on the conversations card with its own name. */
  lemma StartCardNamesAccount(user: string)
    requires user in Accounts
    ensures Render(Accounts, StartSection, Some(user)) == SectionCard(Conversas, Accounts[user].displayName)
  {
    assert SectionName(Conversas) == StartSection;
  }

  // ---------------------------------------------------------------- startup

  /** The property names that a plain object literal such as `accounts` inherits from
      `Object.prototype`; each reads as a truthy value. */
  const InheritedNames: set<string> := {
    "constructor", "hasOwnProperty", "isPrototypeOf", "propertyIsEnumerable",
    "toLocaleString", "toString", "valueOf", "__proto__",
    "__defineGetter__", "__defineSetter__", "__lookupGetter__", "__lookupSetter__"
  }

  /** `savedUser && accounts[savedUser]` as written: the lookup also succeeds for
      inherited property names. */
  function StartupUserAsWritten(accounts: map<string, Account>, saved: Option<string>): (user: Option<string>)
    ensures user.Some? <==> saved.Some? && saved.value != "" && (saved.value in accounts || saved.value in InheritedNames)
    ensures user.Some? ==> user == saved
  {
    if saved.Some? && saved.value != "" && (saved.value in accounts || saved.value in InheritedNames)
    then saved else None
  }

  /** The account the page resumes with: the saved user when it names a demo account. */
  function StartupUser(accounts: map<string, Account>, saved: Option<string>): (user: Option<string>)
    ensures user.Some? <==> saved.Some? && saved.value != "" && saved.value in accounts
    ensures user.Some? ==> user == saved
  {
    if saved.Some? && saved.value != "" && saved.value in accounts then saved else None
  }

  /** A saved value "toString" opens the admin screen as written, for a user that is
      not an account; the own-key lookup refuses it. */
  lemma InheritedNameResumesSession()
    ensures "toString" !in Accounts
    ensures StartupUserAsWritten(Accounts, Some("toString")) == Some("toString")
    ensures StartupUser(Accounts, Some("toString")) == None
  {
    assert "toString" in InheritedNames;
  }

  // ----------------------------------------------------------------- screen

  datatype Screen = NoScreen | LoginScreen | AdminScreen

  class AdminPanel {
    var currentUser: Option<string>
    var currentSection: string
    var loginError: string
    var screen: Screen
    var content: Panel
    const storage: SessionStorage
    /** The `accounts` table. */
    const accounts: map<string, Account>

    /** A signed-in user is an account and is the one storage remembers. */
    ghost predicate Valid()
      reads this, storage
    {
      currentUser.Some? ==> currentUser.value in accounts && Get(storage.Contents(), SessionKey) == currentUser
    }

    /** Script start: nobody signed in, the start section selected, nothing shown. */
    constructor (durableAvailable: bool, persisted: map<string, string>)
      ensures Valid() && fresh(storage) && accounts == Accounts
      ensures currentUser == None && currentSection == StartSection
      ensures loginError == "" && screen == NoScreen && content == Blank
      ensures storage.Contents() == if durableAvailable then persisted else map[]
    {
      currentUser := None;
      currentSection := StartSection;
      loginError := "";
      screen := NoScreen;
      content := Blank;
      accounts := Accounts;
      storage := new SessionStorage(durableAvailable, persisted);
    }

    /** `renderSection(section)`: the section becomes current even when no card exists for it. */
    method RenderSection(section: string)
      requires Valid()
      modifies this
      ensures Valid()
      ensures currentSection == section && content == Render(accounts, section, currentUser)
      ensures currentUser == old(currentUser) && loginError == old(loginError) && screen == old(screen)
    {
      currentSection := section;
      content := Render(accounts, section, currentUser);
    }

    /** `showAdminPage`: the admin screen with the current section's card. */
    method ShowAdminPage()
      requires Valid()
      modifies this
      ensures Valid()
      ensures screen == AdminScreen && content == Render(accounts, currentSection, currentUser)
      ensures currentSection == old(currentSection) && currentUser == old(currentUser) && loginError == old(loginError)
    {
      screen := AdminScreen;
      RenderSection(currentSection);
    }

    /** `showLoginPage`: the login screen with the error text cleared. */
    method ShowLoginPage()
      requires Valid()
      modifies this
      ensures Valid()
      ensures screen == LoginScreen && loginError == ""
      ensures currentSection == old(currentSection) && currentUser == old(currentUser) && content == old(content)
    {
      screen := LoginScreen;
      loginError := "";
    }

    /** `handleLogin`: a refused attempt changes only the error text; an accepted one signs
        the normalised address in, remembers it in storage, clears the error and shows
        the admin screen. */
    method Login(emailInput: string, passwordInput: string)
      requires Valid()
      modifies this, storage
      ensures Valid()
      ensures currentSection == old(currentSection)
      ensures AttemptLogin(accounts, emailInput, passwordInput).Accepted? ==>
                var user := AttemptLogin(accounts, emailInput, passwordInput).user;
                currentUser == Some(user) && loginError == "" && screen == AdminScreen
                && content == Render(accounts, currentSection, Some(user))
                && storage.Contents() == old(storage.Contents())[SessionKey := user]
      ensures !AttemptLogin(accounts, emailInput, passwordInput).Accepted? ==>
                currentUser == old(currentUser) && screen == old(screen) && content == old(content)
                && loginError == LoginErrorText(AttemptLogin(accounts, emailInput, passwordInput))
                && storage.Contents() == old(storage.Contents())
    {
      var outcome := AttemptLogin(accounts, emailInput, passwordInput);
      if outcome.Accepted? {
        currentUser := Some(outcome.user);
        storage.SetItem(SessionKey, outcome.user);
        loginError := "";
        ShowAdminPage();
      } else {
        loginError := LoginErrorText(outcome);
      }
    }

    /** `handleLogout`: nobody signed in, storage forgets the user, the login screen shows. */
    method Logout()
      requires Valid()
      modifies this, storage
      ensures Valid()
      ensures currentUser == None && screen == LoginScreen && loginError == ""
      ensures storage.Contents() == old(storage.Contents()) - {SessionKey}
      ensures Get(storage.Contents(), SessionKey) == None
      ensures currentSection == old(currentSection) && content == old(content)
    {
      currentUser := None;
      storage.RemoveItem(SessionKey);
      ShowLoginPage();
    }

    /** The menu's click handler: an entry without a `data-section` name is ignored. */
    method Navigate(dataSection: Option<string>)
      requires Valid()
      modifies this
      ensures Valid()
      ensures dataSection.None? || dataSection.value == "" ==>
                currentSection == old(currentSection) && content == old(content)
      ensures dataSection.Some? && dataSection.value != "" ==>
                currentSection == dataSection.value && content == Render(accounts, dataSection.value, currentUser)
      ensures currentUser == old(currentUser) && loginError == old(loginError) && screen == old(screen)
    {
      if dataSection.Some? && dataSection.value != "" {
        RenderSection(dataSection.value);
      }
    }

    /** The client switcher's change handler: the chosen account (one of the options,
        which list the account table) becomes the user, storage remembers it, and the
        current section is rendered again for it. */
    method SwitchClient(selected: string)
      requires Valid()
      requires selected in accounts
      modifies this, storage
      ensures Valid()
      ensures currentUser == Some(selected)
      ensures storage.Contents() == old(storage.Contents())[SessionKey := selected]
      ensures currentSection == old(currentSection) && content == Render(accounts, currentSection, Some(selected))
      ensures screen == old(screen) && loginError == old(loginError)
    {
      currentUser := Some(selected);
      storage.SetItem(SessionKey, selected);
      RenderSection(currentSection);
    }

    /** The DOMContentLoaded handler: a remembered demo account resumes on the admin
        screen; otherwise the login screen shows and the user is left as it was. */
    method Startup()
      requires Valid()
      modifies this
      ensures Valid()
      ensures currentSection == old(currentSection)
      ensures var resumed := StartupUser(accounts, Get(storage.Contents(), SessionKey));
              if resumed.Some? then
                currentUser == resumed && screen == AdminScreen && loginError == old(loginError)
                && content == Render(accounts, currentSection, resumed)
              else
                currentUser == old(currentUser) && screen == LoginScreen && loginError == ""
                && content == old(content)
    {
      var savedUser := storage.GetItem(SessionKey);
      if savedUser.Some? && savedUser.value != "" && savedUser.value in accounts {
        currentUser := savedUser;
        ShowAdminPage();
      } else {
        ShowLoginPage();
      }
    }
  }

  /** A page life in a browser whose durable store throws: sign in with any typing of
      the demo address, open a section that has no card, sign out; storage then holds no user. */
  method SessionScenario(typed: string)
    requires NormalizeEmail(typed) == "cliente1@demo.pt"
  {
    var panel := new AdminPanel(false, map[]);
    ExampleDemoLogin(typed);
    panel.Login(typed, "1234");
    assert panel.currentUser == Some("cliente1@demo.pt") && panel.screen == AdminScreen;
    StartCardNamesAccount("cliente1@demo.pt");
    assert panel.content == SectionCard(Conversas, "Cliente 1");
    panel.Navigate(Some("relatorios"));
    assert panel.currentSection == "relatorios" && panel.content == NotFound;
    panel.Logout();
    var saved := panel.storage.GetItem(SessionKey);
    assert saved == None && panel.currentUser == None;
  }

  /** A reload with a remembered demo account resumes it; a reload with nothing
      remembered shows the login screen. */
  method ReloadScenario()
  {
    var resumed := new AdminPanel(true, map[SessionKey := "cliente2@demo.pt"]);
    resumed.Startup();
    assert resumed.currentUser == Some("cliente2@demo.pt") && resumed.screen == AdminScreen;
    var empty := new AdminPanel(true, map[]);
    empty.Startup();
    assert empty.currentUser == None && empty.screen == LoginScreen;
  }
}
