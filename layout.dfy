/** The application shell: a theme switch shared with every page through a
    context, a settings menu, navigation, logout, and the signed-in user's
    name, handle and avatar derived from the email address. */
module Layout {
  import opened Wrappers
  import opened Text
  import opened Store

  /** The signed-in user as the auth service returns it; only the email is
      read. */
  datatype User = User(email: Option<String>)

  /** The email's local part when a user with a non-empty email is known. */
  predicate HasEmail(user: Option<User>) {
    user.Some? && Truthy(user.value.email)
  }

  /** `getDisplayName()`: everything before the first `@` of the email,
      or `'Your Name'`. */
  function DisplayName(user: Option<User>): (r: String)
    ensures HasEmail(user) ==> var email := user.value.email.value;
      '@' !in r
      && ('@' in email ==> r == email[..IndexOf(email, '@')])
      && ('@' !in email ==> r == email)
    ensures !HasEmail(user) ==> r == "Your Name"
  {
    if HasEmail(user) then
      SplitHead(user.value.email.value, '@');
      Split(user.value.email.value, '@')[0]
    else "Your Name"
  }

  /** `getHandle()`: the display name behind an `@`, or a placeholder
      handle that is not `@` plus the placeholder name. */
  function Handle(user: Option<User>): (r: String)
    ensures HasEmail(user) ==> r == "@" + DisplayName(user)
    ensures !HasEmail(user) ==> r == "@yourhandle" && r != "@" + DisplayName(user)
  {
    if HasEmail(user) then "@" + Split(user.value.email.value, '@')[0] else "@yourhandle"
  }

  /** `generateUserAvatar()`: the first two characters of the local part,
      upper-cased, or `'YO'`. */
  function UserAvatar(user: Option<User>): (r: String)
    ensures |r| <= 2
    ensures HasEmail(user) ==> var name := DisplayName(user);
      |r| == (if |name| < 2 then |name| else 2)
      && forall i :: 0 <= i < |r| ==> r[i] == UpperChar(name[i])
    ensures !HasEmail(user) ==> r == "YO"
  {
    if HasEmail(user) then
      var name := Split(user.value.email.value, '@')[0];
      ToUpper(if |name| < 2 then name else name[..2])
    else "YO"
  }

  /** For an address `local@domain` the name is `local`, the handle
      `@local` and the avatar the first two letters of `local`, upper-cased. */
  lemma UserOfAddress(local: String, domain: String)
    requires local != [] && '@' !in local
    ensures var user := Some(User(Some(local + "@" + domain)));
      && DisplayName(user) == local
      && Handle(user) == "@" + local
      && UserAvatar(user) == ToUpper(if |local| < 2 then local else local[..2])
  {
    var email := local + "@" + domain;
    assert email[|local|] == '@' && email[..|local|] == local;
  }

  /** The `theme` record pages style themselves with. */
  datatype Theme = Theme(
    bg: String, cardBg: String, text: String, textSecondary: String,
    textMuted: String, border: String, sidebarBg: String, hover: String)

  function ThemeFor(isDarkMode: bool): Theme {
    if isDarkMode then
      Theme("from-gray-900 via-gray-800 to-black", "bg-gray-800/80", "text-white",
            "text-gray-300", "text-gray-400", "border-gray-700/50", "bg-gray-900/90",
            "hover:bg-gray-700/50")
    else
      Theme("from-blue-50 via-white to-blue-100", "bg-white/90", "text-gray-900",
            "text-gray-600", "text-gray-500", "border-gray-200",
            "bg-gradient-to-r from-white via-blue-50/30 to-white", "hover:bg-blue-50/30")
  }

  /** `a` and `b` differ in each of their eight fields. */
  predicate AllFieldsDiffer(a: Theme, b: Theme) {
    a.bg != b.bg && a.cardBg != b.cardBg && a.text != b.text
    && a.textSecondary != b.textSecondary && a.textMuted != b.textMuted
    && a.border != b.border && a.sidebarBg != b.sidebarBg && a.hover != b.hover
  }

  /** Each of the eight fields differs between the two modes, so every one
      of them changes when the mode does. */
  lemma ThemeFieldsDiffer()
    ensures AllFieldsDiffer(ThemeFor(true), ThemeFor(false))
  {
    var d, l := ThemeFor(true), ThemeFor(false);
    assert d.bg[5] != l.bg[5];
    assert d.cardBg[3] != l.cardBg[3];
    assert |d.text| != |l.text|;
    assert d.textSecondary[10] != l.textSecondary[10];
    assert d.textMuted[10] != l.textMuted[10];
    assert |d.border| != |l.border|;
    assert |d.sidebarBg| != |l.sidebarBg|;
    assert |d.hover| != |l.hover|;
  }

  class LayoutShell {
    var isDarkMode: bool
    var showSettings: bool
    var currentUser: Option<User>
    /** The current route, and the state passed along with the last
        navigation (the logout toast message). */
    var route: String
    var toast: Option<String>

    constructor (start: String)
      ensures isDarkMode && !showSettings && currentUser.None?
      ensures route == start && toast.None?
    {
      isDarkMode, showSettings, currentUser := true, false, None;
      route, toast := start, None;
    }

    function CurrentTheme(): (t: Theme)
      reads this
      ensures t == ThemeFor(isDarkMode)
    {
      ThemeFor(isDarkMode)
    }

    /** `getCurrentUser()` resolving. */
    method SetCurrentUser(user: Option<User>)
      modifies this
      ensures currentUser == user
      ensures isDarkMode == old(isDarkMode) && showSettings == old(showSettings)
      ensures route == old(route) && toast == old(toast)
    {
      currentUser := user;
    }

    /** `toggleTheme()`: flips the mode and closes the settings menu, so
        that every field of the page theme changes. */
    method ToggleTheme()
      modifies this
      ensures isDarkMode == !old(isDarkMode) && !showSettings
      ensures CurrentTheme() == ThemeFor(!old(isDarkMode))
      ensures AllFieldsDiffer(CurrentTheme(), old(CurrentTheme()))
      ensures currentUser == old(currentUser) && route == old(route) && toast == old(toast)
    {
      ThemeFieldsDiffer();
      isDarkMode := !isDarkMode;
      showSettings := false;
    }

    /** The settings button. */
    method ToggleSettings()
      modifies this
      ensures showSettings == !old(showSettings)
      ensures isDarkMode == old(isDarkMode) && currentUser == old(currentUser)
      ensures route == old(route) && toast == old(toast)
    {
      showSettings := !showSettings;
    }

    /** A mouse-down: outside the settings area it closes the menu. */
    method MouseDown(insideSettings: bool)
      modifies this
      ensures showSettings == (old(showSettings) && insideSettings)
      ensures isDarkMode == old(isDarkMode) && currentUser == old(currentUser)
      ensures route == old(route) && toast == old(toast)
    {
      if !insideSettings {
        showSettings := false;
      }
    }

    /** `handleNavigate(path)`. */
    method HandleNavigate(path: String)
      modifies this
      ensures route == path && toast.None? && !showSettings
      ensures isDarkMode == old(isDarkMode) && currentUser == old(currentUser)
    {
      route, toast := path, None;
      showSettings := false;
    }

    /** `handleLogout()`: closes the menu and goes home with a "Logged out"
        toast; a failing sign-out is ignored. */
    method HandleLogout()
      modifies this
      ensures !showSettings && route == "/" && toast == Some("Logged out")
      ensures isDarkMode == old(isDarkMode) && currentUser == old(currentUser)
    {
      showSettings := false;
      route, toast := "/", Some("Logged out");
    }
  }

  /** Toggling the theme twice restores the mode and the theme. */
  method ToggleThemeTwice(shell: LayoutShell)
    modifies shell
    ensures shell.isDarkMode == old(shell.isDarkMode) && !shell.showSettings
    ensures shell.CurrentTheme() == old(shell.CurrentTheme())
  {
    shell.ToggleTheme();
    shell.ToggleTheme();
  }
}
