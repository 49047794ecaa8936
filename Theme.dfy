/** The colour theme: `light`, `dark` or `auto` (follow the system), kept in
    a cookie and shown as one class on the document body. The body's class
    set, the cookie jar and the system preference are fields. */
module Theme {
  const Light := "light"
  const Dark := "dark"
  const Auto := "auto"
  const ThemeCookie := "theme"
  /** The toggle order. */
  const Themes: seq<string> := [Light, Dark, Auto]
  const ThemeClasses: set<string> := {"light-theme", "dark-theme", "auto-theme"}

  predicate IsTheme(t: string) {
    t == Light || t == Dark || t == Auto
  }

  /** `cookieService.get(name)`: empty when there is no such cookie. */
  function CookieGet(cookies: map<string, string>, name: string): (r: string)
    ensures name !in cookies ==> r == ""
    ensures name in cookies ==> r == cookies[name]
  {
    if name in cookies then cookies[name] else ""
  }

  /** `Array.prototype.indexOf`: the first position of `x`, or -1. */
  function IndexOf(xs: seq<string>, x: string): (r: int)
    ensures -1 <= r < |xs|
    ensures r == -1 <==> x !in xs
    ensures r >= 0 ==> xs[r] == x && forall j :: 0 <= j < r ==> xs[j] != x
    decreases |xs|
  {
    if xs == [] then -1
    else if xs[0] == x then 0
    else
      var k := IndexOf(xs[1..], x);
      if k == -1 then -1 else k + 1
  }

  /** `toggleTheme`'s choice: the theme after the current one in the list,
      cyclically; a value not in the list is at index -1, so it is followed by `light`. */
  function NextTheme(current: string): (r: string)
    ensures current == Light ==> r == Dark
    ensures current == Dark ==> r == Auto
    ensures current == Auto ==> r == Light
    ensures !IsTheme(current) ==> r == Light
    ensures IsTheme(r)
  {
    var i := IndexOf(Themes, current);
    Themes[(i + 1) % |Themes|]
  }

  /** Three toggles come back to where they started; from an unknown value
      they reach `light` and then cycle. */
  lemma ToggleCycle(t: string)
    ensures IsTheme(t) ==> NextTheme(NextTheme(NextTheme(t))) == t
    ensures !IsTheme(t) ==> NextTheme(NextTheme(NextTheme(NextTheme(t)))) == Light
  {
  }

  /** The body class for a theme (`auto-theme`, or the theme name with `-theme`). */
  function ThemeClass(theme: string): (c: string)
    ensures IsTheme(theme) ==> c in ThemeClasses
    ensures theme == Light ==> c == "light-theme"
    ensures theme == Dark ==> c == "dark-theme"
    ensures theme == Auto ==> c == "auto-theme"
  {
    if theme == Auto then "auto-theme"
    else if theme == Light then "light-theme"
    else if theme == Dark then "dark-theme"
    else theme + "-theme"
  }

  /** `applyThemeToBody`: drop the three theme classes, add the theme's. */
  function BodyWith(classes: set<string>, theme: string): (r: set<string>)
    ensures ThemeClass(theme) in r
    ensures forall c :: c in classes && c !in ThemeClasses ==> c in r
    ensures forall c :: c in r ==> c == ThemeClass(theme) || (c in classes && c !in ThemeClasses)
  {
    classes - ThemeClasses + {ThemeClass(theme)}
  }

  /** For a real theme, exactly one theme class is on the body, and it is the theme's. */
  lemma BodyHasOneThemeClass(classes: set<string>, theme: string)
    requires IsTheme(theme)
    ensures BodyWith(classes, theme) * ThemeClasses == {ThemeClass(theme)}
  {
  }

  /** `getResolvedTheme`: the current theme, except that `auto` resolves to
      `dark` exactly when the system prefers dark, and to `light` otherwise. */
  function Resolved(current: string, systemDark: bool): (r: string)
    ensures current != Auto ==> r == current
    ensures current == Auto ==> (r == Dark <==> systemDark) && (r == Light <==> !systemDark)
  {
    if current == Auto then (if systemDark then Dark else Light) else current
  }

  /** `loadInitialTheme`'s choice: the saved cookie, or `auto` without one. */
  function InitialTheme(cookies: map<string, string>): (r: string)
    ensures CookieGet(cookies, ThemeCookie) != "" ==> r == cookies[ThemeCookie]
    ensures CookieGet(cookies, ThemeCookie) == "" ==> r == Auto
  {
    var saved := CookieGet(cookies, ThemeCookie);
    if saved != "" then saved else Auto
  }

  class ThemeService {
    var currentTheme: string
    var cookies: map<string, string>
    var bodyClasses: set<string>
    /** Whether `(prefers-color-scheme: dark)` matches. */
    var systemDark: bool

    /** Created with the browser's cookies, body classes and system preference;
        it then loads the initial theme. */
    constructor (cookies: map<string, string>, bodyClasses: set<string>, systemDark: bool)
      ensures currentTheme == InitialTheme(cookies)
      ensures this.cookies == cookies[ThemeCookie := currentTheme]
      ensures this.bodyClasses == BodyWith(bodyClasses, currentTheme)
      ensures this.systemDark == systemDark
    {
      var t := InitialTheme(cookies);
      currentTheme := t;
      this.cookies := cookies[ThemeCookie := t];
      this.bodyClasses := BodyWith(bodyClasses, t);
      this.systemDark := systemDark;
    }

    /** The body shows the current theme and the cookie holds it. */
    ghost predicate Consistent()
      reads this
    {
      ThemeClass(currentTheme) in bodyClasses &&
      ThemeCookie in cookies && cookies[ThemeCookie] == currentTheme
    }

    method SetTheme(theme: string)
      modifies this
      ensures currentTheme == theme
      ensures cookies == old(cookies)[ThemeCookie := theme]
      ensures bodyClasses == BodyWith(old(bodyClasses), theme)
      ensures systemDark == old(systemDark)
      ensures Consistent()
    {
      currentTheme := theme;
      ApplyThemeToBody(theme);
      cookies := cookies[ThemeCookie := theme];
    }

    method ApplyThemeToBody(theme: string)
      modifies this
      ensures bodyClasses == BodyWith(old(bodyClasses), theme)
      ensures currentTheme == old(currentTheme) && cookies == old(cookies) && systemDark == old(systemDark)
    {
      var kept := bodyClasses - ThemeClasses;
      bodyClasses := kept + {ThemeClass(theme)};
    }

    method ToggleTheme()
      modifies this
      ensures currentTheme == NextTheme(old(currentTheme))
      ensures cookies == old(cookies)[ThemeCookie := currentTheme]
      ensures bodyClasses == BodyWith(old(bodyClasses), currentTheme)
      ensures systemDark == old(systemDark)
    {
      var i := IndexOf(Themes, currentTheme);
      var next := (i + 1) % |Themes|;
      SetTheme(Themes[next]);
    }

    function GetCurrentTheme(): (r: string)
      reads this
      ensures r == currentTheme
    {
      currentTheme
    }

    function GetResolvedTheme(): (r: string)
      reads this
      ensures r == Resolved(currentTheme, systemDark)
    {
      if currentTheme == Auto then (if systemDark then Dark else Light) else currentTheme
    }

    /** The system preference changed to `dark`; only the `auto` theme reacts,
        by applying itself to the body again. */
    method HandleSystemThemeChange(dark: bool)
      modifies this
      ensures systemDark == dark
      ensures currentTheme == old(currentTheme) && cookies == old(cookies)
      ensures old(currentTheme) != Auto ==> bodyClasses == old(bodyClasses)
      ensures old(currentTheme) == Auto ==> bodyClasses == BodyWith(old(bodyClasses), Auto)
      ensures old(Consistent()) ==> Consistent()
    {
      systemDark := dark;
      if currentTheme == Auto {
        ApplyThemeToBody(Auto);
      }
    }
  }
}
