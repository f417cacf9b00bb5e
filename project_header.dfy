/**
 * The decision logic of the project header
 * (src/modules/porjects/ui/components/project-header.tsx): the "last modified"
 * label and the light/dark/system theme rule, with the theme's two side effects
 * (the `dark` class on `<html>` and the value saved under "theme").
 */
module ProjectHeader {
  import opened Wrappers
  import opened Strings
  import Browser

  const ThemeKey := "theme"
  const DarkClass := "dark"
  const MinuteMs := 60000

  /** The label buckets of `formatLastModified`. */
  datatype Modified =
    | JustNow
    | MinutesAgo(minutes: nat)
    | HoursAgo(hours: nat)
    | LocaleDate(dateMs: int)   // `date.toLocaleDateString()`, which is locale formatting

  /** The text shown for a bucket; the locale date string is not modelled (None). */
  function LabelText(m: Modified): (r: Option<string>)
    ensures r.None? <==> m.LocaleDate?
  {
    match m
    case JustNow => Some("Just now")
    case MinutesAgo(d) => Some(DecimalString(d) + "m ago")
    case HoursAgo(h) => Some(DecimalString(h) + "h ago")
    case LocaleDate(_) => None
  }

  /**
   * `formatLastModified(date)` with the clock reading `nowMs` as a parameter; both
   * are millisecond timestamps, so `Math.floor` of the quotient is integer division
   * rounding down (Dafny's `/` by a positive divisor).
   */
  function FormatLastModified(nowMs: int, dateMs: int): (r: Modified)
    ensures r == JustNow <==> nowMs - dateMs < 60000
    ensures r.MinutesAgo? <==> 60000 <= nowMs - dateMs < 3600000
    ensures r.MinutesAgo? ==> 1 <= r.minutes < 60 && r.minutes * 60000 <= nowMs - dateMs < (r.minutes + 1) * 60000
    ensures r.HoursAgo? <==> 3600000 <= nowMs - dateMs < 86400000
    ensures r.HoursAgo? ==> 1 <= r.hours < 24 && r.hours * 3600000 <= nowMs - dateMs < (r.hours + 1) * 3600000
    ensures r.LocaleDate? <==> 86400000 <= nowMs - dateMs
    ensures r.LocaleDate? ==> r.dateMs == dateMs
  {
    var diffInMinutes := (nowMs - dateMs) / MinuteMs;
    if diffInMinutes < 1 then JustNow
    else if diffInMinutes < 60 then MinutesAgo(diffInMinutes)
    else if diffInMinutes < 1440 then HoursAgo(diffInMinutes / 60)
    else LocaleDate(dateMs)
  }

  /** A date in the future (a negative difference) reads as "Just now". */
  lemma FutureIsJustNow(nowMs: int, dateMs: int)
    requires dateMs > nowMs
    ensures LabelText(FormatLastModified(nowMs, dateMs)) == Some("Just now")
  {
  }

  /** Whether the `dark` class is on `<html>` after applying `theme`. */
  function DarkFor(theme: string, prefersDark: bool): bool
  {
    if theme == "light" then false
    else if theme == "dark" then true
    else prefersDark
  }

  /** `savedTheme || "system"`: the stored string as it is (it is cast, not checked), else "system". */
  function InitialTheme(saved: Option<string>): (r: string)
    ensures r != ""
    ensures saved.Some? && saved.value != "" ==> r == saved.value
    ensures !(saved.Some? && saved.value != "") ==> r == "system"
  {
    if saved.Some? && saved.value != "" then saved.value else "system"
  }

  /** The header's theme state and the two browser objects it writes. */
  class Header {
    var currentTheme: string
    var showThemeOptions: bool
    const storage: Browser.Storage
    const document: Browser.Document

    constructor (storage: Browser.Storage, document: Browser.Document)
      ensures currentTheme == "system" && !showThemeOptions
      ensures this.storage == storage && this.document == document
    {
      currentTheme := "system";
      showThemeOptions := false;
      this.storage := storage;
      this.document := document;
    }

    /** `applyTheme(theme)`; `prefersDark` is the `prefers-color-scheme: dark` media query's answer. */
    method ApplyTheme(theme: string, prefersDark: bool)
      modifies document
      ensures document.classes == if DarkFor(theme, prefersDark)
                                  then old(document.classes) + {DarkClass}
                                  else old(document.classes) - {DarkClass}
    {
      if theme == "light" {
        document.RemoveClass(DarkClass);
      } else if theme == "dark" {
        document.AddClass(DarkClass);
      } else {
        if prefersDark {
          document.AddClass(DarkClass);
        } else {
          document.RemoveClass(DarkClass);
        }
      }
    }

    /** The mount effect: adopt the saved theme, or "system", and apply it. */
    method Mount(prefersDark: bool)
      modifies this, document
      ensures currentTheme == InitialTheme(storage.GetItem(ThemeKey))
      ensures showThemeOptions == old(showThemeOptions)
      ensures DarkClass in document.classes <==> DarkFor(currentTheme, prefersDark)
      ensures document.classes - {DarkClass} == old(document.classes) - {DarkClass}
    {
      var initialTheme := InitialTheme(storage.GetItem(ThemeKey));
      currentTheme := initialTheme;
      ApplyTheme(initialTheme, prefersDark);
    }

    /** The "Appearance" item opens the theme options. */
    method OpenThemeOptions()
      modifies this
      ensures showThemeOptions && currentTheme == old(currentTheme)
    {
      showThemeOptions := true;
    }

    /** The "Back" item closes them again. */
    method CloseThemeOptions()
      modifies this
      ensures !showThemeOptions && currentTheme == old(currentTheme)
    {
      showThemeOptions := false;
    }

    /**
     * `handleThemeChange(theme)`: set the theme, save it, close the options and
     * set the `dark` class by its own copy of the rule, which gives the same
     * class list as `applyTheme`.
     */
    method HandleThemeChange(theme: string, prefersDark: bool)
      modifies this, storage, document
      ensures currentTheme == theme && !showThemeOptions
      ensures storage.items == old(storage.items)[ThemeKey := theme]
      ensures document.classes == if DarkFor(theme, prefersDark)
                                  then old(document.classes) + {DarkClass}
                                  else old(document.classes) - {DarkClass}
    {
      currentTheme := theme;
      storage.SetItem(ThemeKey, theme);
      showThemeOptions := false;
      if theme == "light" {
        document.RemoveClass(DarkClass);
      } else if theme == "dark" {
        document.AddClass(DarkClass);
      } else {
        if prefersDark {
          document.AddClass(DarkClass);
        } else {
          document.RemoveClass(DarkClass);
        }
      }
    }
  }

  /** A theme chosen in one header is the theme the next mounted header starts with. */
  method ChosenThemeSurvivesRemount(h: Header, theme: string, prefersDark: bool) returns (next: Header)
    requires theme == "light" || theme == "dark" || theme == "system"
    modifies h, h.storage, h.document
    ensures next.currentTheme == theme
    ensures DarkClass in h.document.classes <==> DarkFor(theme, prefersDark)
  {
    h.HandleThemeChange(theme, prefersDark);
    next := new Header(h.storage, h.document);
    next.Mount(prefersDark);
  }
}
