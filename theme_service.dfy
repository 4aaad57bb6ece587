/**
 * The theme service of `src/services/themeService.ts`. The service holds
 * the applied theme (light or dark) and resolves the user's setting
 * (light, dark or system) against the browser's dark-mode preference,
 * which is an input here (`None` when there is no media query). The
 * class-list, meta-tag and event dispatch that follow each change are
 * not part of this model.
 */
module ThemeService {
  import opened Wrappers
  import opened SettingsStore

  datatype Theme = LightTheme | DarkTheme

  /** `getSystemTheme`: dark exactly when a media query exists and matches. */
  function SystemTheme(prefersDark: Option<bool>): (t: Theme)
    ensures t == DarkTheme <==> prefersDark == Some(true)
  {
    if prefersDark.Some? && prefersDark.value then DarkTheme else LightTheme
  }

  /** The theme `applyTheme` settles on for a setting. */
  function Resolve(setting: ThemeSetting, prefersDark: Option<bool>): (t: Theme)
    ensures setting == Light ==> t == LightTheme
    ensures setting == Dark ==> t == DarkTheme
    ensures setting == System ==> t == SystemTheme(prefersDark)
  {
    match setting
    case System => SystemTheme(prefersDark)
    case Light => LightTheme
    case Dark => DarkTheme
  }

  /** The setting `toggleTheme` moves to. */
  function NextSetting(s: ThemeSetting): (n: ThemeSetting)
    ensures s == Light ==> n == Dark
    ensures s == Dark ==> n == System
    ensures s == System ==> n == Light
    ensures n != s
  {
    match s
    case Light => Dark
    case Dark => System
    case System => Light
  }

  /** `getThemeIcon`; the "light" fallback covers a setting outside the three, which the datatype rules out. */
  function ThemeIcon(s: ThemeSetting): string {
    match s
    case Light => "\U{2600}\U{FE0F}"
    case Dark => "\U{1F319}"
    case System => "\U{1F4BB}"
  }

  /** `getThemeLabel`, with the same fallback. */
  function ThemeLabel(s: ThemeSetting): string {
    match s
    case Light => "Light"
    case Dark => "Dark"
    case System => "System"
  }

  // --------------------------------------------------------------- lemmas

  /** Three toggles come back to the starting setting, and every setting is reached on the way. */
  lemma ToggleCycle(s: ThemeSetting)
    ensures NextSetting(NextSetting(NextSetting(s))) == s
    ensures {s, NextSetting(s), NextSetting(NextSetting(s))} == {Light, Dark, System}
  {
  }

  /** Different settings show different labels and different icons. */
  lemma LabelsAndIconsDistinct(a: ThemeSetting, b: ThemeSetting)
    requires a != b
    ensures ThemeLabel(a) != ThemeLabel(b)
    ensures ThemeIcon(a) != ThemeIcon(b)
  {
  }

  // ----------------------------------------------------------- the service

  class Service {
    const settings: Store
    var currentTheme: Theme

    /** The service as the browser builds it: the stored setting is applied at once. */
    constructor(settings: Store, prefersDark: Option<bool>)
      ensures this.settings == settings
      ensures currentTheme == Resolve(settings.theme, prefersDark)
    {
      this.settings := settings;
      currentTheme := Resolve(settings.theme, prefersDark);
    }

    /** `applyTheme`, also run by the settings subscription on every settings change. */
    method ApplyTheme(setting: ThemeSetting, prefersDark: Option<bool>)
      modifies this
      ensures currentTheme == Resolve(setting, prefersDark)
    {
      currentTheme := Resolve(setting, prefersDark);
    }

    /** `handleSystemThemeChange`: a new system preference matters only under the "system" setting. */
    method HandleSystemThemeChange(matches: bool)
      modifies this
      ensures settings.theme == System ==> currentTheme == (if matches then DarkTheme else LightTheme)
      ensures settings.theme != System ==> currentTheme == old(currentTheme)
    {
      if settings.theme == System {
        currentTheme := if matches then DarkTheme else LightTheme;
      }
    }

    /** `getCurrentTheme`. */
    function CurrentTheme(): Theme
      reads this
    {
      currentTheme
    }

    /** `toggleTheme`: the stored setting moves one step round the cycle and the subscription re-applies it. */
    method ToggleTheme(prefersDark: Option<bool>)
      modifies this, settings
      ensures settings.Current() == old(settings.Current()).(theme := NextSetting(old(settings.theme)))
      ensures currentTheme == Resolve(settings.theme, prefersDark)
    {
      settings.SetTheme(NextSetting(settings.theme));
      ApplyTheme(settings.theme, prefersDark);
    }

    function Icon(): string
      reads this, settings
    {
      ThemeIcon(settings.theme)
    }

    function Label(): string
      reads this, settings
    {
      ThemeLabel(settings.theme)
    }
  }
}
