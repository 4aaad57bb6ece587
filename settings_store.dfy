/**
 * The user settings of `src/stores/settingsStore.ts`: a theme choice, the
 * sound, notification and vibration switches and a volume in [0, 1].
 * The per-timer `defaultTimerSettings` record and persistence to local
 * storage are not part of this model. The volume is a `real`.
 */
module SettingsStore {
  import opened Wrappers

  datatype ThemeSetting = Light | Dark | System

  /** The fields of the store that its actions read and write. */
  datatype Settings = Settings(
    theme: ThemeSetting,
    soundEnabled: bool,
    volume: real,
    notificationsEnabled: bool,
    vibrationEnabled: bool)

  /** `DEFAULT_SETTINGS`. */
  function Defaults(): (d: Settings)
    ensures d.theme == System && d.volume == 0.7
    ensures d.soundEnabled && !d.notificationsEnabled && d.vibrationEnabled
  {
    Settings(System, true, 0.7, false, true)
  }

  predicate VolumeInRange(s: Settings) {
    0.0 <= s.volume <= 1.0
  }

  /** `Math.max(0, Math.min(1, volume))`. */
  function ClampVolume(v: real): (r: real)
    ensures 0.0 <= r <= 1.0
    ensures 0.0 <= v <= 1.0 ==> r == v
    ensures v < 0.0 ==> r == 0.0
    ensures v > 1.0 ==> r == 1.0
  {
    if 1.0 < v then 1.0 else if v < 0.0 then 0.0 else v
  }

  /** A `Partial<Settings>`: the fields present in the object passed to `updateSettings`. */
  datatype SettingsPatch = SettingsPatch(
    theme: Option<ThemeSetting>,
    soundEnabled: Option<bool>,
    volume: Option<real>,
    notificationsEnabled: Option<bool>,
    vibrationEnabled: Option<bool>)

  /** `{ ...state, ...settings }`: a field given in the patch wins, every other field is kept. */
  function Merged(s: Settings, p: SettingsPatch): Settings {
    Settings(
      p.theme.GetOr(s.theme),
      p.soundEnabled.GetOr(s.soundEnabled),
      p.volume.GetOr(s.volume),
      p.notificationsEnabled.GetOr(s.notificationsEnabled),
      p.vibrationEnabled.GetOr(s.vibrationEnabled))
  }

  datatype Switch = Sound | Notifications | Vibration

  function SwitchValue(s: Settings, w: Switch): bool {
    match w
    case Sound => s.soundEnabled
    case Notifications => s.notificationsEnabled
    case Vibration => s.vibrationEnabled
  }

  /** One of the three `toggle…` actions. */
  function Toggled(s: Settings, w: Switch): (r: Settings)
    ensures SwitchValue(r, w) == !SwitchValue(s, w)
    ensures forall v :: v != w ==> SwitchValue(r, v) == SwitchValue(s, v)
    ensures r.theme == s.theme && r.volume == s.volume
  {
    match w
    case Sound => s.(soundEnabled := !s.soundEnabled)
    case Notifications => s.(notificationsEnabled := !s.notificationsEnabled)
    case Vibration => s.(vibrationEnabled := !s.vibrationEnabled)
  }

  // --------------------------------------------------------------- lemmas

  /** Toggling the same switch twice restores the settings. */
  lemma ToggleTwiceRestores(s: Settings, w: Switch)
    ensures Toggled(Toggled(s, w), w) == s
  {
  }

  /** A patch changes exactly the fields it names. */
  lemma MergeChangesOnlyGiven(s: Settings, p: SettingsPatch)
    ensures p.theme.None? ==> Merged(s, p).theme == s.theme
    ensures p.theme.Some? ==> Merged(s, p).theme == p.theme.value
    ensures p.volume.None? ==> Merged(s, p).volume == s.volume
    ensures p.volume.Some? ==> Merged(s, p).volume == p.volume.value
    ensures forall w :: PatchLeaves(p, w) ==> SwitchValue(Merged(s, p), w) == SwitchValue(s, w)
  {
  }

  predicate PatchLeaves(p: SettingsPatch, w: Switch) {
    match w
    case Sound => p.soundEnabled.None?
    case Notifications => p.notificationsEnabled.None?
    case Vibration => p.vibrationEnabled.None?
  }

  /** The empty patch changes nothing. */
  lemma EmptyPatchKeeps(s: Settings)
    ensures Merged(s, SettingsPatch(None, None, None, None, None)) == s
  {
  }

  /** Two patches applied one after the other, as one patch in which the later field wins. */
  function Then(p: SettingsPatch, q: SettingsPatch): SettingsPatch {
    SettingsPatch(
      if q.theme.Some? then q.theme else p.theme,
      if q.soundEnabled.Some? then q.soundEnabled else p.soundEnabled,
      if q.volume.Some? then q.volume else p.volume,
      if q.notificationsEnabled.Some? then q.notificationsEnabled else p.notificationsEnabled,
      if q.vibrationEnabled.Some? then q.vibrationEnabled else p.vibrationEnabled)
  }

  /** Two updates in a row are one update with the later value of each field. */
  lemma MergeComposes(s: Settings, p: SettingsPatch, q: SettingsPatch)
    ensures Merged(Merged(s, p), q) == Merged(s, Then(p, q))
  {
  }

  /** Applying the same update twice is applying it once. */
  lemma MergeIdempotent(s: Settings, p: SettingsPatch)
    ensures Merged(Merged(s, p), p) == Merged(s, p)
  {
  }

  // ------------------------------------------------------------------ the store

  class Store {
    var theme: ThemeSetting
    var soundEnabled: bool
    var volume: real
    var notificationsEnabled: bool
    var vibrationEnabled: bool

    function Current(): Settings
      reads this
    {
      Settings(theme, soundEnabled, volume, notificationsEnabled, vibrationEnabled)
    }

    /** The volume stays in [0, 1] under every action except an `updateSettings` that carries an out-of-range volume. */
    ghost predicate Valid()
      reads this
    {
      VolumeInRange(Current())
    }

    /** The store starts from the defaults. */
    constructor()
      ensures Current() == Defaults() && Valid()
    {
      theme, soundEnabled, volume, notificationsEnabled, vibrationEnabled := System, true, 0.7, false, true;
    }

    method Assign(s: Settings)
      modifies this
      ensures Current() == s
    {
      theme, soundEnabled, volume, notificationsEnabled, vibrationEnabled :=
        s.theme, s.soundEnabled, s.volume, s.notificationsEnabled, s.vibrationEnabled;
    }

    /** `updateSettings`: no clamp is applied to a volume given here. */
    method UpdateSettings(p: SettingsPatch)
      modifies this
      ensures Current() == Merged(old(Current()), p)
      ensures old(Valid()) && (p.volume.Some? ==> 0.0 <= p.volume.value <= 1.0) ==> Valid()
    {
      Assign(Merged(Current(), p));
    }

    /** `resetSettings`. */
    method ResetSettings()
      modifies this
      ensures Current() == Defaults() && Valid()
    {
      Assign(Defaults());
    }

    method ToggleSound()
      modifies this
      ensures Current() == Toggled(old(Current()), Sound)
      ensures old(Valid()) ==> Valid()
    {
      soundEnabled := !soundEnabled;
    }

    method ToggleNotifications()
      modifies this
      ensures Current() == Toggled(old(Current()), Notifications)
      ensures old(Valid()) ==> Valid()
    {
      notificationsEnabled := !notificationsEnabled;
    }

    method ToggleVibration()
      modifies this
      ensures Current() == Toggled(old(Current()), Vibration)
      ensures old(Valid()) ==> Valid()
    {
      vibrationEnabled := !vibrationEnabled;
    }

    /** `setVolume`: the stored volume is clamped into [0, 1] whatever was given. */
    method SetVolume(v: real)
      modifies this
      ensures Current() == old(Current()).(volume := ClampVolume(v))
      ensures Valid()
    {
      volume := ClampVolume(v);
    }

    /** `setTheme`. */
    method SetTheme(t: ThemeSetting)
      modifies this
      ensures Current() == old(Current()).(theme := t)
      ensures old(Valid()) ==> Valid()
    {
      theme := t;
    }
  }
}
