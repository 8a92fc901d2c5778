/** The day/night theme controller: a user-chosen mode (auto, day, night) that yields the visual
    theme (tech for night, childlike for day), persisted in the browser's key/value storage.
    The wall-clock hour and the storage contents are parameters and fields of the model. */
module ThemeProvider {
  import opened Wrappers

  /** The local hour of the day, as `Date.getHours()` reports it. */
  type Hour = h: int | 0 <= h < 24

  datatype Theme = Tech | Childlike

  /** The mode. The stored string is cast to a mode without validation, so a mode may also be
      any other non-empty string read back from storage: `Unrecognised` keeps that string. */
  datatype Mode = Auto | Day | Night | Unrecognised(raw: string)

  /** The storage key under which the mode is persisted. */
  const ModeKey: string := "app-theme-mode"

  /** The string a mode is stored as. */
  function ModeName(m: Mode): string
  {
    match m
    case Auto => "auto"
    case Day => "day"
    case Night => "night"
    case Unrecognised(raw) => raw
  }

  /** The mode a stored string stands for (the comparisons `mode === "auto"` and so on). */
  function ParseMode(s: string): (m: Mode)
    ensures ModeName(m) == s
  {
    if s == "auto" then Auto
    else if s == "day" then Day
    else if s == "night" then Night
    else Unrecognised(s)
  }

  /** A mode that can arise: an unrecognised one holds a non-empty string that names no mode. */
  predicate WellFormed(m: Mode)
  {
    m.Unrecognised? ==> m.raw != "" && m.raw != "auto" && m.raw != "day" && m.raw != "night"
  }

  /** Storing a mode and reading it back gives the same mode. */
  lemma ParseModeName(m: Mode)
    requires WellFormed(m)
    ensures ParseMode(ModeName(m)) == m
  {
  }

  /** The hour classifier: 18:00 up to 06:00 the next morning is the night window. */
  function SystemTheme(hour: Hour): (t: Theme)
    ensures t == Childlike <==> 6 <= hour < 18
  {
    if hour >= 18 || hour < 6 then Tech else Childlike
  }

  /** The night window is exactly hours 18..23 and 0..5; hours 6..17 are day. */
  lemma SystemThemeWindows(hour: Hour)
    ensures SystemTheme(hour) == Tech <==> 18 <= hour < 24 || 0 <= hour < 6
    ensures SystemTheme(hour) == Childlike <==> 6 <= hour < 18
  {
  }

  /** The night window covers half the day: an hour and the hour twelve hours later always
      get opposite themes. */
  lemma SystemThemeHalfDay(hour: Hour)
    ensures SystemTheme(hour) != SystemTheme((hour + 12) % 24)
  {
  }

  /** The mode read at start-up: the stored string if present and non-empty, else auto. */
  function InitialMode(saved: Option<string>): (m: Mode)
    ensures WellFormed(m)
    ensures saved.Some? && saved.value != "" ==> ModeName(m) == saved.value
    ensures saved.None? || saved.value == "" ==> m == Auto
  {
    if saved.Some? && saved.value != "" then ParseMode(saved.value) else Auto
  }

  /** The theme a fixed mode maps to: night is tech, every other non-auto mode is childlike. */
  function FixedTheme(m: Mode): Theme
    requires m != Auto
  {
    if m == Night then Tech else Childlike
  }

  /** The theme a mode yields at a given hour, used both at start-up and by setMode. */
  function ModeTheme(m: Mode, hour: Hour): (t: Theme)
    ensures m == Auto ==> t == SystemTheme(hour)
    ensures m == Night ==> t == Tech
    ensures m != Auto && m != Night ==> t == Childlike
  {
    if m == Auto then SystemTheme(hour) else FixedTheme(m)
  }

  /** Outside auto mode the theme does not depend on the hour. */
  lemma ModeThemeIgnoresHourUnlessAuto(m: Mode, h1: Hour, h2: Hour)
    requires m != Auto
    ensures ModeTheme(m, h1) == ModeTheme(m, h2)
  {
  }

  /** The mode toggleMode moves to: auto to day, day to night, anything else to auto. */
  function NextMode(m: Mode): (n: Mode)
    ensures n != m
    ensures n == Auto <==> m != Auto && m != Day
  {
    if m == Auto then Day else if m == Day then Night else Auto
  }

  /** Toggling is a three-cycle on the three named modes. */
  lemma ToggleThreeCycle(m: Mode)
    requires m == Auto || m == Day || m == Night
    ensures NextMode(NextMode(NextMode(m))) == m
    ensures NextMode(m) != m && NextMode(NextMode(m)) != m
  {
  }

  /** An unrecognised stored mode joins the cycle at auto after one toggle. */
  lemma ToggleLeavesUnrecognised(m: Mode)
    requires m.Unrecognised?
    ensures NextMode(m) == Auto
    ensures NextMode(NextMode(NextMode(NextMode(m)))) == Auto
  {
  }

  /** The storage lookup `localStorage.getItem(key)`: absent keys read as null. */
  function GetItem(storage: map<string, string>, key: string): (v: Option<string>)
    ensures v.Some? <==> key in storage
    ensures v.Some? ==> v.value == storage[key]
  {
    if key in storage then Some(storage[key]) else None
  }

  /** Reloading from storage written for a mode restores that mode. */
  lemma ReloadRestoresMode(m: Mode, storage: map<string, string>)
    requires WellFormed(m)
    ensures InitialMode(GetItem(storage[ModeKey := ModeName(m)], ModeKey)) == m
  {
  }

  /** The state of the provider: the mode and theme state cells and the browser storage. */
  class ThemeController {
    var mode: Mode
    var theme: Theme
    var storage: map<string, string>

    /** The controller's invariant: the mode is one that can arise, and outside auto mode the
        theme is the one the mode fixes. */
    ghost predicate Valid()
      reads this
    {
      WellFormed(mode) && (mode != Auto ==> theme == FixedTheme(mode))
    }

    /** Storage holds the current mode. */
    ghost predicate Persisted()
      reads this
    {
      ModeKey in storage && storage[ModeKey] == ModeName(mode)
    }

    /** The two state initialisers: the mode from storage, then the theme from the mode. */
    constructor (storage: map<string, string>, hour: Hour)
      ensures Valid()
      ensures mode == InitialMode(GetItem(storage, ModeKey))
      ensures theme == ModeTheme(mode, hour)
      ensures this.storage == storage
    {
      mode := InitialMode(GetItem(storage, ModeKey));
      theme := ModeTheme(InitialMode(GetItem(storage, ModeKey)), hour);
      this.storage := storage;
    }

    /** setMode: records the new mode, writes it to storage and recomputes the theme. */
    method SetMode(newMode: Mode, hour: Hour)
      requires WellFormed(newMode)
      modifies this
      ensures Valid() && Persisted()
      ensures mode == newMode
      ensures storage == old(storage)[ModeKey := ModeName(newMode)]
      ensures theme == ModeTheme(newMode, hour)
    {
      mode := newMode;
      storage := storage[ModeKey := ModeName(newMode)];
      if newMode == Auto {
        theme := SystemTheme(hour);
      } else {
        theme := if newMode == Night then Tech else Childlike;
      }
    }

    /** toggleMode: setMode applied to the next mode in the cycle. */
    method ToggleMode(hour: Hour)
      requires Valid()
      modifies this
      ensures Valid() && Persisted()
      ensures mode == NextMode(old(mode))
      ensures storage == old(storage)[ModeKey := ModeName(mode)]
      ensures theme == ModeTheme(mode, hour)
    {
      if mode == Auto {
        SetMode(Day, hour);
      } else if mode == Day {
        SetMode(Night, hour);
      } else {
        SetMode(Auto, hour);
      }
    }

    /** One firing of the polling check. It is installed only in auto mode, where it moves the
        theme to the hour's theme; mode and storage are never touched. */
    method Poll(hour: Hour)
      requires Valid()
      modifies this`theme
      ensures Valid()
      ensures mode == Auto ==> theme == SystemTheme(hour)
      ensures mode != Auto ==> theme == old(theme)
    {
      if mode != Auto {
        return;
      }
      var systemTheme := SystemTheme(hour);
      if theme != systemTheme {
        theme := systemTheme;
      }
    }

    /** The storage-sync effect: writes the current mode under the mode key. */
    method SyncStorage()
      requires Valid()
      modifies this`storage
      ensures Valid() && Persisted()
      ensures storage == old(storage)[ModeKey := ModeName(mode)]
    {
      storage := storage[ModeKey := ModeName(mode)];
    }
  }

  /** Three toggles, at any hours, bring the controller back to the mode it started in, and a
      fresh controller built from the storage left behind starts in that mode too. */
  method ToggleThreeTimesAndReload(c: ThemeController, h1: Hour, h2: Hour, h3: Hour, h4: Hour)
    returns (reloaded: ThemeController)
    requires c.Valid()
    requires c.mode == Auto || c.mode == Day || c.mode == Night
    modifies c
    ensures c.mode == old(c.mode)
    ensures fresh(reloaded) && reloaded.storage == c.storage
    ensures reloaded.mode == c.mode
  {
    ghost var start := c.mode;
    c.ToggleMode(h1);
    c.ToggleMode(h2);
    c.ToggleMode(h3);
    ToggleThreeCycle(start);
    reloaded := new ThemeController(c.storage, h4);
    ParseModeName(c.mode);
  }
}
