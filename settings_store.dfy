/** The user settings of src/lib/storage/settingsStore.ts: one record,
    merged with partial updates or reset to the defaults. */
module SettingsStorage {
  import opened Seqs

  datatype Theme = Light | Dark | System

  datatype Settings = Settings(theme: Theme, dailyGoal: int, notifications: bool, soundEffects: bool)

  /** A `Partial<Settings>`: a field is `None` when the update leaves it out. */
  datatype SettingsUpdate = SettingsUpdate(
    theme: Option<Theme>,
    dailyGoal: Option<int>,
    notifications: Option<bool>,
    soundEffects: Option<bool>)

  /** `defaultSettings`: the system theme, a goal of 30 minutes a day,
      notifications and sound effects on. */
  function DefaultSettings(): (s: Settings)
    ensures s.theme == System && s.dailyGoal == 30
    ensures s.notifications && s.soundEffects
  {
    Settings(System, 30, true, true)
  }

  /** The update that leaves every field out. */
  const NoChange: SettingsUpdate := SettingsUpdate(None, None, None, None)

  /** The value of a field after an update: the update's value if it has
      one, the old value otherwise. */
  function Pick<T>(update: Option<T>, current: T): (r: T)
    ensures update.Some? ==> r == update.value
    ensures update.None? ==> r == current
  {
    if update.Some? then update.value else current
  }

  /** `{ ...settings, ...updates }`. */
  function Merge(s: Settings, u: SettingsUpdate): (r: Settings)
    ensures u.theme.Some? ==> r.theme == u.theme.value
    ensures u.theme.None? ==> r.theme == s.theme
    ensures u.dailyGoal.Some? ==> r.dailyGoal == u.dailyGoal.value
    ensures u.dailyGoal.None? ==> r.dailyGoal == s.dailyGoal
    ensures u.notifications.Some? ==> r.notifications == u.notifications.value
    ensures u.notifications.None? ==> r.notifications == s.notifications
    ensures u.soundEffects.Some? ==> r.soundEffects == u.soundEffects.value
    ensures u.soundEffects.None? ==> r.soundEffects == s.soundEffects
  {
    Settings(Pick(u.theme, s.theme), Pick(u.dailyGoal, s.dailyGoal),
             Pick(u.notifications, s.notifications), Pick(u.soundEffects, s.soundEffects))
  }

  /** Two updates in a row as one: the later update wins where both give a
      field. */
  function Then(u1: SettingsUpdate, u2: SettingsUpdate): SettingsUpdate
  {
    SettingsUpdate(
      if u2.theme.Some? then u2.theme else u1.theme,
      if u2.dailyGoal.Some? then u2.dailyGoal else u1.dailyGoal,
      if u2.notifications.Some? then u2.notifications else u1.notifications,
      if u2.soundEffects.Some? then u2.soundEffects else u1.soundEffects)
  }

  /** An empty update changes nothing. */
  lemma MergeNoChange(s: Settings)
    ensures Merge(s, NoChange) == s
  {
  }

  /** Applying the same update twice is applying it once. */
  lemma MergeIdempotent(s: Settings, u: SettingsUpdate)
    ensures Merge(Merge(s, u), u) == Merge(s, u)
  {
  }

  /** Two updates in a row amount to their combination. */
  lemma MergeThen(s: Settings, u1: SettingsUpdate, u2: SettingsUpdate)
    ensures Merge(Merge(s, u1), u2) == Merge(s, Then(u1, u2))
  {
  }

  /** An update giving every field decides the result, whatever the old
      settings. */
  lemma FullUpdateOverwrites(s: Settings, s': Settings, u: SettingsUpdate)
    requires u.theme.Some? && u.dailyGoal.Some? && u.notifications.Some? && u.soundEffects.Some?
    ensures Merge(s, u) == Merge(s', u)
  {
  }

  /** The store holding the current settings. */
  class SettingsStore {
    var settings: Settings

    /** The store starts from the defaults. */
    constructor ()
      ensures settings == DefaultSettings()
    {
      settings := DefaultSettings();
    }

    /** `updateSettings`: the fields present in `updates` are overwritten,
        the others keep their values. */
    method UpdateSettings(updates: SettingsUpdate)
      modifies this
      ensures settings == Merge(old(settings), updates)
    {
      settings := Merge(settings, updates);
    }

    /** `resetSettings`: back to the defaults from any state. */
    method ResetSettings()
      modifies this
      ensures settings == DefaultSettings()
    {
      settings := DefaultSettings();
    }
  }
}
