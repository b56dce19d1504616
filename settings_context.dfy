// The settings context: two boolean settings, their defaults, the
// start-up merge of stored values over the defaults, partial updates and
// persistence. Stored JSON is taken already parsed.
module SettingsContext {
  import opened Wrappers

  datatype Settings = Settings(showFragmentBorder: bool, classicScrollMode: bool)

  /** A `Partial<Settings>`: a key that is absent is `None`. */
  datatype PartialSettings = PartialSettings(showFragmentBorder: Option<bool>, classicScrollMode: Option<bool>)

  const Defaults: Settings := Settings(true, true)

  const NoChange: PartialSettings := PartialSettings(None, None)

  const StorageKey: string := "user-settings"

  datatype SettingKey = ShowFragmentBorder | ClassicScrollMode

  datatype SettingItem = SettingItem(id: SettingKey, title: string, description: string, superUserOnly: bool)

  const SettingItems: seq<SettingItem> := [
    SettingItem(ShowFragmentBorder, "Show Fragment Border", "Display border around message fragments", true),
    SettingItem(ClassicScrollMode, "Classic Scroll Mode", "Enable classic scroll mode", true)
  ]

  /** `{ ...prev, ...update }`: every key the update carries replaces the previous value. */
  function Merge(prev: Settings, update: PartialSettings): (r: Settings)
    ensures update.showFragmentBorder.Some? ==> r.showFragmentBorder == update.showFragmentBorder.value
    ensures update.showFragmentBorder.None? ==> r.showFragmentBorder == prev.showFragmentBorder
    ensures update.classicScrollMode.Some? ==> r.classicScrollMode == update.classicScrollMode.value
    ensures update.classicScrollMode.None? ==> r.classicScrollMode == prev.classicScrollMode
  {
    Settings(update.showFragmentBorder.UnwrapOr(prev.showFragmentBorder),
             update.classicScrollMode.UnwrapOr(prev.classicScrollMode))
  }

  /** Two partial updates in a row as one: the later key wins. */
  function Then(first: PartialSettings, second: PartialSettings): PartialSettings
  {
    PartialSettings(
      if second.showFragmentBorder.Some? then second.showFragmentBorder else first.showFragmentBorder,
      if second.classicScrollMode.Some? then second.classicScrollMode else first.classicScrollMode)
  }

  /**
   * The `useState` initialiser: the defaults without a window or without a
   * stored value; otherwise the stored keys over the defaults.
   */
  function InitialSettings(hasWindow: bool, stored: Option<PartialSettings>): (r: Settings)
    ensures !hasWindow || stored.None? ==> r == Defaults
    ensures hasWindow && stored.Some? ==> r == Merge(Defaults, stored.value)
  {
    if !hasWindow then Defaults
    else if stored.Some? then Merge(Defaults, stored.value)
    else Defaults
  }

  /** The full form of a settings record, as `JSON.stringify` writes it. */
  function AsPartial(s: Settings): PartialSettings
  {
    PartialSettings(Some(s.showFragmentBorder), Some(s.classicScrollMode))
  }

  lemma MergeNoChange(s: Settings)
    ensures Merge(s, NoChange) == s
  {
  }

  lemma MergeIdempotent(s: Settings, u: PartialSettings)
    ensures Merge(Merge(s, u), u) == Merge(s, u)
  {
  }

  /** Two updates in a row are the update with the later keys winning. */
  lemma MergeThen(s: Settings, u: PartialSettings, v: PartialSettings)
    ensures Merge(Merge(s, u), v) == Merge(s, Then(u, v))
  {
  }

  /** What was persisted is read back exactly at the next start-up. */
  lemma PersistRoundTrip(s: Settings)
    ensures InitialSettings(true, Some(AsPartial(s))) == s
  {
  }

  lemma EverySettingIsSuperUserOnly()
    ensures forall i :: 0 <= i < |SettingItems| ==> SettingItems[i].superUserOnly
    ensures |SettingItems| == 2 && SettingItems[0].id != SettingItems[1].id
  {
  }

  /** `SettingsProvider`: the settings and what the storage holds under `user-settings`. */
  class SettingsProvider {
    var settings: Settings
    var persisted: Option<Settings>

    predicate Valid()
      reads this
    {
      persisted == Some(settings)
    }

    /** Mount in a browser: the initial settings, then the effect persists them. */
    constructor (stored: Option<PartialSettings>)
      ensures settings == InitialSettings(true, stored)
      ensures Valid()
    {
      settings := InitialSettings(true, stored);
      persisted := Some(InitialSettings(true, stored));
    }

    /** `updateSettings`, then the `[settings]` effect persists the result. */
    method UpdateSettings(update: PartialSettings)
      modifies this
      ensures settings == Merge(old(settings), update)
      ensures Valid()
    {
      settings := Merge(settings, update);
      persisted := Some(settings);
    }
  }
}
