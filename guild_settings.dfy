/** Per-guild notification settings (`guild-settings.json`). The one setting
    the bot writes is `rankedOnly`, which reads as `true` when absent so that
    guilds configured before the setting existed keep ranked-only behaviour. */
module GuildSettings {
  import opened Common

  /** One guild's settings object: `rankedOnly` may be undefined, and any
      other fields the file holds are kept as they are. */
  datatype Settings = Settings(rankedOnly: Option<bool>, otherFields: map<string, string>)

  /** The whole `guild-settings.json` document. */
  type SettingsData = map<GuildId, Settings>

  /** `getRankedOnly`: the stored flag, or `true` when the guild or its flag
      is absent. */
  function RankedOnly(settings: SettingsData, g: GuildId): (r: bool)
    ensures !r <==> g in settings && settings[g].rankedOnly == Some(false)
  {
    if g !in settings || settings[g].rankedOnly.None? then true
    else settings[g].rankedOnly.value
  }

  /** The document after `setRankedOnly(g, v)`: an unknown guild first gets
      an empty settings object, then its flag is set. */
  function WithRankedOnly(settings: SettingsData, g: GuildId, v: bool): (r: SettingsData)
    ensures r.Keys == settings.Keys + {g}
    ensures r[g].rankedOnly == Some(v)
    ensures r[g].otherFields == if g in settings then settings[g].otherFields else map[]
    ensures forall h :: h in settings && h != g ==> r[h] == settings[h]
  {
    var current := if g in settings then settings[g] else Settings(None, map[]);
    settings[g := current.(rankedOnly := Some(v))]
  }

  /** After setting the flag, reading it gives the value set, and every other
      guild reads as before. */
  lemma RankedOnlyAfterSet(settings: SettingsData, g: GuildId, v: bool)
    ensures RankedOnly(WithRankedOnly(settings, g, v), g) == v
    ensures forall h :: h != g ==> RankedOnly(WithRankedOnly(settings, g, v), h) == RankedOnly(settings, h)
  {
  }

  /** The part of the reply that names the new mode. */
  function ModeText(rankedOnly: bool): (text: string)
    ensures text == "ranked games only" || text == "all games"
    ensures rankedOnly <==> text == "ranked games only"
  {
    if rankedOnly then "ranked games only" else "all games"
  }

  /** `guild-settings.json`; `settings` is the document on disk. */
  class GuildSettingsFile {
    var settings: SettingsData

    constructor (initial: SettingsData)
      ensures settings == initial
    {
      settings := initial;
    }

    /** `setRankedOnly`: sets the flag of one guild and saves. */
    method SetRankedOnly(g: GuildId, rankedOnly: bool, saved: bool) returns (r: Reply)
      modifies this
      ensures r.success == saved
      ensures r.message == if saved then "Notifications set to " + ModeText(rankedOnly)
                           else "Failed to save setting"
      ensures settings == if saved then WithRankedOnly(old(settings), g, rankedOnly) else old(settings)
    {
      var loaded := settings;
      if g !in loaded {
        loaded := loaded[g := Settings(None, map[])];
      }
      loaded := loaded[g := loaded[g].(rankedOnly := Some(rankedOnly))];
      if saved {
        settings := loaded;
        r := Reply(true, "Notifications set to " + ModeText(rankedOnly));
      } else {
        r := Reply(false, "Failed to save setting");
      }
    }

    /** `getAllGuildSettings`. */
    method GetAllGuildSettings() returns (all: SettingsData)
      ensures all == settings
    {
      all := settings;
    }
  }
}
