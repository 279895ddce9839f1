/** The notification channel of each guild (`guild-channels.json`), set by
    `!channel`; the last binding written for a guild wins. */
module GuildChannels {
  import opened Common

  /** The whole `guild-channels.json` document. */
  type ChannelData = map<GuildId, ChannelId>

  /** `getGuildChannel`: the bound channel, or `null` when the guild has no
      binding or its channel id is the empty string (`channels[g] || null`). */
  function ChannelOf(channels: ChannelData, g: GuildId): (r: Option<ChannelId>)
    ensures r.Some? <==> g in channels && channels[g] != ""
    ensures r.Some? ==> r.value == channels[g]
  {
    if g in channels && channels[g] != "" then Some(channels[g]) else None
  }

  /** A binding overwrites any earlier one for the guild and leaves every
      other guild's channel as it was. */
  lemma ChannelAfterSet(channels: ChannelData, g: GuildId, c: ChannelId, h: GuildId)
    ensures c != "" ==> ChannelOf(channels[g := c], g) == Some(c)
    ensures c == "" ==> ChannelOf(channels[g := c], g) == None
    ensures h != g ==> ChannelOf(channels[g := c], h) == ChannelOf(channels, h)
  {
  }

  /** `guild-channels.json`; `channels` is the document on disk. */
  class GuildChannelsFile {
    var channels: ChannelData

    constructor (initial: ChannelData)
      ensures channels == initial
    {
      channels := initial;
    }

    /** `setGuildChannel`: binds the guild to the channel and saves. */
    method SetGuildChannel(g: GuildId, c: ChannelId, saved: bool) returns (r: Reply)
      modifies this
      ensures r.success == saved
      ensures r.message == if saved then "Notification channel set for this server!"
                           else "Failed to save channel setting"
      ensures channels == if saved then old(channels)[g := c] else old(channels)
    {
      var loaded := channels;
      loaded := loaded[g := c];
      if saved {
        channels := loaded;
        r := Reply(true, "Notification channel set for this server!");
      } else {
        r := Reply(false, "Failed to save channel setting");
      }
    }

    /** `getAllGuildChannels`. */
    method GetAllGuildChannels() returns (all: ChannelData)
      ensures all == channels
    {
      all := channels;
    }
  }
}
