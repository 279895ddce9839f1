/** The argument handling of the chat commands in `index.js`: extracting the
    trimmed argument after a command prefix, parsing `!find username,tag`,
    and the `!gamemode` toggle and `!channel` binding, which only work inside
    a guild. */
module Commands {
  import opened Common
  import opened Text
  import opened GuildSettings
  import opened GuildChannels

  /** `content.startsWith(prefix) ? content.slice(prefix.length).trim() : —`:
      the trimmed text after the prefix, or `None` when the message does not
      start with it. */
  function CommandArgument(content: string, prefix: string): (r: Option<string>)
    ensures r.Some? <==> |prefix| <= |content| && content[..|prefix|] == prefix
    ensures r.Some? ==> r.value == Trim(content[|prefix|..])
    ensures r.Some? ==> Trimmed(r.value) && (r.value == [] <==> AllWhitespace(content[|prefix|..]))
  {
    if |prefix| <= |content| && content[..|prefix|] == prefix then Some(Trim(content[|prefix|..]))
    else None
  }

  /** Typing a trimmed argument after the prefix gives that argument back. */
  lemma CommandArgumentOfTyped(prefix: string, arg: string)
    requires Trimmed(arg)
    ensures CommandArgument(prefix + arg, prefix) == Some(arg)
  {
    assert (prefix + arg)[..|prefix|] == prefix;
    assert (prefix + arg)[|prefix|..] == arg;
    TrimOfTrimmed(arg);
  }

  const FindPrefix := "!find "

  /** The replies of `!find`. */
  datatype FindReply =
    | FindUsage            // not exactly one comma
    | FindMissingPart      // username or tag empty after trimming
    | FindFound(puuid: Puuid)
    | FindNoSuchPlayer     // the lookup gave nothing

  /** `!find`: split the (trimmed) argument on `,`, demand exactly two parts,
      trim both and demand both non-empty, then look the player up; an empty
      puuid counts as not found. `lookup` is what the account lookup returns
      for a username and tag (it reports every failure as `null`). */
  function Find(args: string, lookup: (string, string) -> Option<Puuid>): (r: FindReply)
    ensures r == FindUsage <==> Occurrences(args, ',') != 1
    ensures r == FindMissingPart <==>
              Occurrences(args, ',') == 1
              && (AllWhitespace(Split(args, ',')[0]) || AllWhitespace(Split(args, ',')[1]))
    ensures r.FindFound? || r == FindNoSuchPlayer <==> SplitPair(args, ',').Ok?
    ensures r.FindFound? ==> r.puuid != "" && lookup(SplitPair(args, ',').value.0, SplitPair(args, ',').value.1) == Some(r.puuid)
    ensures r == FindNoSuchPlayer ==>
              var found := lookup(SplitPair(args, ',').value.0, SplitPair(args, ',').value.1);
              found.None? || found.value == ""
  {
    match SplitPair(args, ',')
    case Err(WrongPartCount) => FindUsage
    case Err(EmptyPart) => FindMissingPart
    case Ok((username, tag)) =>
      var found := lookup(username, tag);
      if found.Some? && found.value != "" then FindFound(found.value) else FindNoSuchPlayer
  }

  /** The whole `!find` handler on the message text: `None` when the message
      is not a `!find` command. */
  function FindCommand(content: string, lookup: (string, string) -> Option<Puuid>): (r: Option<FindReply>)
    ensures r.Some? <==> CommandArgument(content, FindPrefix).Some?
    ensures r.Some? ==> r.value == Find(CommandArgument(content, FindPrefix).value, lookup)
  {
    match CommandArgument(content, FindPrefix)
    case None => None
    case Some(args) => Some(Find(args, lookup))
  }

  /** Round trip: `!find username,tag` with trimmed, non-empty, comma-free
      parts looks up exactly that username and tag. */
  lemma FindOfTyped(username: string, tag: string, lookup: (string, string) -> Option<Puuid>)
    requires username != [] && Trimmed(username) && ',' !in username
    requires tag != [] && Trimmed(tag) && ',' !in tag
    ensures FindCommand(FindPrefix + (username + [','] + tag), lookup) ==
              Some(if lookup(username, tag).Some? && lookup(username, tag).value != ""
                   then FindFound(lookup(username, tag).value) else FindNoSuchPlayer)
  {
    var args := username + [','] + tag;
    FindArgumentOfTyped(username, tag);
    FindCommandOfArgument(FindPrefix + args, args, lookup);
    FindOfJoined(username, tag, lookup);
  }

  lemma FindCommandOfArgument(content: string, args: string, lookup: (string, string) -> Option<Puuid>)
    requires CommandArgument(content, FindPrefix) == Some(args)
    ensures FindCommand(content, lookup) == Some(Find(args, lookup))
  {
  }

  /** The argument of `!find username,tag` is `username,tag`. */
  lemma FindArgumentOfTyped(username: string, tag: string)
    requires username != [] && Trimmed(username)
    requires tag != [] && Trimmed(tag)
    ensures CommandArgument(FindPrefix + (username + [','] + tag), FindPrefix) == Some(username + [','] + tag)
  {
    JoinedIsTrimmed(username, tag);
    CommandArgumentOfTyped(FindPrefix, username + [','] + tag);
  }

  /** `username,tag` is split back into `username` and `tag` for the lookup. */
  lemma FindOfJoined(username: string, tag: string, lookup: (string, string) -> Option<Puuid>)
    requires username != [] && Trimmed(username) && ',' !in username
    requires tag != [] && Trimmed(tag) && ',' !in tag
    ensures Find(username + [','] + tag, lookup) ==
              if lookup(username, tag).Some? && lookup(username, tag).value != ""
              then FindFound(lookup(username, tag).value) else FindNoSuchPlayer
  {
    SplitPairOfJoined(username, ',', tag);
  }

  /** Spaces around the comma or the parts do not reach the lookup:
      `!find  name , tag` looks up `name` and `tag`. */
  lemma FindOfPadded(a: string, username: string, b: string, c: string, tag: string, d: string,
                     lookup: (string, string) -> Option<Puuid>)
    requires AllWhitespace(a) && AllWhitespace(b) && AllWhitespace(c) && AllWhitespace(d)
    requires ',' !in a && ',' !in b && ',' !in c && ',' !in d
    requires username != [] && Trimmed(username) && ',' !in username
    requires tag != [] && Trimmed(tag) && ',' !in tag
    ensures Find(a + username + b + [','] + c + tag + d, lookup) ==
              if lookup(username, tag).Some? && lookup(username, tag).value != ""
              then FindFound(lookup(username, tag).value) else FindNoSuchPlayer
  {
    SplitPairOfPadded(a, username, b, ',', c, tag, d);
  }

  lemma JoinedIsTrimmed(username: string, tag: string)
    requires username != [] && Trimmed(username)
    requires tag != [] && Trimmed(tag)
    ensures Trimmed(username + [','] + tag)
  {
    var args := username + [','] + tag;
    assert args[0] == username[0];
    assert args[|args| - 1] == tag[|tag| - 1];
  }

  /** A `!find` without a comma always gets the usage hint, whatever the
      lookup would say. */
  lemma FindWithoutCommaIsUsage(args: string, lookup: (string, string) -> Option<Puuid>)
    requires ',' !in args
    ensures Find(args, lookup) == FindUsage
  {
  }

  /** The refusal sent for `!channel` and `!gamemode` outside a guild. */
  const DmRefusal := "This command can only be used in a server, not in DMs."

  /** The settings after `!gamemode` in guild `g`: the flag is set to the
      negation of what `getRankedOnly` reads. */
  function Toggled(settings: SettingsData, g: GuildId): (r: SettingsData)
    ensures RankedOnly(r, g) == !RankedOnly(settings, g)
    ensures forall h :: h != g ==> RankedOnly(r, h) == RankedOnly(settings, h)
    ensures forall h :: h in settings && h != g ==> h in r && r[h] == settings[h]
  {
    RankedOnlyAfterSet(settings, g, !RankedOnly(settings, g));
    WithRankedOnly(settings, g, !RankedOnly(settings, g))
  }

  /** Toggling twice restores the mode the guild reads as (an absent flag
      becomes an explicit `true`). */
  lemma ToggleTwice(settings: SettingsData, g: GuildId)
    ensures RankedOnly(Toggled(Toggled(settings, g), g), g) == RankedOnly(settings, g)
    ensures Toggled(Toggled(settings, g), g)[g].rankedOnly == Some(RankedOnly(settings, g))
  {
  }

  /** `!gamemode`: outside a guild, the refusal; inside guild `g`, read the
      flag, store its negation and relay the store's reply. */
  method ToggleGameMode(file: GuildSettingsFile, guild: Option<GuildId>, saved: bool) returns (message: string)
    modifies file
    ensures guild.None? ==> message == DmRefusal && file.settings == old(file.settings)
    ensures guild.Some? ==>
              && message == (if saved then "Notifications set to " + ModeText(!RankedOnly(old(file.settings), guild.value))
                             else "Failed to save setting")
              && file.settings == if saved then Toggled(old(file.settings), guild.value) else old(file.settings)
  {
    if guild.None? {
      return DmRefusal;
    }
    var current := RankedOnly(file.settings, guild.value);
    var reply := file.SetRankedOnly(guild.value, !current, saved);
    message := reply.message;
  }

  /** `!channel`: outside a guild, the refusal; inside guild `g`, bind the
      channel the command was sent in and relay the store's reply. */
  method SetChannel(file: GuildChannelsFile, guild: Option<GuildId>, channel: ChannelId, saved: bool)
    returns (message: string)
    modifies file
    ensures guild.None? ==> message == DmRefusal && file.channels == old(file.channels)
    ensures guild.Some? ==>
              && message == (if saved then "Notification channel set for this server!"
                             else "Failed to save channel setting")
              && file.channels == if saved then old(file.channels)[guild.value := channel] else old(file.channels)
  {
    if guild.None? {
      return DmRefusal;
    }
    var reply := file.SetGuildChannel(guild.value, channel, saved);
    message := reply.message;
  }
}
