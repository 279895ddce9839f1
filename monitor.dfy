/** The monitoring core of `index.js`: the in-memory `playerStatus` map, the
    "a game started" transition rule, one monitoring cycle over the roster,
    the per-guild fan-out of `notifyPlayerInGame`, and the upkeep of the
    status map by `!track` and `!untrack`. */
module Monitor {
  import opened Common
  import opened TrackedPlayers
  import opened GuildSettings
  import opened GuildChannels

  /** A probe result as the spectator lookup returns it: `{ inGame, gameType }`
      (a "no active game" answer is `{ inGame: false, gameType: null }`; a
      failed lookup is `null`, modelled as `None` of `Option<Status>`). */
  datatype Status = Status(inGame: bool, gameType: Option<string>)

  /** The status assumed for a player with no entry, and set on `!track`. */
  const NotInGame: Status := Status(false, None)

  /** `playerStatus`: last known status per puuid. */
  type StatusMap = map<Puuid, Status>

  /** `playerStatus.get(puuid) || { inGame: false, gameType: null }`. */
  function PreviousStatus(m: StatusMap, puuid: Puuid): Status {
    if puuid in m then m[puuid] else NotInGame
  }

  /** `!previousStatus.inGame && currentStatus.inGame`. */
  predicate StartedGame(previous: Status, current: Status) {
    !previous.inGame && current.inGame
  }

  /** One probe fed to the status map: the new map and whether a game
      started. A failed probe changes nothing and starts nothing; any other
      probe is stored whether or not a game started. */
  function Observe(m: StatusMap, puuid: Puuid, probe: Option<Status>): (r: (StatusMap, bool))
    ensures probe.None? ==> r == (m, false)
    ensures probe.Some? ==> r.0 == m[puuid := probe.value]
    ensures r.1 <==> probe.Some? && probe.value.inGame && !(puuid in m && m[puuid].inGame)
  {
    match probe
    case None => (m, false)
    case Some(current) => (m[puuid := current], StartedGame(PreviousStatus(m, puuid), current))
  }

  /** Once a player has been seen in game, the next probe cannot report a
      start, whatever it says: one game is announced once. */
  lemma NoRepeatedStart(m: StatusMap, puuid: Puuid, s: Status, next: Option<Status>)
    requires s.inGame
    ensures !Observe(Observe(m, puuid, Some(s)).0, puuid, next).1
  {
  }

  /** A call to `notifyPlayerInGame(player, gameType)`. */
  datatype GameStart = GameStart(player: Player, gameType: Option<string>)

  /** The monitoring loop body over the whole roster, in roster order, with
      `probes[k]` the probe result for `players[k]`: the final status map
      and the game starts reported, in order. */
  function Cycle(m: StatusMap, players: seq<Player>, probes: seq<Option<Status>>): (r: (StatusMap, seq<GameStart>))
    requires |probes| == |players|
    ensures |r.1| <= |players|
    decreases |players|
  {
    if players == [] then (m, [])
    else
      var observed := Observe(m, players[0].puuid, probes[0]);
      var rest := Cycle(observed.0, players[1..], probes[1..]);
      var here := if observed.1 then [GameStart(players[0], probes[0].value.gameType)] else [];
      (rest.0, here + rest.1)
  }

  /** With distinct puuids on the roster, after a cycle each player's status
      is its probe result when the probe succeeded and is untouched when it
      failed; the statuses of puuids not on the roster are untouched. */
  lemma {:induction false} CycleStatus(m: StatusMap, players: seq<Player>, probes: seq<Option<Status>>, puuid: Puuid)
    requires |probes| == |players| && UniquePuuids(players)
    decreases |players|
    ensures forall k :: 0 <= k < |players| && players[k].puuid == puuid ==>
              var after := Cycle(m, players, probes).0;
              if probes[k].Some? then puuid in after && after[puuid] == probes[k].value
              else (puuid in after <==> puuid in m) && (puuid in m ==> after[puuid] == m[puuid])
    ensures (forall k :: 0 <= k < |players| ==> players[k].puuid != puuid) ==>
              var after := Cycle(m, players, probes).0;
              (puuid in after <==> puuid in m) && (puuid in m ==> after[puuid] == m[puuid])
  {
    if players != [] {
      var observed := Observe(m, players[0].puuid, probes[0]);
      UniqueTail(players);
      CycleStatus(observed.0, players[1..], probes[1..], puuid);
      forall k | 0 <= k < |players| && players[k].puuid == puuid
        ensures var after := Cycle(m, players, probes).0;
                if probes[k].Some? then puuid in after && after[puuid] == probes[k].value
                else (puuid in after <==> puuid in m) && (puuid in m ==> after[puuid] == m[puuid])
      {
        if k == 0 {
          assert forall j :: 0 <= j < |players[1..]| ==> players[1..][j].puuid != puuid by {
            forall j | 0 <= j < |players[1..]| ensures players[1..][j].puuid != puuid {
              assert players[1..][j] == players[j + 1];
            }
          }
        } else {
          assert players[1..][k - 1] == players[k] && probes[1..][k - 1] == probes[k];
          assert players[0].puuid != puuid;
        }
      }
      if forall k :: 0 <= k < |players| ==> players[k].puuid != puuid {
        assert players[0].puuid != puuid;
        assert forall j :: 0 <= j < |players[1..]| ==> players[1..][j].puuid != puuid by {
          forall j | 0 <= j < |players[1..]| ensures players[1..][j].puuid != puuid {
            assert players[1..][j] == players[j + 1];
          }
        }
      }
    }
  }

  /** The starts a cycle is meant to report, in roster order: every player
      whose probe, judged against the status map as it was before the
      cycle, shows a start. */
  function Announced(m: StatusMap, players: seq<Player>, probes: seq<Option<Status>>): (starts: seq<GameStart>)
    requires |probes| == |players|
    ensures forall st :: st in starts ==> exists k :: 0 <= k < |players| && Observe(m, players[k].puuid, probes[k]).1
                                                  && st == GameStart(players[k], probes[k].value.gameType)
    ensures forall k :: 0 <= k < |players| && Observe(m, players[k].puuid, probes[k]).1 ==>
              GameStart(players[k], probes[k].value.gameType) in starts
    decreases |players|
  {
    if players == [] then []
    else
      var here := if Observe(m, players[0].puuid, probes[0]).1
                  then [GameStart(players[0], probes[0].value.gameType)] else [];
      var rest := Announced(m, players[1..], probes[1..]);
      assert forall k :: 1 <= k < |players| ==> players[1..][k - 1] == players[k] && probes[1..][k - 1] == probes[k];
      here + rest
  }

  /** Dropping the first player keeps the puuids distinct. */
  lemma UniqueTail(players: seq<Player>)
    requires players != [] && UniquePuuids(players)
    ensures UniquePuuids(players[1..])
    ensures forall k :: 0 <= k < |players[1..]| ==> players[1..][k].puuid != players[0].puuid
  {
    forall i, j | 0 <= i < j < |players[1..]| ensures players[1..][i].puuid != players[1..][j].puuid {
      assert players[1..][i] == players[i + 1] && players[1..][j] == players[j + 1];
    }
    forall k | 0 <= k < |players[1..]| ensures players[1..][k].puuid != players[0].puuid {
      assert players[1..][k] == players[k + 1];
    }
  }

  /** Only the stored statuses of the rostered players matter. */
  lemma {:induction false} AnnouncedAgrees(m: StatusMap, m': StatusMap, players: seq<Player>, probes: seq<Option<Status>>)
    requires |probes| == |players|
    requires forall k :: 0 <= k < |players| ==> PreviousStatus(m, players[k].puuid) == PreviousStatus(m', players[k].puuid)
    ensures Announced(m, players, probes) == Announced(m', players, probes)
    decreases |players|
  {
    if players != [] {
      assert PreviousStatus(m, players[0].puuid) == PreviousStatus(m', players[0].puuid);
      assert Observe(m, players[0].puuid, probes[0]).1 == Observe(m', players[0].puuid, probes[0]).1;
      forall k | 0 <= k < |players[1..]|
        ensures PreviousStatus(m, players[1..][k].puuid) == PreviousStatus(m', players[1..][k].puuid)
      {
        assert players[1..][k] == players[k + 1];
      }
      AnnouncedAgrees(m, m', players[1..], probes[1..]);
    }
  }

  /** With distinct puuids, a cycle reports exactly the announced starts, in
      roster order: storing one player's status does not change how the
      players after it are judged. */
  lemma {:induction false} CycleStartsAnnounced(m: StatusMap, players: seq<Player>, probes: seq<Option<Status>>)
    requires |probes| == |players| && UniquePuuids(players)
    ensures Cycle(m, players, probes).1 == Announced(m, players, probes)
    decreases |players|
  {
    if players != [] {
      var observed := Observe(m, players[0].puuid, probes[0]);
      UniqueTail(players);
      CycleStartsAnnounced(observed.0, players[1..], probes[1..]);
      forall k | 0 <= k < |players[1..]|
        ensures PreviousStatus(observed.0, players[1..][k].puuid) == PreviousStatus(m, players[1..][k].puuid)
      {
        assert players[1..][k].puuid != players[0].puuid;
      }
      AnnouncedAgrees(observed.0, m, players[1..], probes[1..]);
    }
  }

  // ---------------------------------------------------------------------
  // Repeated cycles and rising edges

  /** Cycles run one after another over a fixed roster, `rounds[c][k]` being
      the probe of `players[k]` in cycle `c`: the final status map and the
      starts of each cycle. */
  function Cycles(m: StatusMap, players: seq<Player>, rounds: seq<seq<Option<Status>>>): (r: (StatusMap, seq<seq<GameStart>>))
    requires forall c :: 0 <= c < |rounds| ==> |rounds[c]| == |players|
    ensures |r.1| == |rounds|
    decreases |rounds|
  {
    if rounds == [] then (m, [])
    else
      var first := Cycle(m, players, rounds[0]);
      var rest := Cycles(first.0, players, rounds[1..]);
      (rest.0, [first.1] + rest.1)
  }

  /** A cycle over a one-player roster is one observation. */
  lemma CycleOfOne(m: StatusMap, p: Player, probe: Option<Status>)
    ensures Cycle(m, [p], [probe]).0 == Observe(m, p.puuid, probe).0
    ensures Cycle(m, [p], [probe]).1 ==
              if Observe(m, p.puuid, probe).1 then [GameStart(p, probe.value.gameType)] else []
  {
    assert [p][1..] == [] && [probe][1..] == [];
    var observed := Observe(m, p.puuid, probe);
    assert Cycle(observed.0, [], []) == (observed.0, []);
  }

  /** The in-game flags of the successful probes, in order. */
  function InGameFlags(probes: seq<Option<Status>>): seq<bool> {
    if probes == [] then []
    else if probes[0].None? then InGameFlags(probes[1..])
    else [probes[0].value.inGame] + InGameFlags(probes[1..])
  }

  /** The number of false-to-true steps in `flags`, starting from `was`. */
  function RisingEdges(was: bool, flags: seq<bool>): nat
    decreases |flags|
  {
    if flags == [] then 0
    else (if !was && flags[0] then 1 else 0) + RisingEdges(flags[0], flags[1..])
  }

  /** Total number of starts over several cycles. */
  function TotalStarts(starts: seq<seq<GameStart>>): nat {
    if starts == [] then 0 else |starts[0]| + TotalStarts(starts[1..])
  }

  /** The rounds of a one-player roster, as one probe per cycle. */
  function SoloRounds(probes: seq<Option<Status>>): (rounds: seq<seq<Option<Status>>>)
    ensures |rounds| == |probes|
    ensures forall c :: 0 <= c < |rounds| ==> rounds[c] == [probes[c]]
  {
    if probes == [] then [] else [[probes[0]]] + SoloRounds(probes[1..])
  }

  /** For a single tracked player, the cycles announce exactly as many games
      as there are false-to-true steps in the in-game flags of its successful
      probes, starting from its stored status (not in game if it has none):
      never on true-to-true, false-to-false or true-to-false, and failed
      probes are skipped. */
  lemma {:induction false} StartsAreRisingEdges(m: StatusMap, p: Player, probes: seq<Option<Status>>)
    ensures TotalStarts(Cycles(m, [p], SoloRounds(probes)).1) ==
              RisingEdges(PreviousStatus(m, p.puuid).inGame, InGameFlags(probes))
    decreases |probes|
  {
    var rounds := SoloRounds(probes);
    if probes != [] {
      var first := Cycle(m, [p], rounds[0]);
      assert rounds[0] == [probes[0]];
      assert [p][1..] == [] && [probes[0]][1..] == [];
      assert rounds[1..] == SoloRounds(probes[1..]);
      StartsAreRisingEdges(first.0, p, probes[1..]);
      var observed := Observe(m, p.puuid, probes[0]);
      CycleOfOne(m, p, probes[0]);
      assert first.0 == observed.0;
      assert |first.1| == if observed.1 then 1 else 0;
      var rest := Cycles(first.0, [p], rounds[1..]);
      assert Cycles(m, [p], rounds).1 == [first.1] + rest.1;
      assert ([first.1] + rest.1)[1..] == rest.1;
    }
  }

  /** The in-game flag of the last successful probe among the first `c`,
      or `was` when none of them succeeded. */
  function KnownInGame(was: bool, probes: seq<Option<Status>>, c: nat): bool
    requires c <= |probes|
    decreases c
  {
    if c == 0 then was
    else KnownInGame(if probes[0].Some? then probes[0].value.inGame else was, probes[1..], c - 1)
  }

  /** For a single tracked player, cycle `c` announces a start exactly when
      its probe succeeds and says in game while the last successful probe
      before it (or the stored status, not in game if there is none) said
      not in game; the start carries that probe's game type. */
  lemma {:induction false} StartsPerCycle(m: StatusMap, p: Player, probes: seq<Option<Status>>)
    ensures var starts := Cycles(m, [p], SoloRounds(probes)).1;
            forall c :: 0 <= c < |probes| ==>
              starts[c] == if probes[c].Some? && probes[c].value.inGame
                              && !KnownInGame(PreviousStatus(m, p.puuid).inGame, probes, c)
                           then [GameStart(p, probes[c].value.gameType)] else []
    decreases |probes|
  {
    if probes != [] {
      var was := PreviousStatus(m, p.puuid).inGame;
      SoloCyclesUnfold(m, p, probes);
      CycleOfOne(m, p, probes[0]);
      var first := Cycle(m, [p], [probes[0]]);
      var was' := if probes[0].Some? then probes[0].value.inGame else was;
      assert PreviousStatus(first.0, p.puuid).inGame == was';
      StartsPerCycle(first.0, p, probes[1..]);
      var starts := Cycles(m, [p], SoloRounds(probes)).1;
      var rest := Cycles(first.0, [p], SoloRounds(probes[1..])).1;
      forall c | 0 <= c < |probes|
        ensures starts[c] == if probes[c].Some? && probes[c].value.inGame && !KnownInGame(was, probes, c)
                             then [GameStart(p, probes[c].value.gameType)] else []
      {
        if c > 0 {
          assert starts[c] == rest[c - 1];
          assert probes[1..][c - 1] == probes[c];
        }
      }
    }
  }

  /** The first of several one-player cycles, and the rest. */
  lemma SoloCyclesUnfold(m: StatusMap, p: Player, probes: seq<Option<Status>>)
    requires probes != []
    ensures var first := Cycle(m, [p], [probes[0]]);
            Cycles(m, [p], SoloRounds(probes)).1 == [first.1] + Cycles(first.0, [p], SoloRounds(probes[1..])).1
  {
    var rounds := SoloRounds(probes);
    assert rounds[0] == [probes[0]];
    assert rounds[1..] == SoloRounds(probes[1..]);
  }

  // ---------------------------------------------------------------------
  // Notification fan-out

  /** `gameType === 'RANKED'`. */
  predicate IsRanked(gameType: Option<string>) {
    gameType == Some("RANKED")
  }

  /** `allSettings[guildId]?.rankedOnly !== false`: the fan-out's filter
      reads the same flag as `getRankedOnly`. */
  predicate WantsRankedOnly(settings: SettingsData, g: GuildId)
    ensures WantsRankedOnly(settings, g) == RankedOnly(settings, g)
  {
    !(g in settings && settings[g].rankedOnly == Some(false))
  }

  /** A guild is skipped when it wants ranked games only and this one is not
      ranked. */
  predicate Skips(settings: SettingsData, g: GuildId, gameType: Option<string>)
    ensures Skips(settings, g, gameType) <==> RankedOnly(settings, g) && gameType != Some("RANKED")
  {
    WantsRankedOnly(settings, g) && !IsRanked(gameType)
  }

  /** `isRanked ? 'RANKED' : gameType || 'game'`: the game type as reported,
      or `game` when it is missing or empty. */
  function Label(gameType: Option<string>): (text: string)
    ensures text == if gameType.Some? && gameType.value != "" then gameType.value else "game"
  {
    if IsRanked(gameType) then "RANKED"
    else if gameType.Some? && gameType.value != "" then gameType.value
    else "game"
  }

  /** One message posted to a guild's channel about a start. */
  datatype Notification = Notification(guild: GuildId, channel: ChannelId, start: GameStart) {
    /** The game label of the message text. */
    function GameText(): string { Label(start.gameType) }
  }

  /** The message `n` is posted: its guild has a channel binding, is not
      filtered out, and fetching and posting to its channel succeed
      (`reachable` holds the guilds for which they do). */
  predicate Delivered(n: Notification, channels: ChannelData, settings: SettingsData, reachable: set<GuildId>) {
    && n.guild in channels
    && n.channel == channels[n.guild]
    && !Skips(settings, n.guild, n.start.gameType)
    && n.guild in reachable
  }

  /** `notifyPlayerInGame`: one message per bound guild that passes its
      filter and whose channel accepts it; a guild that fails does not stop
      the others; nothing at all without bindings. */
  method NotifyPlayerInGame(start: GameStart, channels: ChannelData, settings: SettingsData, reachable: set<GuildId>)
    returns (sent: set<Notification>)
    ensures forall n :: n in sent <==> n.start == start && Delivered(n, channels, settings, reachable)
    ensures channels == map[] ==> sent == {}
  {
    sent := {};
    if |channels| == 0 {
      return;
    }
    var pending := channels.Keys;
    while pending != {}
      invariant pending <= channels.Keys
      invariant forall n :: n in sent <==>
                  n.start == start && Delivered(n, channels, settings, reachable) && n.guild !in pending
    {
      var g :| g in pending;
      pending := pending - {g};
      if Skips(settings, g, start.gameType) {
        continue;
      }
      if g in reachable {
        sent := sent + {Notification(g, channels[g], start)};
      }
    }
  }

  /** A guild left at the default (or set to ranked-only) gets nothing about
      a game that is not ranked, whatever its channel does. */
  lemma RankedOnlyGuildSkipsUnranked(n: Notification, channels: ChannelData, settings: SettingsData, reachable: set<GuildId>)
    requires n.guild !in settings || settings[n.guild].rankedOnly != Some(false)
    requires n.start.gameType != Some("RANKED")
    ensures !Delivered(n, channels, settings, reachable)
  {
  }

  /** Four cycles over a one-player roster probed not in game, in a
      "Normal Draft" game twice, then not in game: exactly one start, in the
      second cycle, and a guild bound to a channel with ranked-only off is
      sent one message labelled with that game type. */
  lemma OneGameOneAnnouncement(p: Player, s: GuildId, c: ChannelId)
    ensures var out := Status(false, None);
            var draft := Status(true, Some("Normal Draft"));
            var start := GameStart(p, Some("Normal Draft"));
            var settings := map[s := Settings(Some(false), map[])];
            && Cycles(map[], [p], SoloRounds([Some(out), Some(draft), Some(draft), Some(out)])).1 == [[], [start], [], []]
            && Delivered(Notification(s, c, start), map[s := c], settings, {s})
            && Notification(s, c, start).GameText() == "Normal Draft"
  {
    var out := Status(false, None);
    var draft := Status(true, Some("Normal Draft"));
    var start := GameStart(p, Some("Normal Draft"));
    var m1 := map[p.puuid := out];
    var m2 := map[p.puuid := draft];
    var m4 := map[p.puuid := out];
    assert Cycle(map[], [p], [Some(out)]) == (m1, []);
    assert m1[p.puuid := draft] == m2;
    assert Cycle(m2, [], []) == (m2, []);
    assert [start] + [] == [start];
    assert Cycle(m1, [p], [Some(draft)]) == (m2, [start]);
    assert m2[p.puuid := draft] == m2;
    assert Cycle(m2, [p], [Some(draft)]) == (m2, []);
    assert m2[p.puuid := out] == m4;
    assert Cycle(m4, [], []) == (m4, []);
    assert Cycle(m2, [p], [Some(out)]) == (m4, []);
    var rounds := SoloRounds([Some(out), Some(draft), Some(draft), Some(out)]);
    assert rounds == [[Some(out)], [Some(draft)], [Some(draft)], [Some(out)]];
    assert rounds[1..] == [[Some(draft)], [Some(draft)], [Some(out)]];
    assert rounds[1..][1..] == [[Some(draft)], [Some(out)]];
    assert rounds[1..][1..][1..] == [[Some(out)]];
    assert rounds[1..][1..][1..][1..] == [];
    assert Cycles(m4, [p], []).1 == [];
    assert Cycles(m2, [p], [[Some(out)]]).1 == [[]];
    assert Cycles(m2, [p], [[Some(draft)], [Some(out)]]).1 == [[], []];
    assert Cycles(m1, [p], [[Some(draft)], [Some(draft)], [Some(out)]]).1 == [[start], [], []];
  }

  /** The status map kept by the monitoring loop and the command handlers. */
  class StatusMonitor {
    var playerStatus: StatusMap

    constructor ()
      ensures playerStatus == map[]
    {
      playerStatus := map[];
    }

    /** The loop body for one player: skip a failed probe, otherwise compare
        with the previous status, store the new one and report a start. */
    method CheckPlayer(player: Player, probe: Option<Status>) returns (started: bool)
      modifies this
      ensures (playerStatus, started) == Observe(old(playerStatus), player.puuid, probe)
    {
      if probe.None? {
        return false;
      }
      var current := probe.value;
      var previous := if player.puuid in playerStatus then playerStatus[player.puuid] else NotInGame;
      started := !previous.inGame && current.inGame;
      playerStatus := playerStatus[player.puuid := current];
    }

    /** One monitoring cycle: every roster player in order, notifying on each
        start with the channel bindings and settings read for it. */
    method RunCycle(players: seq<Player>, probes: seq<Option<Status>>, channels: ChannelData,
                    settings: SettingsData, reachable: set<GuildId>)
      returns (starts: seq<GameStart>, sent: set<Notification>)
      requires |probes| == |players|
      modifies this
      ensures playerStatus == Cycle(old(playerStatus), players, probes).0
      ensures starts == Cycle(old(playerStatus), players, probes).1
      ensures forall n :: n in sent <==> n.start in starts && Delivered(n, channels, settings, reachable)
    {
      starts, sent := [], {};
      assert players[0..] == players && probes[0..] == probes;
      for i := 0 to |players|
        invariant Cycle(old(playerStatus), players, probes).0 == Cycle(playerStatus, players[i..], probes[i..]).0
        invariant Cycle(old(playerStatus), players, probes).1 == starts + Cycle(playerStatus, players[i..], probes[i..]).1
        invariant forall n :: n in sent <==> n.start in starts && Delivered(n, channels, settings, reachable)
      {
        ghost var before := playerStatus;
        assert players[i..][0] == players[i] && probes[i..][0] == probes[i];
        assert players[i..][1..] == players[i + 1..] && probes[i..][1..] == probes[i + 1..];
        var started := CheckPlayer(players[i], probes[i]);
        ghost var rest := Cycle(playerStatus, players[i + 1..], probes[i + 1..]);
        ghost var here := if started then [GameStart(players[i], probes[i].value.gameType)] else [];
        assert Cycle(before, players[i..], probes[i..]).0 == rest.0;
        assert Cycle(before, players[i..], probes[i..]).1 == here + rest.1;
        if started {
          var start := GameStart(players[i], probes[i].value.gameType);
          var delivered := NotifyPlayerInGame(start, channels, settings, reachable);
          starts := starts + [start];
          sent := sent + delivered;
        }
      }
      assert players[|players|..] == [] && probes[|probes|..] == [];
      assert starts + [] == starts;
    }

    /** `!track username#tag`: an empty argument only gets the usage reply;
        otherwise the player is added and, on success, starts out not in game. */
    method Track(roster: TrackedPlayersFile, usernameTag: string, lookup: Option<Puuid>, saved: bool)
      returns (r: Option<Result<Puuid, TrackError>>)
      modifies this, roster
      ensures usernameTag == "" ==> r.None? && roster.players == old(roster.players)
      ensures usernameTag != "" ==> r == Some(AddOutcome(old(roster.players), usernameTag, lookup, saved))
      ensures r.Some? && r.value.Ok? ==> ParseUsernameTag(usernameTag).Ok?
      ensures r.Some? && r.value.Ok? ==>
                roster.players == old(roster.players) + [Player(ParseUsernameTag(usernameTag).value.0,
                                                               ParseUsernameTag(usernameTag).value.1, r.value.value)]
      ensures r.Some? && r.value.Err? ==> roster.players == old(roster.players)
      ensures playerStatus == if r.Some? && r.value.Ok? then old(playerStatus)[r.value.value := NotInGame]
                              else old(playerStatus)
    {
      if usernameTag == "" {
        return None;
      }
      var result := roster.AddTrackedPlayer(usernameTag, lookup, saved);
      if result.Ok? && result.value != "" {
        playerStatus := playerStatus[result.value := NotInGame];
      }
      r := Some(result);
    }

    /** `!untrack username#tag` as written: the first matching player is
        looked up before the removal and its status is deleted whenever it
        was found, even when saving the roster failed. */
    method Untrack(roster: TrackedPlayersFile, usernameTag: string, saved: bool)
      returns (r: Option<Result<Player, TrackError>>)
      modifies this, roster
      ensures usernameTag == "" ==> r.None? && roster.players == old(roster.players)
      ensures usernameTag != "" ==> r.Some?
      ensures usernameTag != "" ==> r == Some(RemoveOutcome(old(roster.players), usernameTag, saved))
      ensures roster.players == if r.Some? && r.value.Ok? then WithoutNameTag(old(roster.players), usernameTag)
                                else old(roster.players)
      ensures UniquePuuids(old(roster.players)) ==> UniquePuuids(roster.players)
      ensures playerStatus == if usernameTag == "" then old(playerStatus)
                              else StatusAfterUntrack(old(playerStatus), old(roster.players), usernameTag)
    {
      if usernameTag == "" {
        return None;
      }
      var before := roster.GetTrackedPlayers();
      var i := IndexOfNameTag(before, usernameTag);
      var result := roster.RemoveTrackedPlayer(usernameTag, saved);
      if i < |before| {
        playerStatus := playerStatus - {before[i].puuid};
      }
      r := Some(result);
    }

    /** `!untrack` with the status deleted only when the removal succeeded. */
    method UntrackChecked(roster: TrackedPlayersFile, usernameTag: string, saved: bool)
      returns (r: Option<Result<Player, TrackError>>)
      modifies this, roster
      ensures usernameTag == "" ==> r.None? && roster.players == old(roster.players)
      ensures usernameTag != "" ==> r.Some?
      ensures usernameTag != "" ==> r == Some(RemoveOutcome(old(roster.players), usernameTag, saved))
      ensures roster.players == if r.Some? && r.value.Ok? then WithoutNameTag(old(roster.players), usernameTag)
                                else old(roster.players)
      ensures UniquePuuids(old(roster.players)) ==> UniquePuuids(roster.players)
      ensures playerStatus == StatusAfterUntrackChecked(old(playerStatus), old(roster.players), usernameTag,
                                                        r.Some? && r.value.Ok?)
    {
      if usernameTag == "" {
        return None;
      }
      var before := roster.GetTrackedPlayers();
      var i := IndexOfNameTag(before, usernameTag);
      var result := roster.RemoveTrackedPlayer(usernameTag, saved);
      if result.Ok? && i < |before| {
        playerStatus := playerStatus - {before[i].puuid};
      }
      r := Some(result);
    }
  }

  // ---------------------------------------------------------------------
  // Status upkeep on untrack

  /** The status map after `!untrack` as written: the first player matching
      the string loses its entry, whether or not the roster changed. */
  function StatusAfterUntrack(status: StatusMap, before: seq<Player>, raw: string): (r: StatusMap)
    ensures r.Keys <= status.Keys && forall q :: q in r ==> r[q] == status[q]
    ensures IndexOfNameTag(before, raw) < |before| ==> before[IndexOfNameTag(before, raw)].puuid !in r
    ensures forall q :: q in status && q !in r ==> IndexOfNameTag(before, raw) < |before|
                                                   && q == before[IndexOfNameTag(before, raw)].puuid
  {
    var i := IndexOfNameTag(before, raw);
    if i < |before| then status - {before[i].puuid} else status
  }

  /** The status map after the corrected `!untrack`: only a removal that was
      saved deletes the entry. */
  function StatusAfterUntrackChecked(status: StatusMap, before: seq<Player>, raw: string, removed: bool): (r: StatusMap)
    ensures !removed ==> r == status
    ensures removed ==> r == StatusAfterUntrack(status, before, raw)
  {
    var i := IndexOfNameTag(before, raw);
    if removed && i < |before| then status - {before[i].puuid} else status
  }

  /** As written, a failed save while untracking a player who is in game
      leaves the player tracked but forgets that it is in game, so the next
      cycle announces the same game again. */
  lemma UntrackFailedSaveRenotifies()
    ensures var p := Player("Bork", "NA1", "p1");
            var inGame := Status(true, Some("CLASSIC"));
            var status := map["p1" := inGame];
            // the roster is unchanged by the failed save, the status is gone
            var after := StatusAfterUntrack(status, [p], "Bork#NA1");
            && |Cycle(status, [p], [Some(inGame)]).1| == 0
            && |Cycle(after, [p], [Some(inGame)]).1| == 1
  {
    var p := Player("Bork", "NA1", "p1");
    assert NameTag(p) == "Bork#NA1";
    assert IndexOfNameTag([p], "Bork#NA1") == 0;
  }

  /** Corrected, a player that is still tracked after `!untrack` keeps its
      status, so an ongoing game is not announced again. */
  lemma UntrackCheckedKeepsTrackedStatus(status: StatusMap, before: seq<Player>, raw: string, removed: bool, q: Player)
    requires UniquePuuids(before)
    requires q in (if removed then WithoutNameTag(before, raw) else before)
    ensures PreviousStatus(StatusAfterUntrackChecked(status, before, raw, removed), q.puuid) ==
              PreviousStatus(status, q.puuid)
  {
    var i := IndexOfNameTag(before, raw);
    if removed && i < |before| {
      assert q in before && NameTag(q) != raw;
      var k :| 0 <= k < |before| && before[k] == q;
      assert k != i;
      assert before[i].puuid != q.puuid;
    }
  }
}
