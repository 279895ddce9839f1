/** The tracked roster (`tracked-players.json`): an ordered list of players
    added with `!track username#tag` and removed with `!untrack`. */
module TrackedPlayers {
  import opened Common
  import opened Text

  datatype Player = Player(username: string, tag: string, puuid: Puuid)

  /** The `${username}#${tag}` string a player is known by. */
  function NameTag(p: Player): string {
    p.username + "#" + p.tag
  }

  /** A name part as parsing produces it: non-empty, trimmed, without `#`. */
  predicate NamePart(s: string) {
    s != [] && Trimmed(s) && '#' !in s
  }

  /** Why tracking or untracking was refused. */
  datatype TrackError =
    | InvalidFormat     // not exactly one `#`
    | MissingPart       // username or tag empty after trimming
    | PlayerNotFound    // the puuid lookup gave nothing
    | AlreadyTracked    // same puuid, or same `username#tag` string
    | NotInList         // untrack found no entry with that string
    | SaveFailed        // writing the file failed

  /** The parsing step of `addTrackedPlayer`: split on `#`, demand exactly
      two parts, trim them and demand both non-empty. */
  function ParseUsernameTag(s: string): (r: Result<(string, string), TrackError>)
    ensures r == Err(InvalidFormat) <==> Occurrences(s, '#') != 1
    ensures r == Err(MissingPart) <==>
              Occurrences(s, '#') == 1
              && (AllWhitespace(Split(s, '#')[0]) || AllWhitespace(Split(s, '#')[1]))
    ensures r.Ok? ==> r.value == (Trim(Split(s, '#')[0]), Trim(Split(s, '#')[1]))
    ensures r.Ok? ==> NamePart(r.value.0) && NamePart(r.value.1)
    ensures r.Ok? || r == Err(InvalidFormat) || r == Err(MissingPart)
  {
    match SplitPair(s, '#')
    case Ok(parts) => Ok(parts)
    case Err(WrongPartCount) => Err(InvalidFormat)
    case Err(EmptyPart) => Err(MissingPart)
  }

  /** A stored name parses back to itself. */
  lemma ParseNameTag(p: Player)
    requires NamePart(p.username) && NamePart(p.tag)
    ensures ParseUsernameTag(NameTag(p)) == Ok((p.username, p.tag))
  {
    SplitPairOfJoined(p.username, '#', p.tag);
    assert NameTag(p) == p.username + ['#'] + p.tag;
  }

  /** The duplicate test of `addTrackedPlayer` (`players.find(...)`): some
      stored player has this puuid, or its `username#tag` is exactly `raw`. */
  function IsDuplicate(players: seq<Player>, puuid: Puuid, raw: string): (r: bool)
    ensures r <==> exists i :: 0 <= i < |players| && (players[i].puuid == puuid || NameTag(players[i]) == raw)
  {
    if players == [] then false
    else players[0].puuid == puuid || NameTag(players[0]) == raw || IsDuplicate(players[1..], puuid, raw)
  }

  /** No puuid is stored twice. */
  predicate UniquePuuids(players: seq<Player>) {
    forall i, j :: 0 <= i < j < |players| ==> players[i].puuid != players[j].puuid
  }

  /** Appending a player that passed the duplicate test keeps puuids distinct. */
  lemma AppendKeepsUnique(players: seq<Player>, p: Player, raw: string)
    requires UniquePuuids(players) && !IsDuplicate(players, p.puuid, raw)
    ensures UniquePuuids(players + [p])
  {
    var extended := players + [p];
    forall i, j | 0 <= i < j < |extended| ensures extended[i].puuid != extended[j].puuid {
      if j == |players| {
        assert extended[i] == players[i];
      } else {
        assert extended[i] == players[i] && extended[j] == players[j];
      }
    }
  }

  /** The `filter` of `removeTrackedPlayer`: drops every player whose
      `username#tag` is exactly `raw`. */
  function WithoutNameTag(players: seq<Player>, raw: string): (r: seq<Player>)
    ensures forall p :: p in r <==> p in players && NameTag(p) != raw
    ensures |r| <= |players|
    ensures |r| == |players| <==> forall i :: 0 <= i < |players| ==> NameTag(players[i]) != raw
  {
    if players == [] then []
    else if NameTag(players[0]) == raw then WithoutNameTag(players[1..], raw)
    else [players[0]] + WithoutNameTag(players[1..], raw)
  }

  /** The filter keeps order: filtering a concatenation is concatenating the
      filtered parts. */
  lemma {:induction false} WithoutNameTagAppend(a: seq<Player>, b: seq<Player>, raw: string)
    ensures WithoutNameTag(a + b, raw) == WithoutNameTag(a, raw) + WithoutNameTag(b, raw)
  {
    if a == [] {
      assert a + b == b;
    } else {
      var ab := a + b;
      assert ab[0] == a[0] && ab[1..] == a[1..] + b;
      WithoutNameTagAppend(a[1..], b, raw);
      if NameTag(a[0]) == raw {
        calc {
          WithoutNameTag(ab, raw);
          WithoutNameTag(a[1..] + b, raw);
          WithoutNameTag(a[1..], raw) + WithoutNameTag(b, raw);
          WithoutNameTag(a, raw) + WithoutNameTag(b, raw);
        }
      } else {
        calc {
          WithoutNameTag(ab, raw);
          [a[0]] + WithoutNameTag(a[1..] + b, raw);
          [a[0]] + (WithoutNameTag(a[1..], raw) + WithoutNameTag(b, raw));
          ([a[0]] + WithoutNameTag(a[1..], raw)) + WithoutNameTag(b, raw);
          WithoutNameTag(a, raw) + WithoutNameTag(b, raw);
        }
      }
    }
  }

  /** A player that does not match survives a removal unchanged. */
  lemma WithoutNameTagKeeps(players: seq<Player>, raw: string, p: Player)
    requires p in players && NameTag(p) != raw
    ensures p in WithoutNameTag(players, raw)
  {
  }

  /** Removing twice is removing once. */
  lemma {:induction false} WithoutNameTagIdempotent(players: seq<Player>, raw: string)
    ensures WithoutNameTag(WithoutNameTag(players, raw), raw) == WithoutNameTag(players, raw)
  {
    if players != [] {
      WithoutNameTagIdempotent(players[1..], raw);
      if NameTag(players[0]) != raw {
        assert ([players[0]] + WithoutNameTag(players[1..], raw))[1..] == WithoutNameTag(players[1..], raw);
      }
    }
  }

  /** Removal keeps a subsequence, so distinct puuids stay distinct. */
  lemma {:induction false} WithoutNameTagKeepsUnique(players: seq<Player>, raw: string)
    requires UniquePuuids(players)
    ensures UniquePuuids(WithoutNameTag(players, raw))
  {
    if players != [] {
      var tail := players[1..];
      assert UniquePuuids(tail) by {
        forall i, j | 0 <= i < j < |tail| ensures tail[i].puuid != tail[j].puuid {
          assert tail[i] == players[i + 1] && tail[j] == players[j + 1];
        }
      }
      WithoutNameTagKeepsUnique(tail, raw);
      if NameTag(players[0]) != raw {
        var rest := WithoutNameTag(tail, raw);
        var r := [players[0]] + rest;
        forall i, j | 0 <= i < j < |r| ensures r[i].puuid != r[j].puuid {
          if i == 0 {
            assert r[j] == rest[j - 1] && rest[j - 1] in tail;
            var k :| 0 <= k < |tail| && tail[k] == rest[j - 1];
            assert tail[k] == players[k + 1];
          } else {
            assert r[i] == rest[i - 1] && r[j] == rest[j - 1];
          }
        }
      }
    }
  }

  /** Index of the first player with this `username#tag`, or `|players|`. */
  function IndexOfNameTag(players: seq<Player>, raw: string): (i: nat)
    ensures i <= |players|
    ensures forall j :: 0 <= j < i ==> NameTag(players[j]) != raw
    ensures i < |players| ==> NameTag(players[i]) == raw
  {
    if players == [] then 0
    else if NameTag(players[0]) == raw then 0
    else 1 + IndexOfNameTag(players[1..], raw)
  }

  /** `players.find(p => !filtered.includes(p))`: the first player that is
      not in `kept`, if any. */
  function FirstNotIn(players: seq<Player>, kept: seq<Player>): Option<Player> {
    if players == [] then None
    else if players[0] !in kept then Some(players[0])
    else FirstNotIn(players[1..], kept)
  }

  /** The player `removeTrackedPlayer` reports is the first one whose
      `username#tag` matched. */
  lemma RemovedIsFirstMatch(players: seq<Player>, raw: string)
    requires IndexOfNameTag(players, raw) < |players|
    ensures FirstNotIn(players, WithoutNameTag(players, raw)) == Some(players[IndexOfNameTag(players, raw)])
  {
    var kept := WithoutNameTag(players, raw);
    var i := IndexOfNameTag(players, raw);
    FirstNotInAt(players, kept, i);
  }

  lemma {:induction false} FirstNotInAt(players: seq<Player>, kept: seq<Player>, i: nat)
    requires i < |players| && players[i] !in kept
    requires forall j :: 0 <= j < i ==> players[j] in kept
    ensures FirstNotIn(players, kept) == Some(players[i])
  {
    if i > 0 {
      FirstNotInAt(players[1..], kept, i - 1);
    }
  }

  /** The reply of `addTrackedPlayer` on roster `players`, with its checks in
      the code's order: parsing, then the puuid lookup (`lookup`, where an
      empty string counts as nothing), then the duplicate test, then the
      save. */
  function AddOutcome(players: seq<Player>, usernameTag: string, lookup: Option<Puuid>, saved: bool)
    : (r: Result<Puuid, TrackError>)
    ensures ParseUsernameTag(usernameTag).Err? ==> r == Err(ParseUsernameTag(usernameTag).error)
    ensures ParseUsernameTag(usernameTag).Ok? && (lookup.None? || lookup.value == "") ==>
              r == Err(PlayerNotFound)
    ensures ParseUsernameTag(usernameTag).Ok? && lookup.Some? && lookup.value != "" ==>
              r == if IsDuplicate(players, lookup.value, usernameTag) then Err(AlreadyTracked)
                   else if saved then Ok(lookup.value)
                   else Err(SaveFailed)
    ensures r.Ok? <==> ParseUsernameTag(usernameTag).Ok? && lookup.Some? && lookup.value != ""
                       && !IsDuplicate(players, lookup.value, usernameTag) && saved
  {
    match ParseUsernameTag(usernameTag)
    case Err(e) => Err(e)
    case Ok(_) =>
      if lookup.None? || lookup.value == "" then Err(PlayerNotFound)
      else if IsDuplicate(players, lookup.value, usernameTag) then Err(AlreadyTracked)
      else if saved then Ok(lookup.value)
      else Err(SaveFailed)
  }

  /** The reply of `removeTrackedPlayer` on roster `players`: not in the list
      when nothing matches, otherwise the save decides, and success reports
      the first match. */
  function RemoveOutcome(players: seq<Player>, usernameTag: string, saved: bool): (r: Result<Player, TrackError>)
    ensures r == Err(NotInList) <==> forall i :: 0 <= i < |players| ==> NameTag(players[i]) != usernameTag
    ensures r.Ok? <==> saved && exists i :: 0 <= i < |players| && NameTag(players[i]) == usernameTag
    ensures r.Ok? ==> r.value in players && NameTag(r.value) == usernameTag
                      && r.value == players[IndexOfNameTag(players, usernameTag)]
    ensures r.Err? ==> r.error == NotInList || r.error == SaveFailed
  {
    var i := IndexOfNameTag(players, usernameTag);
    if i == |players| then Err(NotInList)
    else if saved then Ok(players[i])
    else Err(SaveFailed)
  }

  /** `tracked-players.json`; `players` is the list on disk. */
  class TrackedPlayersFile {
    var players: seq<Player>

    constructor (initial: seq<Player>)
      ensures players == initial
    {
      players := initial;
    }

    /** `addTrackedPlayer`: `lookup` is what the puuid lookup returned for
        the parsed username and tag (an empty string counts as nothing). */
    method AddTrackedPlayer(usernameTag: string, lookup: Option<Puuid>, saved: bool)
      returns (r: Result<Puuid, TrackError>)
      modifies this
      ensures r == AddOutcome(old(players), usernameTag, lookup, saved)
      ensures r.Ok? ==> players == old(players) + [Player(ParseUsernameTag(usernameTag).value.0,
                                                         ParseUsernameTag(usernameTag).value.1, r.value)]
      ensures r.Err? ==> players == old(players)
      ensures UniquePuuids(old(players)) ==> UniquePuuids(players)
    {
      var parsed := ParseUsernameTag(usernameTag);
      if parsed.Err? {
        return Err(parsed.error);
      }
      var (username, tag) := parsed.value;
      if lookup.None? || lookup.value == "" {
        return Err(PlayerNotFound);
      }
      var puuid := lookup.value;
      var loaded := players;
      if IsDuplicate(loaded, puuid, usernameTag) {
        return Err(AlreadyTracked);
      }
      assert UniquePuuids(loaded) ==> UniquePuuids(loaded + [Player(username, tag, puuid)]) by {
        if UniquePuuids(loaded) {
          AppendKeepsUnique(loaded, Player(username, tag, puuid), usernameTag);
        }
      }
      loaded := loaded + [Player(username, tag, puuid)];
      if saved {
        players := loaded;
        r := Ok(puuid);
      } else {
        r := Err(SaveFailed);
      }
    }

    /** `removeTrackedPlayer`: drops every entry whose `username#tag` is
        exactly the input and reports the first one dropped. */
    method RemoveTrackedPlayer(usernameTag: string, saved: bool) returns (r: Result<Player, TrackError>)
      modifies this
      ensures r == RemoveOutcome(old(players), usernameTag, saved)
      ensures players == if r.Ok? then WithoutNameTag(old(players), usernameTag) else old(players)
      ensures UniquePuuids(old(players)) ==> UniquePuuids(players)
    {
      var loaded := players;
      var filtered := WithoutNameTag(loaded, usernameTag);
      if |filtered| == |loaded| {
        return Err(NotInList);
      }
      if saved {
        assert UniquePuuids(loaded) ==> UniquePuuids(filtered) by {
          if UniquePuuids(loaded) {
            WithoutNameTagKeepsUnique(loaded, usernameTag);
          }
        }
        players := filtered;
        var removed := FirstNotIn(loaded, filtered);
        RemovedIsFirstMatch(loaded, usernameTag);
        r := Ok(removed.value);
      } else {
        r := Err(SaveFailed);
      }
    }

    /** `getTrackedPlayers`: the stored list, in order. */
    method GetTrackedPlayers() returns (ps: seq<Player>)
      ensures ps == players
    {
      ps := players;
    }
  }
}
