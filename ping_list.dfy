/** The per-guild ping subscription table (`ping-list.json`).

    Each guild maps targets to the users subscribed to them, and each user to
    a subscription type. A target is the sentinel `GLOBAL` (every tracked
    player) or one player's puuid. Older files stored a plain array of user
    ids per guild; every load upgrades such entries first. */
module PingList {
  import opened Common

  /** A subscription scope: `GLOBAL` or a player's puuid. */
  type Target = string

  const GLOBAL: Target := "GLOBAL"

  /** `'all'` pings for every game, `'ranked'` only for ranked games. */
  datatype SubType = All | Ranked

  type TargetSubs = map<UserId, SubType>
  type Subscriptions = map<Target, TargetSubs>

  /** One guild's value in the JSON document: the legacy flat array of user
      ids, or an object whose `subscriptions` field may be missing. */
  datatype GuildEntry = Legacy(users: seq<UserId>) | Record(subscriptions: Option<Subscriptions>)

  /** The whole `ping-list.json` document. */
  type PingData = map<GuildId, GuildEntry>

  /** The `subscriptions` field of an entry; an array has none. */
  function SubscriptionsOf(e: GuildEntry): Option<Subscriptions> {
    match e
    case Legacy(_) => None
    case Record(subs) => subs
  }

  /** The stored type for (guild, target, user), if any. */
  function Lookup(pl: PingData, g: GuildId, target: Target, u: UserId): Option<SubType> {
    if g in pl && SubscriptionsOf(pl[g]).Some? then
      var subs := SubscriptionsOf(pl[g]).value;
      if target in subs && u in subs[target] then Some(subs[target][u]) else None
    else None
  }

  /** The targets present under a guild's `subscriptions`. */
  function TargetsOf(pl: PingData, g: GuildId): set<Target> {
    if g in pl && SubscriptionsOf(pl[g]).Some? then SubscriptionsOf(pl[g]).value.Keys else {}
  }

  // ---------------------------------------------------------------------
  // Migration of the legacy format

  /** The entries `migratePingList` rewrites. */
  predicate NeedsMigration(e: GuildEntry) {
    e.Legacy? || e.subscriptions.None?
  }

  predicate IsMigrated(pl: PingData) {
    forall g :: g in pl ==> !NeedsMigration(pl[g])
  }

  /** What migration makes of one guild entry. */
  function MigratedEntry(e: GuildEntry): (m: GuildEntry)
    ensures !NeedsMigration(m)
    ensures !NeedsMigration(e) ==> m == e
    ensures e.Legacy? ==>
              && m.subscriptions.value.Keys == {GLOBAL}
              && (forall u :: u in m.subscriptions.value[GLOBAL] <==> u in e.users)
              && (forall u :: u in m.subscriptions.value[GLOBAL] ==> m.subscriptions.value[GLOBAL][u] == All)
    ensures e == Record(None) ==> m == Record(Some(map[GLOBAL := map[]]))
  {
    match e
    case Legacy(users) => Record(Some(map[GLOBAL := map u | u in users :: All]))
    case Record(None) => Record(Some(map[GLOBAL := map[]]))
    case Record(Some(_)) => e
  }

  /** The document after migration. */
  function MigrateAll(data: PingData): PingData {
    map g | g in data :: MigratedEntry(data[g])
  }

  /** The `users.forEach` of the legacy branch: every listed user becomes a
      GLOBAL `'all'` subscriber. */
  method AllSubscribers(users: seq<UserId>) returns (global: TargetSubs)
    ensures forall u :: u in global <==> u in users
    ensures forall u :: u in global ==> global[u] == All
  {
    global := map[];
    for i := 0 to |users|
      invariant forall u :: u in global <==> u in users[..i]
      invariant forall u :: u in global ==> global[u] == All
    {
      global := global[users[i] := All];
    }
  }

  /** `migratePingList`: rewrites every legacy or structureless guild entry
      and reports whether anything changed. */
  method Migrate(data: PingData) returns (migrated: PingData, modified: bool)
    ensures migrated.Keys == data.Keys
    ensures forall g :: g in data ==> migrated[g] == MigratedEntry(data[g])
    ensures modified <==> !IsMigrated(data)
    ensures IsMigrated(migrated)
  {
    migrated, modified := data, false;
    var pending := data.Keys;
    while pending != {}
      invariant pending <= data.Keys
      invariant migrated.Keys == data.Keys
      invariant forall g :: g in data && g !in pending ==> migrated[g] == MigratedEntry(data[g])
      invariant forall g :: g in pending ==> migrated[g] == data[g]
      invariant modified <==> exists g :: g in data && g !in pending && NeedsMigration(data[g])
    {
      var g :| g in pending;
      match migrated[g] {
        case Legacy(users) =>
          var global := AllSubscribers(users);
          assert global == map u | u in users :: All;
          migrated := migrated[g := Record(Some(map[GLOBAL := global]))];
          modified := true;
        case Record(None) =>
          migrated := migrated[g := Record(Some(map[GLOBAL := map[]]))];
          modified := true;
        case Record(Some(_)) =>
      }
      pending := pending - {g};
    }
  }

  /** Migration is idempotent: already migrated data is left as it is, and a
      second migration changes nothing. */
  lemma MigrationIdempotent(data: PingData)
    ensures IsMigrated(data) ==> MigrateAll(data) == data
    ensures MigrateAll(MigrateAll(data)) == MigrateAll(data)
  {
  }

  /** After migration a legacy guild's GLOBAL target holds exactly the users
      of its array, each with type `'all'`, and no other target exists. */
  lemma MigratedLegacyLookup(data: PingData, g: GuildId, target: Target, u: UserId)
    requires g in data && data[g].Legacy?
    ensures Lookup(MigrateAll(data), g, target, u) ==
              if target == GLOBAL && u in data[g].users then Some(All) else None
  {
  }

  /** The document on disk after `loadPingList`: the migrated data if there
      was something to migrate and writing it back succeeded. */
  function Loaded(data: PingData, writeBackSaved: bool): (r: PingData)
    ensures IsMigrated(data) ==> r == data
    ensures !writeBackSaved ==> r == data
    ensures writeBackSaved ==> IsMigrated(r)
  {
    if writeBackSaved && !IsMigrated(data) then MigrateAll(data) else data
  }

  /** Whether the write-back of a migration succeeded cannot be observed: the
      next load sees the same data either way. */
  lemma LoadedThenLoad(data: PingData, writeBackSaved: bool)
    ensures MigrateAll(Loaded(data, writeBackSaved)) == MigrateAll(data)
  {
    MigrationIdempotent(data);
  }

  // ---------------------------------------------------------------------
  // Subscribe and unsubscribe

  /** What `addPingSubscriber` and `removePingSubscriber` report. */
  datatype PingOutcome = Updated | AlreadySubscribed | NotSubscribed | SaveFailed

  /** The document after a successful subscribe: containers are created as
      needed and exactly the (guild, target, user) entry is set. */
  function Subscribe(pl: PingData, g: GuildId, target: Target, u: UserId, t: SubType): (r: PingData)
    ensures Lookup(r, g, target, u) == Some(t)
    ensures forall g', target', u' :: (g' != g || target' != target || u' != u) ==>
              Lookup(r, g', target', u') == Lookup(pl, g', target', u')
    ensures r.Keys == pl.Keys + {g}
    ensures forall g' :: g' in pl && g' != g ==> r[g'] == pl[g']
    ensures TargetsOf(r, g) == (if g in pl && SubscriptionsOf(pl[g]).Some? then TargetsOf(pl, g) else {GLOBAL}) + {target}
  {
    var subs := if g in pl && SubscriptionsOf(pl[g]).Some? then SubscriptionsOf(pl[g]).value
                else map[GLOBAL := map[]];
    var targetSubs := if target in subs then subs[target] else map[];
    pl[g := Record(Some(subs[target := targetSubs[u := t]]))]
  }

  /** The document after a successful unsubscribe: exactly that entry is
      gone, and its target too once no user is left under it. */
  function Unsubscribe(pl: PingData, g: GuildId, target: Target, u: UserId): (r: PingData)
    requires Lookup(pl, g, target, u).Some?
    ensures Lookup(r, g, target, u) == None
    ensures forall g', target', u' :: (g' != g || target' != target || u' != u) ==>
              Lookup(r, g', target', u') == Lookup(pl, g', target', u')
    ensures r.Keys == pl.Keys
    ensures forall g' :: g' in pl && g' != g ==> r[g'] == pl[g']
    ensures SubscriptionsOf(r[g]).Some?
    ensures target in TargetsOf(r, g) <==> exists u' :: u' != u && Lookup(pl, g, target, u').Some?
    ensures forall target' :: target' != target ==> (target' in TargetsOf(r, g) <==> target' in TargetsOf(pl, g))
  {
    var subs := SubscriptionsOf(pl[g]).value;
    var remaining := subs[target] - {u};
    assert remaining.Keys == {} ==> forall u' :: u' != u ==> Lookup(pl, g, target, u').None? by {
      if remaining.Keys == {} {
        forall u' | u' != u ensures Lookup(pl, g, target, u').None? {
          assert u' !in remaining;
        }
      }
    }
    assert remaining.Keys != {} ==> exists u' :: u' != u && Lookup(pl, g, target, u').Some? by {
      if remaining.Keys != {} {
        var u' :| u' in remaining.Keys;
        assert Lookup(pl, g, target, u').Some?;
      }
    }
    var pruned := if remaining.Keys == {} then subs - {target} else subs[target := remaining];
    pl[g := Record(Some(pruned))]
  }

  // ---------------------------------------------------------------------
  // Queries on a loaded document

  /** `checkSub`: does a subscription of this type fire for this game? */
  predicate Matches(t: SubType, isRanked: bool)
    ensures Matches(t, isRanked) <==> t == All || isRanked
    ensures !isRanked ==> (Matches(t, isRanked) <==> t != Ranked)
  {
    t == All || (t == Ranked && isRanked)
  }

  /** An entry that exists and fires for this game. */
  predicate Fires(entry: Option<SubType>, isRanked: bool) {
    entry.Some? && Matches(entry.value, isRanked)
  }

  /** One `Object.entries(...)` loop of `getUsersToPing`: adds to `users`
      every user of `targetSubs` whose type fires. */
  method AddFiring(users: set<UserId>, targetSubs: TargetSubs, isRanked: bool) returns (result: set<UserId>)
    ensures forall u :: u in result <==> u in users || (u in targetSubs && Matches(targetSubs[u], isRanked))
  {
    result := users;
    var pending := targetSubs.Keys;
    while pending != {}
      invariant pending <= targetSubs.Keys
      invariant forall u :: u in result <==>
                  u in users || (u in targetSubs && u !in pending && Matches(targetSubs[u], isRanked))
    {
      var u :| u in pending;
      if Matches(targetSubs[u], isRanked) {
        result := result + {u};
      }
      pending := pending - {u};
    }
  }

  /** `getUsersToPing` on a loaded document: the union of the users whose
      subscription to this player, or to GLOBAL, fires for this game. */
  method UsersToPing(pl: PingData, g: GuildId, isRanked: bool, puuid: Puuid) returns (users: set<UserId>)
    ensures forall u :: u in users <==>
              Fires(Lookup(pl, g, puuid, u), isRanked) || Fires(Lookup(pl, g, GLOBAL, u), isRanked)
    ensures g !in pl ==> users == {}
  {
    users := {};
    if g !in pl || SubscriptionsOf(pl[g]).None? {
      return;
    }
    var subs := SubscriptionsOf(pl[g]).value;
    if puuid in subs {
      users := AddFiring(users, subs[puuid], isRanked);
    }
    if GLOBAL in subs {
      users := AddFiring(users, subs[GLOBAL], isRanked);
    }
  }

  /** `getPingSubscribers` on a loaded document: every user with any
      subscription in the guild, whatever its target and type. */
  method Subscribers(pl: PingData, g: GuildId) returns (users: set<UserId>)
    ensures forall u :: u in users <==> exists target :: Lookup(pl, g, target, u).Some?
  {
    users := {};
    if g !in pl || SubscriptionsOf(pl[g]).None? {
      return;
    }
    var subs := SubscriptionsOf(pl[g]).value;
    var pending := subs.Keys;
    while pending != {}
      invariant pending <= subs.Keys
      invariant forall u :: u in users <==> exists target :: target in subs && target !in pending && u in subs[target]
    {
      var target :| target in pending;
      users := users + subs[target].Keys;
      pending := pending - {target};
    }
    forall u ensures u in users <==> exists target :: Lookup(pl, g, target, u).Some? {
      if u in users {
        var target :| target in subs && u in subs[target];
        assert Lookup(pl, g, target, u).Some?;
      }
    }
  }

  /** Subscription to a player and to GLOBAL are additive: a user subscribed
      to GLOBAL `'ranked'` and to one player with `'all'` is pinged for every
      game of that player and for ranked games of anyone. */
  lemma AdditiveTargets(pl: PingData, g: GuildId, u: UserId, player: Puuid, other: Puuid, isRanked: bool)
    requires Lookup(pl, g, GLOBAL, u) == Some(Ranked) && Lookup(pl, g, player, u) == Some(All)
    ensures Fires(Lookup(pl, g, player, u), isRanked) || Fires(Lookup(pl, g, GLOBAL, u), isRanked)
    ensures isRanked ==> Fires(Lookup(pl, g, other, u), isRanked) || Fires(Lookup(pl, g, GLOBAL, u), isRanked)
  {
  }

  /** After a user's last subscription to a target is removed, resolving pings
      for that target finds nobody from it (and does not fail). */
  lemma UnsubscribeLastLeavesNoTarget(pl: PingData, g: GuildId, target: Target, u: UserId)
    requires Lookup(pl, g, target, u).Some?
    requires forall u' :: u' != u ==> Lookup(pl, g, target, u').None?
    ensures target !in TargetsOf(Unsubscribe(pl, g, target, u), g)
    ensures forall u' :: Lookup(Unsubscribe(pl, g, target, u), g, target, u').None?
  {
  }

  // ---------------------------------------------------------------------
  // The store

  /** `ping-list.json` with its load/save cycle; `data` is the document on
      disk, and a save outcome is given to each operation. */
  class PingListFile {
    var data: PingData

    constructor (initial: PingData)
      ensures data == initial
    {
      data := initial;
    }

    /** `loadPingList`: the migrated document, written back when migration
        changed something and the write succeeded. */
    method Load(writeBackSaved: bool) returns (pl: PingData)
      modifies this
      ensures pl == MigrateAll(old(data))
      ensures data == Loaded(old(data), writeBackSaved)
    {
      var modified;
      pl, modified := Migrate(data);
      if modified && writeBackSaved {
        data := pl;
      }
    }

    /** `addPingSubscriber`: refuses when the stored type already equals the
        requested one; otherwise sets it (creating containers) and saves. */
    method AddPingSubscriber(g: GuildId, u: UserId, t: SubType, target: Target, writeBackSaved: bool, saved: bool)
      returns (r: PingOutcome)
      modifies this
      ensures r == AlreadySubscribed <==> Lookup(MigrateAll(old(data)), g, target, u) == Some(t)
      ensures r != AlreadySubscribed ==> r == (if saved then Updated else SaveFailed)
      ensures data == if r == Updated then Subscribe(MigrateAll(old(data)), g, target, u, t)
                      else Loaded(old(data), writeBackSaved)
    {
      var pl := Load(writeBackSaved);
      ghost var loaded := pl;
      if g !in pl {
        pl := pl[g := Record(Some(map[GLOBAL := map[]]))];
      }
      if SubscriptionsOf(pl[g]).None? {
        pl := pl[g := Record(Some(map[GLOBAL := map[]]))];
      }
      var subs := SubscriptionsOf(pl[g]).value;
      ghost var found := subs;
      if target !in subs {
        subs := subs[target := map[]];
      }
      if u in subs[target] && subs[target][u] == t {
        return AlreadySubscribed;
      }
      pl := pl[g := Record(Some(subs[target := subs[target][u := t]]))];
      assert pl == Subscribe(loaded, g, target, u, t) by {
        if g in loaded {
          assert loaded[g] == MigratedEntry(old(data)[g]);
          assert found == SubscriptionsOf(loaded[g]).value;
        } else {
          assert found == map[GLOBAL := map[]];
        }
        var targetSubs := if target in found then found[target] else map[];
        assert subs[target := subs[target][u := t]] == found[target := targetSubs[u := t]];
      }
      if saved {
        data := pl;
        r := Updated;
      } else {
        r := SaveFailed;
      }
    }

    /** `removePingSubscriber`: refuses when there is no such subscription;
        otherwise deletes it, prunes an emptied target and saves. */
    method RemovePingSubscriber(g: GuildId, u: UserId, target: Target, writeBackSaved: bool, saved: bool)
      returns (r: PingOutcome)
      modifies this
      ensures r == NotSubscribed <==> Lookup(MigrateAll(old(data)), g, target, u).None?
      ensures r != NotSubscribed ==> r == (if saved then Updated else SaveFailed)
      ensures data == if r == Updated then Unsubscribe(MigrateAll(old(data)), g, target, u)
                      else Loaded(old(data), writeBackSaved)
    {
      var pl := Load(writeBackSaved);
      if g !in pl || SubscriptionsOf(pl[g]).None? || target !in SubscriptionsOf(pl[g]).value {
        return NotSubscribed;
      }
      var subs := SubscriptionsOf(pl[g]).value;
      if u !in subs[target] {
        return NotSubscribed;
      }
      var remaining := subs[target] - {u};
      if remaining.Keys == {} {
        subs := subs - {target};
      } else {
        subs := subs[target := remaining];
      }
      pl := pl[g := Record(Some(subs))];
      if saved {
        data := pl;
        r := Updated;
      } else {
        r := SaveFailed;
      }
    }

    /** `getUsersToPing`. */
    method GetUsersToPing(g: GuildId, isRanked: bool, puuid: Puuid, writeBackSaved: bool) returns (users: set<UserId>)
      modifies this
      ensures data == Loaded(old(data), writeBackSaved)
      ensures forall u :: u in users <==>
                Fires(Lookup(MigrateAll(old(data)), g, puuid, u), isRanked)
                || Fires(Lookup(MigrateAll(old(data)), g, GLOBAL, u), isRanked)
    {
      var pl := Load(writeBackSaved);
      users := UsersToPing(pl, g, isRanked, puuid);
    }

    /** `getPingSubscribers`. */
    method GetPingSubscribers(g: GuildId, writeBackSaved: bool) returns (users: set<UserId>)
      modifies this
      ensures data == Loaded(old(data), writeBackSaved)
      ensures forall u :: u in users <==> exists target :: Lookup(MigrateAll(old(data)), g, target, u).Some?
    {
      var pl := Load(writeBackSaved);
      users := Subscribers(pl, g);
    }
  }
}
