/** Bringing the chats of an older configuration up to date, as the source does it: version by version, in place. */
module Migration {
  import opened Options
  import opened Records
  import Sorting
  import opened ChatLayout
  import opened MigrationModel

  const CURRENT_CONFIG_VERSION := 9

  ghost function Ids(entries: seq<ChatEntry>): (ids: seq<IdValue>)
    reads entries
    ensures |ids| == |entries| && forall i :: 0 <= i < |entries| ==> ids[i] == entries[i].id
  {
    seq(|entries|, i requires 0 <= i < |entries| reads entries => entries[i].id)
  }

  ghost function Mains(entries: seq<ChatEntry>): (mains: seq<Option<bool>>)
    reads entries
    ensures |mains| == |entries| && forall i :: 0 <= i < |entries| ==> mains[i] == entries[i].isMain
  {
    seq(|entries|, i requires 0 <= i < |entries| reads entries => entries[i].isMain)
  }

  lemma OnceApart(walked: seq<ChatEntry>)
    requires Once(walked)
    ensures forall i, j :: 0 <= i < j < |walked| ==> walked[i] != walked[j]
  {
    forall i, j | 0 <= i < j < |walked| ensures walked[i] != walked[j] {
      var (a, b) := (walked[..j], walked[j..]);
      assert walked == a + b && a[i] == walked[i] && b[0] == walked[j];
      assert multiset(walked) == multiset(a) + multiset(b);
      assert walked[i] in multiset(a) && walked[j] in multiset(b);
      assert walked[i] in walked;
    }
  }

  // ------------------------------------------------------------------ v3 to v4: ids

  class IdAllocator {
    var used: set<int>
    var next: int

    /** Every positive number below `next` is taken. */
    ghost predicate Valid()
      reads this
    {
      next >= 1 && forall k :: 1 <= k < next ==> k in used
    }

    constructor (used: set<int>)
      ensures Valid() && this.used == used && next == 1
    {
      this.used, next := used, 1;
    }

    /** The smallest number from `next` on that is not taken, now taken. */
    method NextFree() returns (n: int)
      requires Valid()
      modifies this
      ensures Valid() && n == next && n !in old(used) && used == old(used) + {n}
      ensures old(next) <= n && forall k :: 1 <= k < n ==> k in old(used)
    {
      while next in used
        invariant Valid() && used == old(used) && old(next) <= next
        decreases |set k | k in used && k >= next|
      {
        ghost var left := set k | k in used && k >= next;
        ghost var fewer := set k | k in used && k >= next + 1;
        assert left == fewer + {next};
        next := next + 1;
      }
      used := used + {next};
      return next;
    }
  }

  method UsedIds(walked: seq<ChatEntry>) returns (used: set<int>)
    ensures used == PositiveIds(Ids(walked))
  {
    used := {};
    for i := 0 to |walked|
      invariant used == PositiveIds(Ids(walked)[..i])
    {
      assert Ids(walked)[..i + 1] == Ids(walked)[..i] + [walked[i].id];
      if walked[i].id.Number? && walked[i].id.n > 0 {
        used := used + {walked[i].id.n};
      }
    }
    assert Ids(walked)[..|walked|] == Ids(walked);
  }

  /** One round of the loop. */
  method NumberEntry(walked: seq<ChatEntry>, i: nat, ids: IdAllocator, ghost before: seq<IdValue>)
    requires i < |walked| && (forall j, k :: 0 <= j < k < |walked| ==> walked[j] != walked[k])
    requires ids.Valid() && NumberedUpTo(before, Ids(walked), i, ids.used, ids.next)
    modifies walked`id, ids
    ensures ids.Valid() && NumberedUpTo(before, Ids(walked), i + 1, ids.used, ids.next)
  {
    ghost var now := Ids(walked);
    UntouchedYet(before, now, i, ids.used, ids.next);
    hide NumberedUpTo, PositiveIds, Ids;
    if walked[i].id.Number? {
      NumberedSkip(before, now, i, ids.used, ids.next);
    } else {
      ghost var (used, next) := (ids.used, ids.next);
      var n := ids.NextFree();
      NumberedOneMore(before, now, i, used, next, n);
      assert walked[i] in walked;
      walked[i].id := Number(n);
      assert Ids(walked) == now[i := Number(n)];
    }
  }

  method AssignIds(walked: seq<ChatEntry>)
    requires Once(walked)
    modifies walked`id
    ensures IsNumbering(old(Ids(walked)), Ids(walked))
  {
    OnceApart(walked);
    var used := UsedIds(walked);
    var ids := new IdAllocator(used);
    ghost var before := Ids(walked);
    NumberedNone(before, used);
    hide *;
    for i := 0 to |walked|
      invariant ids.Valid() && fresh(ids)
      invariant NumberedUpTo(before, Ids(walked), i, ids.used, ids.next)
    {
      NumberEntry(walked, i, ids, before);
    }
    NoGaps(ids);
    NumberedAll(before, Ids(walked), ids.used, ids.next);
  }

  lemma NoGaps(ids: IdAllocator)
    requires ids.Valid()
    ensures forall k :: 1 <= k < ids.next ==> k in ids.used
  {}

  lemma NumberedNone(before: seq<IdValue>, used: set<int>)
    requires used == PositiveIds(before)
    ensures NumberedUpTo(before, before, 0, used, 1)
  {}

  lemma UntouchedYet(before: seq<IdValue>, now: seq<IdValue>, done: nat, used: set<int>, next: int)
    requires NumberedUpTo(before, now, done, used, next) && done < |before|
    ensures |now| == |before| && now[done] == before[done]
  {}

  // ------------------------------------------------------------------ v3 to v4: one main

  method FindMains(walked: seq<ChatEntry>) returns (places: seq<Place>)
    ensures ArePlaces(places, Ids(walked), Mains(walked), |walked|)
  {
    places := [];
    for i := 0 to |walked|
      invariant ArePlaces(places, Ids(walked), Mains(walked), i)
    {
      var e := walked[i];
      if e.isMain == Some(true) {
        places := places + [(MainKey(e.id), i)];
      }
    }
  }

  method DedupeMains(walked: seq<ChatEntry>) returns (ghost kept: int)
    requires Once(walked)
    modifies walked`isMain
    ensures IsDeduped(Ids(walked), old(Mains(walked)), Mains(walked), kept)
  {
    hide *;
    ghost var (ids, before) := (Ids(walked), Mains(walked));
    var places := FindMains(walked);
    if |places| == 0 {
      NothingToDedupe(ids, before, places);
      return -1;
    }
    kept := Sorting.FirstLeast(places, ByMainKey).1;
    if |places| > 1 {
      KeepFirst(walked, places);
    } else {
      OneToKeep(places);
    }
    DedupedAll(ids, before, Mains(walked), places);
  }

  lemma NothingToDedupe(ids: seq<IdValue>, mains: seq<Option<bool>>, places: seq<Place>)
    requires ArePlaces(places, ids, mains, |mains|) && places == []
    ensures IsDeduped(ids, mains, mains, -1)
  {}

  lemma OneToKeep(places: seq<Place>)
    requires |places| == 1
    ensures forall p :: p in places ==> p == Sorting.FirstLeast(places, ByMainKey)
  {}

  method KeepFirst(walked: seq<ChatEntry>, places: seq<Place>)
    requires Once(walked) && places != [] && ArePlaces(places, Ids(walked), Mains(walked), |walked|)
    modifies walked`isMain
    ensures var kept := Sorting.FirstLeast(places, ByMainKey);
            && (forall p :: p in places && p != kept ==> Mains(walked)[p.1] == None)
            && (forall i :: 0 <= i < |walked| && (forall p :: p in places && p != kept ==> p.1 != i) ==>
                  Mains(walked)[i] == old(Mains(walked)[i]))
    ensures Ids(walked) == old(Ids(walked))
  {
    OnceApart(walked);
    SortedPlaces(places);
    var sorted := Sorting.Sort(places, ByMainKey);
    FirstLeastIs(places);
    hide Sorting.Sort, Sorting.FirstLeast, Once, Ids, Mains;
    assert forall p :: p in sorted ==> p == sorted[0] || p in sorted[1..];
    ClearOthers(walked, sorted, places);
  }

  /** All but the first lose their flag. */
  method ClearOthers(walked: seq<ChatEntry>, sorted: seq<Place>, ghost places: seq<Place>)
    requires forall j, k :: 0 <= j < k < |walked| ==> walked[j] != walked[k]
    requires sorted != [] && forall p :: p in sorted ==> p.1 < |walked|
    requires forall p :: p in sorted[1..] <==> p in places && p != sorted[0]
    modifies walked`isMain
    ensures forall p :: p in places && p != sorted[0] ==> Mains(walked)[p.1] == None
    ensures forall i :: 0 <= i < |walked| && (forall p :: p in places && p != sorted[0] ==> p.1 != i) ==>
              Mains(walked)[i] == old(Mains(walked)[i])
  {
    hide Mains;
    for i := 1 to |sorted|
      invariant forall k :: 1 <= k < i ==> walked[sorted[k].1].isMain == None
      invariant forall j :: 0 <= j < |walked| && (forall k :: 1 <= k < i ==> sorted[k].1 != j) ==>
                  walked[j].isMain == old(walked[j].isMain)
    {
      assert walked[sorted[i].1] in walked;
      walked[sorted[i].1].isMain := None;
    }
    forall p | p in places && p != sorted[0] ensures walked[p.1].isMain == None {
      assert p in sorted[1..];
    }
    forall k | 1 <= k < |sorted| ensures sorted[k] in places && sorted[k] != sorted[0] {
      assert sorted[1..][k - 1] == sorted[k];
    }
  }

  // ------------------------------------------------------------------ the whole chain

  predicate IsFirstConnection(chats: TopChats, i: int) {
    && 0 <= i < |chats| && IsTuiConnection(chats[i].0)
    && forall j :: 0 <= j < i ==> !IsTuiConnection(chats[j].0)
  }

  /** The `id` property: a list has none. */
  function IdOf(v: TopChat): IdValue
    reads if v.Single? then {v.entry} else {}
  {
    match v
    case Single(e) => e.id
    case ListOf(_, _) => NoId
  }

  class ConfigFile {
    var configVersion: int
    /** The chat lists of the channels. */
    var channels: ChannelLists
    /** The top-level `chats`, empty when there are none. */
    var chats: TopChats

    constructor (configVersion: int, channels: ChannelLists, chats: TopChats)
      ensures this.configVersion == configVersion && this.channels == channels && this.chats == chats
    {
      this.configVersion, this.channels, this.chats := configVersion, channels, chats;
    }

    /** v0 to v1: chats in top-level lists are main chats unless they say otherwise. */
    method MarkListedMain(ghost walked: seq<ChatEntry>, ghost rest: seq<ChatEntry>)
      modifies Flat(chats, InLists)`isMain
      ensures Mains(walked) == Filled(0, walked, Flat(chats, InLists), old(Mains(walked)))
      ensures Mains(rest) == Filled(0, rest, Flat(chats, InLists), old(Mains(rest)))
    {
      var listed := Flat(chats, InLists);
      for i := 0 to |listed|
        invariant forall e: ChatEntry | allocated(e) && old(allocated(e)) ::
                    e.isMain == if e in listed[..i] && old(e.isMain).None? then Some(true) else old(e.isMain)
      {
        assert listed[..i + 1] == listed[..i] + [listed[i]];
        assert listed[i] in listed;
        if listed[i].isMain.None? {
          listed[i].isMain := Some(true);
        }
      }
      assert listed[..|listed|] == listed;
    }

    /** v4 to v5: numbered terminal chats make way for one default, a main chat with the id of the first of them. */
    method ConsolidateTui() returns (ghost made: ChatEntry?)
      modifies this`chats
      ensures if forall i :: 0 <= i < |old(chats)| ==> !IsTuiConnection(old(chats)[i].0) then chats == old(chats)
              else if HasKey(old(chats), "tui:default") then chats == Without(old(chats), IsTuiConnection)
              else
                && made != null && fresh(made) && made.isMain == Some(true) && made.name == "tui"
                && (exists i :: IsFirstConnection(old(chats), i) && made.id == old(IdOf(chats[i].1)))
                && chats == Without(Put(old(chats), "tui:default", Single(made)), IsTuiConnection)
      ensures Without(chats, IsLegacy) == Without(old(chats), IsLegacy)
    {
      made := null;
      var first := 0;
      while first < |chats| && !IsTuiConnection(chats[first].0)
        invariant 0 <= first <= |chats| && forall i :: 0 <= i < first ==> !IsTuiConnection(chats[i].0)
      {
        first := first + 1;
      }
      if first == |chats| { return; }
      if !HasKey(chats, "tui:default") {
        assert IsFirstConnection(chats, first);
        var entry := new ChatEntry(IdOf(chats[first].1), Some(true), "tui");
        made := entry;
        PutThenPurge(chats, "tui:default", Single(entry));
        chats := Put(chats, "tui:default", Single(entry));
      }
      DropThenPurge(chats, IsTuiConnection);
      chats := Without(chats, IsTuiConnection);
    }

    /** v3 to v4: numbers for all, one main chat. */
    method NumberChats(walked: seq<ChatEntry>) returns (ghost kept: int)
      requires walked == Walked(channels, chats) && IsTree(channels, chats)
      modifies walked`id, walked`isMain
      ensures IsNumbering(old(Ids(walked)), Ids(walked))
      ensures IsDeduped(Ids(walked), old(Mains(walked)), Mains(walked), kept)
    {
      WalkedOnce(channels, chats);
      hide *;
      AssignIds(walked);
      ghost var ids := Ids(walked);
      assert Mains(walked) == old(Mains(walked));
      kept := DedupeMains(walked);
      assert Ids(walked) == ids;
    }

    /** Up to version 4: flags filled in, numbers, one main chat. Entries `rest` that are not visited keep what they
        have, but for the flags filled in. */
    method BringToVersion4(version: int, ghost walked: seq<ChatEntry>, ghost rest: seq<ChatEntry>)
      returns (ghost kept: int)
      requires IsTree(channels, chats) && walked == Walked(channels, chats) && version < 4
      requires forall e :: e in rest ==> e !in walked
      modifies walked`id, walked`isMain, Flat(chats, InLists)`isMain
      ensures IsNumbering(old(Ids(walked)), Ids(walked))
      ensures var flags := Filled(version, walked, Flat(chats, InLists), old(Mains(walked)));
              IsDeduped(Ids(walked), flags, Mains(walked), kept)
      ensures Ids(rest) == old(Ids(rest))
      ensures Mains(rest) == Filled(version, rest, Flat(chats, InLists), old(Mains(rest)))
    {
      hide *;
      ghost var listed := Flat(chats, InLists);
      if version < 1 {
        MarkListedMain(walked, rest);
        assert Ids(walked) == old(Ids(walked));
        SameFilling(version, walked, listed, old(Mains(walked)));
        SameFilling(version, rest, listed, old(Mains(rest)));
      } else {
        NothingFilled(version, walked, listed, Mains(walked));
        NothingFilled(version, rest, listed, Mains(rest));
      }
      ghost var (flags, spared) := (Mains(walked), Mains(rest));
      kept := NumberChats(Walked(channels, chats));
      assert forall i :: 0 <= i < |rest| ==> rest[i] !in walked;
      assert Ids(rest) == old(Ids(rest));
      assert Mains(rest) == spared;
    }

    /** All versions' changes to the chats, from the version found to the current one. */
    method MigrateConfig(ghost rest: seq<ChatEntry>)
      returns (migrated: bool, ghost walked: seq<ChatEntry>, ghost kept: int)
      requires IsTree(channels, chats)
      requires forall e :: e in rest ==> e !in Walked(channels, chats)
      modifies this, Walked(channels, chats), Flat(chats, InLists)`isMain
      ensures migrated == (old(configVersion) < CURRENT_CONFIG_VERSION)
      ensures configVersion == if migrated then CURRENT_CONFIG_VERSION else old(configVersion)
      ensures !migrated ==> channels == old(channels) && chats == old(chats)
      ensures old(configVersion) < 7 ==> chats == Without(old(chats), IsLegacy)
      ensures migrated ==> channels == Without(old(channels), IsTui)
      // The numbering, and the choice of the main chat.
      ensures walked == Walked(old(channels), old(chats))
      ensures var flags := Filled(old(configVersion), walked, Flat(old(chats), InLists), old(Mains(walked)));
              old(configVersion) < 4 ==>
                && IsNumbering(old(Ids(walked)), Ids(walked))
                && IsDeduped(Ids(walked), flags, Mains(walked), kept)
      // Entries that are not visited, and from version 4 on all entries, are left alone but for the filling in.
      ensures Ids(rest) == old(Ids(rest))
      ensures Mains(rest) == Filled(old(configVersion), rest, Flat(old(chats), InLists), old(Mains(rest)))
      ensures old(configVersion) >= 4 ==> Ids(walked) == old(Ids(walked)) && Mains(walked) == old(Mains(walked))
    {
      hide IsNumbering, IsDeduped, Filled, Walked, Flat, Without, IsTree, Ids, Mains;
      var version := configVersion;
      walked, kept := Walked(channels, chats), -1;
      NothingFilled(version, rest, Flat(chats, InLists), Mains(rest));
      migrated := version < CURRENT_CONFIG_VERSION;
      if !migrated { return; }
      if version < 4 {
        kept := BringToVersion4(version, walked, rest);
      }
      ghost var (ids, mains, spared) := (Ids(walked), Mains(walked), Mains(rest));
      Upgrade(version);
      assert Ids(walked) == ids;
      assert Mains(walked) == mains;
      assert Mains(rest) == spared;
    }

    /** The keys that later versions drop. */
    method Upgrade(version: int)
      modifies this
      ensures configVersion == CURRENT_CONFIG_VERSION
      ensures channels == Without(old(channels), IsTui)
      ensures version < 7 ==> chats == Without(old(chats), IsLegacy)
      ensures version >= 7 ==> chats == old(chats)
    {
      hide *;
      if version < 5 {
        ghost var made := ConsolidateTui();
      }
      if version < 7 { chats := Without(chats, IsLegacy); }
      channels := Without(channels, IsTui);
      configVersion := CURRENT_CONFIG_VERSION;
    }
  }

  lemma NothingFilled(version: int, entries: seq<ChatEntry>, listed: seq<ChatEntry>, flags: seq<Option<bool>>)
    requires |flags| == |entries|
    ensures version >= 1 ==> Filled(version, entries, listed, flags) == flags
  {}

  lemma SameFilling(version: int, entries: seq<ChatEntry>, listed: seq<ChatEntry>, flags: seq<Option<bool>>)
    requires |flags| == |entries| && version < 1
    ensures Filled(version, entries, listed, flags) == Filled(0, entries, listed, flags)
  {}

  ghost predicate AtMostOneMain(entries: seq<ChatEntry>)
    reads entries
  {
    forall d, e :: d in entries && e in entries && IsMain(d.isMain) && IsMain(e.isMain) ==> d == e
  }

  /** The main chats left: the kept one, if it is left, and those that were not visited. */
  lemma MainsLeft(walked: seq<ChatEntry>, left: seq<ChatEntry>, mains: seq<Option<bool>>, kept: int, e: ChatEntry)
    requires IsDeduped(Ids(walked), mains, Mains(walked), kept)
    ensures e in left && IsMain(e.isMain) <==>
            || (0 <= kept < |walked| && e == walked[kept] && e in left)
            || (e in Unvisited(left, walked) && IsMain(e.isMain))
  {
    UnvisitedIs(left, walked, e);
    assert 0 <= kept < |walked| ==> IsMain(Mains(walked)[kept]);
    if e in walked {
      var i :| 0 <= i < |walked| && walked[i] == e;
      assert Mains(walked)[i] == e.isMain;
    }
  }

  lemma OneMainLeftExactly(walked: seq<ChatEntry>, left: seq<ChatEntry>, mains: seq<Option<bool>>, kept: int)
    requires IsDeduped(Ids(walked), mains, Mains(walked), kept)
    ensures AtMostOneMain(left) <==> AtMostOneSpared(left, walked, Mains(Unvisited(left, walked)), kept)
  {
    var rest := Unvisited(left, walked);
    forall e | e in left || e in rest
      ensures e in left && IsMain(e.isMain) <==>
              (0 <= kept < |walked| && e == walked[kept] && e in left) || (e in rest && IsMain(e.isMain))
    {
      MainsLeft(walked, left, mains, kept, e);
    }
    forall e | e in rest ensures e in left && e !in walked {
      UnvisitedIs(left, walked, e);
    }
    OneMainOf(walked, left, rest, kept);
  }

  lemma OneMainOf(walked: seq<ChatEntry>, left: seq<ChatEntry>, rest: seq<ChatEntry>, kept: int)
    requires forall e :: e in rest ==> e in left && e !in walked
    requires forall e :: e in left || e in rest ==>
               (e in left && IsMain(e.isMain) <==>
                (0 <= kept < |walked| && e == walked[kept] && e in left) || (e in rest && IsMain(e.isMain)))
    ensures AtMostOneMain(left) <==>
            && (forall i, j :: 0 <= i < |rest| && 0 <= j < |rest| ==>
                  IsMain(Mains(rest)[i]) && IsMain(Mains(rest)[j]) ==> rest[i] == rest[j])
            && (0 <= kept < |walked| && walked[kept] in left ==>
                  forall i :: 0 <= i < |rest| ==> !IsMain(Mains(rest)[i]))
  {
    assert forall i :: 0 <= i < |rest| ==> rest[i] in rest && Mains(rest)[i] == rest[i].isMain;
    assert 0 <= kept < |walked| ==> walked[kept] in walked;
  }

  /** From any version before 4, whatever the layout: at most one main chat is left if and only if, of the chats that
      are left and not visited, at most one is a main chat, and none when the kept one is left too. The condition is
      about the configuration as it is found, and determines which one is kept. */
  method MigrateToOneMainExactly(config: ConfigFile) returns (ghost kept: int)
    requires config.configVersion < 4 && IsTree(config.channels, config.chats)
    modifies config, Walked(config.channels, config.chats), Flat(config.chats, InLists)`isMain
    ensures config.configVersion == CURRENT_CONFIG_VERSION
    ensures ChatsIn(config.channels, config.chats) == ChatsLeftOf(old(config.channels), old(config.chats))
    ensures var (walked, listed) := (Walked(old(config.channels), old(config.chats)), Flat(old(config.chats), InLists));
            IsKept(old(Ids(walked)), Filled(old(config.configVersion), walked, listed, old(Mains(walked))), kept)
    ensures var (walked, listed) := (Walked(old(config.channels), old(config.chats)), Flat(old(config.chats), InLists));
            var left := ChatsLeftOf(old(config.channels), old(config.chats));
            var rest := Unvisited(left, walked);
            AtMostOneMain(left)
            <==> AtMostOneSpared(left, walked, Filled(old(config.configVersion), rest, listed, old(Mains(rest))), kept)
  {
    ghost var left := ChatsLeftOf(config.channels, config.chats);
    ghost var rest := Unvisited(left, Walked(config.channels, config.chats));
    ghost var listed := Flat(config.chats, InLists);
    forall e | e in rest ensures e !in Walked(config.channels, config.chats) {
      UnvisitedIs(left, Walked(config.channels, config.chats), e);
    }
    hide IsNumbering, IsDeduped, Filled, Walked, Flat, Without, IsTree, Ids, Mains, AtMostOneMain, AtMostOneSpared,
      IsKept, Unvisited;
    ghost var walked;
    var migrated;
    migrated, walked, kept := config.MigrateConfig(rest);
    ghost var mains := Filled(old(config.configVersion), walked, listed, old(Mains(walked)));
    KeptKnown(old(Ids(walked)), Ids(walked), mains, Mains(walked), kept);
    OneMainLeftExactly(walked, left, mains, kept);
  }

  lemma KeptKnown(before: seq<IdValue>, ids: seq<IdValue>, mains: seq<Option<bool>>, after: seq<Option<bool>>,
                  kept: int)
    requires IsNumbering(before, ids) && IsDeduped(ids, mains, after, kept)
    ensures IsKept(before, mains, kept)
  {}

  /** From any version before 4, with the top-level chats all in lists or all under their jids: every chat left ends up
      with a number, those that had none with one that no other visited entry has, and at most one is a main chat,
      although version 5 makes one. */
  method MigratePureLayout(config: ConfigFile)
    requires config.configVersion < 4 && IsTree(config.channels, config.chats) && IsPure(config.chats)
    modifies config, Walked(config.channels, config.chats), Flat(config.chats, InLists)`isMain
    ensures config.configVersion == CURRENT_CONFIG_VERSION
    ensures var left := ChatsIn(config.channels, config.chats);
            && AtMostOneMain(left)
            && forall e :: e in left ==> e in Walked(old(config.channels), old(config.chats))
    ensures var walked := Walked(old(config.channels), old(config.chats));
            IsNumbering(old(Ids(walked)), Ids(walked))
  {
    ChatsLeftWereWalked(config.channels, config.chats);
    ghost var left := ChatsLeftOf(config.channels, config.chats);
    hide IsNumbering, IsDeduped, Filled, Walked, Flat, Without, IsTree, Ids, Mains, AtMostOneMain;
    ghost var walked, kept;
    var migrated;
    migrated, walked, kept := config.MigrateConfig([]);
    ghost var listed := Flat(old(config.chats), InLists);
    OneMainLeft(walked, left, Filled(old(config.configVersion), walked, listed, old(Mains(walked))), kept);
  }

  lemma OneMainLeft(walked: seq<ChatEntry>, left: seq<ChatEntry>, mains: seq<Option<bool>>, kept: int)
    requires IsDeduped(Ids(walked), mains, Mains(walked), kept)
    requires forall e :: e in left ==> e in walked
    ensures AtMostOneMain(left)
  {
    OneMainLeftExactly(walked, left, mains, kept);
    if Unvisited(left, walked) != [] {
      UnvisitedIs(left, walked, Unvisited(left, walked)[0]);
    }
  }

  /** A main chat under its jid beside a channel's list is not visited: two main chats are left. */
  method MixedLayoutKeepsTwoMains() returns (config: ConfigFile)
    ensures config.configVersion == CURRENT_CONFIG_VERSION
    ensures !AtMostOneMain(ChatsIn(config.channels, config.chats))
  {
    var listed := new ChatEntry(Number(1), Some(true), "listed");
    var loose := new ChatEntry(Number(2), Some(true), "loose");
    var list := new ChatEntry(NoId, None, "");
    var chats: TopChats := [("telegram", ListOf([listed], list)), ("tg:2", Single(loose))];
    config := new ConfigFile(1, [], chats);
    MixedTree(chats, listed, loose, list);
    MixedWalk(chats, listed, loose, list);
    MixedKeys(chats);
    OneFlag(listed);
    OneFlag(loose);
    hide *;
    NothingFilled(1, [listed], Flat(chats, InLists), Mains([listed]));
    NothingFilled(1, [loose], Flat(chats, InLists), Mains([loose]));
    ghost var flags := Mains([listed]);
    ghost var walked, kept;
    var migrated;
    migrated, walked, kept := config.MigrateConfig([loose]);
    TwoMains(listed, loose, config.channels, config.chats, flags, kept);
  }

  lemma OneFlag(e: ChatEntry)
    ensures Mains([e]) == [e.isMain]
  {}

  lemma TwoMains(listed: ChatEntry, loose: ChatEntry, channels: ChannelLists, chats: TopChats,
                 mains: seq<Option<bool>>, kept: int)
    requires channels == Without([], IsTui) && ChatsIn(channels, chats) == [listed, loose] && listed != loose
    requires IsDeduped(Ids([listed]), mains, Mains([listed]), kept) && mains == [Some(true)]
    requires Mains([loose]) == [Some(true)]
    ensures !AtMostOneMain(ChatsIn(channels, chats))
  {
    assert Mains([listed])[0] == listed.isMain && Mains([loose])[0] == loose.isMain;
    assert mains[0] == Some(true);
    var left := ChatsIn(channels, chats);
    assert left[0] == listed && left[1] == loose;
  }

  lemma FlatTwo(a: (string, TopChat), b: (string, TopChat), f: TopChat -> seq<ChatEntry>)
    ensures Flat([a, b], f) == f(a.1) + f(b.1)
  {
    assert [a, b][1..] == [b] && [b][1..] == [];
    assert Flat([b], f) == f(b.1) + Flat([], f);
  }

  lemma SortTwo(a: (string, TopChat), b: (string, TopChat))
    requires AtMost(a.0, b.0)
    ensures SortByKey([a, b]) == [a, b]
  {
    assert [a, b][1..] == [b] && [b][1..] == [];
    assert Sorting.Sort([b], ByKeyAtMost<TopChat>) == [b];
  }

  lemma WithoutTwo(a: (string, TopChat), b: (string, TopChat), drop: string -> bool)
    requires !drop(a.0) && !drop(b.0)
    ensures Without([a, b], drop) == [a, b]
  {
    assert [a, b][1..] == [b] && [b][1..] == [];
    assert Without([b], drop) == [b];
  }

  lemma MixedKeys(chats: TopChats)
    requires |chats| == 2 && chats[0].0 == "telegram" && chats[1].0 == "tg:2"
    ensures SortByKey(chats) == chats && Without(chats, IsLegacy) == chats
  {
    var (a, b) := (chats[0], chats[1]);
    assert chats == [a, b];
    assert a.0[1] == 'e' && b.0[1] == 'g';
    assert AtMost(a.0, b.0) by { assert AtMost(a.0[1..], b.0[1..]); }
    SortTwo(a, b);
    WithoutTwo(a, b, IsLegacy);
  }

  lemma MixedTree(chats: TopChats, listed: ChatEntry, loose: ChatEntry, list: ChatEntry)
    requires listed != loose && listed != list && loose != list
    requires chats == [("telegram", ListOf([listed], list)), ("tg:2", Single(loose))]
    ensures IsTree([], chats)
  {
    FlatTwo(chats[0], chats[1], NodesOf);
    hide Flat;
    assert Flat(chats, NodesOf) == [listed, list, loose];
    EmptyFlat();
    assert NodesIn([], chats) == [listed, list, loose];
  }

  lemma EmptyFlat()
    ensures Flat<seq<ChatEntry>>([], All) == []
    ensures Without<seq<ChatEntry>>([], IsTui) == [] && SortByKey<seq<ChatEntry>>([]) == []
  {}

  lemma MixedWalk(chats: TopChats, listed: ChatEntry, loose: ChatEntry, list: ChatEntry)
    requires chats == [("telegram", ListOf([listed], list)), ("tg:2", Single(loose))]
    ensures Walked([], chats) == [listed] && Flat(chats, InLists) == [listed]
    ensures ChatsIn(Without([], IsTui), chats) == [listed, loose]
  {
    FlatTwo(chats[0], chats[1], InLists);
    FlatTwo(chats[0], chats[1], ChatsOf);
    MixedKeys(chats);
    EmptyFlat();
    assert MigrationModel.IsGrouped(chats) by { assert chats[0].0 in CHANNEL_KEYS && chats[0].1.ListOf?; }
    hide Flat, SortByKey, Without;
    assert Flat(chats, InLists) == [listed] + [];
    assert Flat(chats, ChatsOf) == [listed] + [loose];
  }
}
