/** The chats of a configuration of any version, and what numbering them and choosing a main chat among them means. */
module MigrationModel {
  import opened Options
  import opened Records
  import opened Sorting
  import opened ChatLayout

  /** An object that is a chat entry, or an array taken for one. */
  class ChatEntry {
    var id: IdValue
    var isMain: Option<bool>
    var name: string

    constructor (id: IdValue, isMain: Option<bool>, name: string)
      ensures this.id == id && this.isMain == isMain && this.name == name
    {
      this.id, this.isMain, this.name := id, isMain, name;
    }
  }

  /** A value of the top-level record: a list of entries, itself an object, or one entry under its jid. */
  datatype TopChat = ListOf(entries: seq<ChatEntry>, self: ChatEntry) | Single(entry: ChatEntry)

  type ChannelLists = Record<seq<ChatEntry>>
  type TopChats = Record<TopChat>

  function Flat<V>(r: Record<V>, f: V -> seq<ChatEntry>): seq<ChatEntry> {
    if r == [] then [] else f(r[0].1) + Flat(r[1..], f)
  }

  function All(entries: seq<ChatEntry>): seq<ChatEntry> { entries }

  function InLists(v: TopChat): seq<ChatEntry> {
    if v.ListOf? then v.entries else []
  }

  function ItselfOf(v: TopChat): seq<ChatEntry> {
    [if v.ListOf? then v.self else v.entry]
  }

  function ChatsOf(v: TopChat): seq<ChatEntry> {
    if v.ListOf? then v.entries else [v.entry]
  }

  function NodesOf(v: TopChat): seq<ChatEntry> {
    if v.ListOf? then v.entries + [v.self] else [v.entry]
  }

  predicate IsGrouped(chats: TopChats) {
    exists i | 0 <= i < |chats| :: chats[i].0 in CHANNEL_KEYS && chats[i].1.ListOf?
  }

  /** All chats, and all objects that the numbering may take for one. */
  function ChatsIn(channels: ChannelLists, chats: TopChats): seq<ChatEntry> {
    Flat(channels, All) + Flat(chats, ChatsOf)
  }

  function NodesIn(channels: ChannelLists, chats: TopChats): seq<ChatEntry> {
    Flat(channels, All) + Flat(chats, NodesOf)
  }

  /** The entries that the numbering visits, in its order: by channel name, then by key. */
  function Walked(channels: ChannelLists, chats: TopChats): seq<ChatEntry> {
    Flat(SortByKey(channels), All)
    + if IsGrouped(chats) then Flat(SortByKey(chats), InLists) else Flat(SortByKey(chats), ItselfOf)
  }

  /** The configuration is a tree: no object occurs twice. */
  ghost predicate IsTree(channels: ChannelLists, chats: TopChats) {
    Once(NodesIn(channels, chats))
  }

  ghost predicate Once(entries: seq<ChatEntry>) {
    forall e :: e in entries ==> multiset(entries)[e] == 1
  }

  /** Top-level chats all in lists, at least one of them a channel's, or all under their jids. */
  ghost predicate IsPure(chats: TopChats) {
    || (IsGrouped(chats) && forall i :: 0 <= i < |chats| ==> chats[i].1.ListOf?)
    || forall i :: 0 <= i < |chats| ==> chats[i].1.Single?
  }

  // ------------------------------------------------------------------ the walk

  lemma {:induction false} FlatInsert<V>(p: (string, V), r: Record<V>, f: V -> seq<ChatEntry>,
                                         le: ((string, V), (string, V)) -> bool)
    ensures multiset(Flat(Insert(p, r, le), f)) == multiset(f(p.1)) + multiset(Flat(r, f))
  {
    if r == [] || le(p, r[0]) {
      assert ([p] + r)[1..] == r;
    } else {
      FlatInsert(p, r[1..], f, le);
      var rest := Insert(p, r[1..], le);
      assert ([r[0]] + rest)[1..] == rest;
    }
  }

  /** Sorting by key changes the order of the entries only. */
  lemma {:induction false} FlatSort<V>(r: Record<V>, f: V -> seq<ChatEntry>, le: ((string, V), (string, V)) -> bool)
    ensures multiset(Flat(Sort(r, le), f)) == multiset(Flat(r, f))
  {
    if r == [] {
    } else {
      FlatSort(r[1..], f, le);
      FlatInsert(r[0], Sort(r[1..], le), f, le);
    }
  }

  lemma {:induction false} PartsOfNodes(chats: TopChats)
    ensures multiset(Flat(chats, InLists)) <= multiset(Flat(chats, NodesOf))
    ensures multiset(Flat(chats, ItselfOf)) <= multiset(Flat(chats, NodesOf))
  {
    if chats == [] {
    } else {
      PartsOfNodes(chats[1..]);
    }
  }

  lemma WalkedOnce(channels: ChannelLists, chats: TopChats)
    requires IsTree(channels, chats)
    ensures Once(Walked(channels, chats))
  {
    FlatSort(channels, All, ByKeyAtMost<seq<ChatEntry>>);
    FlatSort(chats, InLists, ByKeyAtMost<TopChat>);
    FlatSort(chats, ItselfOf, ByKeyAtMost<TopChat>);
    PartsOfNodes(chats);
    var nodes := NodesIn(channels, chats);
    var walked := Walked(channels, chats);
    hide Flat, Sort, IsGrouped;
    assert multiset(walked) <= multiset(nodes);
    forall e | e in walked ensures multiset(walked)[e] == 1 {
      assert e in multiset(walked);
      assert e in multiset(nodes);
      assert e in nodes;
    }
  }

  lemma {:induction false} PureParts(chats: TopChats)
    ensures (forall i :: 0 <= i < |chats| ==> chats[i].1.ListOf?) ==> Flat(chats, InLists) == Flat(chats, ChatsOf)
    ensures (forall i :: 0 <= i < |chats| ==> chats[i].1.Single?) ==> Flat(chats, ItselfOf) == Flat(chats, ChatsOf)
  {
    if chats == [] {
    } else {
      PureParts(chats[1..]);
    }
  }

  /** In a pure layout every chat is visited. */
  lemma PureWalksAll(channels: ChannelLists, chats: TopChats)
    requires IsPure(chats)
    ensures forall e :: e in ChatsIn(channels, chats) ==> e in Walked(channels, chats)
  {
    FlatSort(channels, All, ByKeyAtMost<seq<ChatEntry>>);
    FlatSort(chats, InLists, ByKeyAtMost<TopChat>);
    FlatSort(chats, ItselfOf, ByKeyAtMost<TopChat>);
    PureParts(chats);
    hide Flat, Sort;
    var all := ChatsIn(channels, chats);
    var walked := Walked(channels, chats);
    if IsGrouped(chats) && (forall i :: 0 <= i < |chats| ==> chats[i].1.Single?) {
      assert false;
    }
    assert multiset(all) == multiset(walked);
    forall e | e in all ensures e in walked {
      assert e in multiset(all);
    }
  }

  /** Dropping keys drops their chats and no others. */
  lemma {:induction false} ChatsLeft<V>(r: Record<V>, drop: string -> bool, f: V -> seq<ChatEntry>, e: ChatEntry)
    requires e in Flat(Without(r, drop), f)
    ensures e in Flat(r, f)
  {
    if r == [] {
    } else {
      if drop(r[0].0) {
        assert Without(r, drop) == Without(r[1..], drop);
        ChatsLeft(r[1..], drop, f, e);
      } else {
        assert Without(r, drop)[1..] == Without(r[1..], drop);
        if e !in f(r[0].1) {
          ChatsLeft(r[1..], drop, f, e);
        }
      }
    }
  }

  // ------------------------------------------------------------------ the keys that go

  predicate IsDigit(c: char) {
    '0' <= c <= '9'
  }

  /** /^tui:\d+$/ */
  predicate IsTuiConnection(key: string) {
    StartsWith(key, "tui:") && |key| > 4 && forall i | 4 <= i < |key| :: IsDigit(key[i])
  }

  predicate IsLegacy(key: string) {
    StartsWith(key, "tui:") || key == "other"
  }

  predicate IsTui(key: string) {
    key == "tui"
  }

  const DIGITS := "0123456789"

  lemma DigitsAre(c: char)
    ensures IsDigit(c) <==> c in DIGITS
  {
    if IsDigit(c) {
      assert DIGITS[c as int - '0' as int] == c;
    }
  }

  /** Which keys go: "other", and those that begin with "tui:"; of these, version 5 takes those that go on with a
      number. */
  lemma KeysThatGo(key: string)
    ensures IsLegacy(key) <==> key == "other" || exists rest :: key == "tui:" + rest
    ensures IsTuiConnection(key)
       <==> exists number :: number != "" && (forall c :: c in number ==> c in DIGITS) && key == "tui:" + number
    ensures IsTui(key) <==> key + ":" == "tui:"
  {
    forall c: char ensures IsDigit(c) <==> c in DIGITS {
      DigitsAre(c);
    }
    hide IsDigit, DIGITS;
    if StartsWith(key, "tui:") {
      assert key == "tui:" + key[4..];
    }
    assert key + ":" == "tui:" ==> key == "tui" by {
      assert (key + ":")[..|key|] == key;
    }
  }

  /** v5 adds and removes keys that v7 removes all the same. */
  lemma {:induction false} PutThenPurge(r: TopChats, key: string, value: TopChat)
    requires IsLegacy(key)
    ensures Without(Put(r, key, value), IsLegacy) == Without(r, IsLegacy)
  {
    if r == [] {
    } else if r[0].0 == key {
      assert Put(r, key, value)[1..] == r[1..];
    } else {
      PutThenPurge(r[1..], key, value);
      assert Put(r, key, value)[1..] == Put(r[1..], key, value);
    }
  }

  lemma {:induction false} DropThenPurge(r: TopChats, drop: string -> bool)
    requires forall key :: drop(key) ==> IsLegacy(key)
    ensures Without(Without(r, drop), IsLegacy) == Without(r, IsLegacy)
  {
    if r == [] {
    } else {
      DropThenPurge(r[1..], drop);
      if drop(r[0].0) {
        assert Without(r, drop) == Without(r[1..], drop);
      } else {
        assert Without(r, drop)[1..] == Without(r[1..], drop);
      }
    }
  }

  // ------------------------------------------------------------------ numbering

  function PositiveIds(ids: seq<IdValue>): set<int> {
    set id | id in ids && id.Number? && id.n > 0 :: id.n
  }

  /** Ids that are numbers stay; every other entry gets a positive one that no other entry has, in increasing order
      along the walk, and no smaller number is left unused. */
  ghost predicate IsNumbering(before: seq<IdValue>, after: seq<IdValue>) {
    && |after| == |before|
    && (forall i :: 0 <= i < |before| ==> after[i].Number?)
    && (forall i :: 0 <= i < |before| && before[i].Number? ==> after[i] == before[i])
    && (forall i :: 0 <= i < |before| && !before[i].Number? ==> after[i].n >= 1)
    && (forall i, j :: 0 <= i < |before| && 0 <= j < |before| && i != j && !before[i].Number? ==> after[i] != after[j])
    && (forall i, j :: 0 <= i < j < |before| && !before[i].Number? && !before[j].Number? ==> after[i].n < after[j].n)
    && (forall i, n :: 0 <= i < |before| && !before[i].Number? && 1 <= n < after[i].n ==> Number(n) in after)
  }

  /** How far the numbering has come: the first `done` entries have theirs; `used` holds the positive ids there were
      and those given, none of which is above `next`. */
  ghost predicate NumberedUpTo(before: seq<IdValue>, after: seq<IdValue>, done: nat, used: set<int>, next: int) {
    && |after| == |before| && done <= |before|
    && (forall i :: 0 <= i < |before| && (done <= i || before[i].Number?) ==> after[i] == before[i])
    && (forall i :: 0 <= i < done && !before[i].Number? ==>
          after[i].Number? && 1 <= after[i].n <= next && after[i].n in used && after[i].n !in PositiveIds(before))
    && (forall i, j :: 0 <= i < j < done && !before[i].Number? && !before[j].Number? ==> after[i].n < after[j].n)
    && PositiveIds(before) <= used
    && (forall n :: n in used && n !in PositiveIds(before) ==> Number(n) in after[..done])
  }

  lemma NumberedOneMore(before: seq<IdValue>, after: seq<IdValue>, done: nat, used: set<int>, next: int, n: int)
    requires NumberedUpTo(before, after, done, used, next)
    requires done < |before| && !before[done].Number?
    requires next <= n && 1 <= n && n !in used
    ensures NumberedUpTo(before, after[done := Number(n)], done + 1, used + {n}, n)
  {
    var after' := after[done := Number(n)];
    hide PositiveIds;
    assert after'[..done + 1] == after[..done] + [Number(n)];
  }

  lemma NumberedSkip(before: seq<IdValue>, after: seq<IdValue>, done: nat, used: set<int>, next: int)
    requires NumberedUpTo(before, after, done, used, next)
    requires done < |before| && before[done].Number?
    ensures NumberedUpTo(before, after, done + 1, used, next)
  {}

  /** Once all are done, with no gap below `next`, it is a numbering as required. */
  lemma NumberedAll(before: seq<IdValue>, after: seq<IdValue>, used: set<int>, next: int)
    requires NumberedUpTo(before, after, |before|, used, next)
    requires forall k :: 1 <= k < next ==> k in used
    ensures IsNumbering(before, after)
  {}

  // ------------------------------------------------------------------ one main chat

  predicate IsMain(isMain: Option<bool>) {
    isMain == Some(true)
  }

  /** a.id ?? 1e9 */
  function MainKey(id: IdValue): int {
    if id.Number? then id.n else 1000000000
  }

  /** `kept` is the first of the main chats with the least id, -1 if there is none. */
  ghost predicate IsFirstMain(ids: seq<IdValue>, mains: seq<Option<bool>>, kept: int) {
    && |ids| == |mains|
    && if kept == -1 then forall i :: 0 <= i < |mains| ==> !IsMain(mains[i])
       else
         && 0 <= kept < |mains| && IsMain(mains[kept])
         && forall i :: 0 <= i < |mains| && IsMain(mains[i]) ==>
              MainKey(ids[kept]) < MainKey(ids[i]) || (MainKey(ids[kept]) == MainKey(ids[i]) && kept <= i)
  }

  /** The kept main chat stays the only one; nothing else changes. */
  ghost predicate IsDeduped(ids: seq<IdValue>, before: seq<Option<bool>>, after: seq<Option<bool>>, kept: int) {
    && |after| == |before| && IsFirstMain(ids, before, kept)
    && (forall i :: 0 <= i < |before| && (!IsMain(before[i]) || i == kept) ==> after[i] == before[i])
    && (forall i :: 0 <= i < |before| && IsMain(before[i]) && i != kept ==> after[i] == None)
  }

  /** There is one numbering only. */
  lemma {:induction false} NumberingIsUnique(before: seq<IdValue>, a: seq<IdValue>, b: seq<IdValue>, upTo: nat)
    requires IsNumbering(before, a) && IsNumbering(before, b) && upTo <= |before|
    ensures a[..upTo] == b[..upTo]
  {
    if upTo == 0 {
    } else {
      var i := upTo - 1;
      NumberingIsUnique(before, a, b, i);
      if !before[i].Number? {
        NotSmaller(before, a, b, i);
        NotSmaller(before, b, a, i);
      }
      assert a[..upTo] == a[..i] + [a[i]] && b[..upTo] == b[..i] + [b[i]];
    }
  }

  /** A smaller number than b[i] is in use in b already: by an entry that has the same in both. */
  lemma NotSmaller(before: seq<IdValue>, a: seq<IdValue>, b: seq<IdValue>, i: nat)
    requires IsNumbering(before, a) && IsNumbering(before, b)
    requires i < |before| && !before[i].Number? && a[..i] == b[..i]
    ensures a[i].n >= b[i].n
  {
    assert forall j :: 0 <= j < i ==> a[..i][j] == a[j] && b[..i][j] == b[j];
    if Number(a[i].n) in b {
      var j :| 0 <= j < |b| && b[j] == Number(a[i].n);
      assert i <= j && !before[j].Number?;
    }
  }

  /** Which main chat is kept, told from the configuration before it is numbered. */
  ghost predicate IsKept(before: seq<IdValue>, mains: seq<Option<bool>>, kept: int) {
    exists ids :: IsNumbering(before, ids) && IsFirstMain(ids, mains, kept)
  }

  lemma KeptIsUnique(before: seq<IdValue>, mains: seq<Option<bool>>, kept: int, kept': int)
    requires IsKept(before, mains, kept) && IsKept(before, mains, kept')
    ensures kept == kept'
  {
    var a :| IsNumbering(before, a) && IsFirstMain(a, mains, kept);
    var b :| IsNumbering(before, b) && IsFirstMain(b, mains, kept');
    NumberingIsUnique(before, a, b, |before|);
    assert a == a[..|before|] && b == b[..|before|];
  }

  /** A main chat by its place in the walk, with what it is sorted by. */
  type Place = (int, nat)

  predicate ByMainKey(a: Place, b: Place) {
    a.0 <= b.0
  }

  ghost predicate InWalkOrder(places: seq<Place>) {
    forall i, j :: 0 <= i < j < |places| ==> places[i].1 < places[j].1
  }

  /** `places` are the main chats, in walk order. */
  ghost predicate ArePlaces(places: seq<Place>, ids: seq<IdValue>, mains: seq<Option<bool>>, upTo: nat) {
    && |ids| == |mains| && upTo <= |mains| && InWalkOrder(places)
    && (forall p :: p in places ==> p.1 < upTo && IsMain(mains[p.1]) && p.0 == MainKey(ids[p.1]))
    && (forall i :: 0 <= i < upTo && IsMain(mains[i]) ==> (MainKey(ids[i]), i) in places)
  }

  lemma {:induction false} FirstLeastIs(places: seq<Place>)
    requires places != [] && InWalkOrder(places)
    ensures var least := FirstLeast(places, ByMainKey);
            && least in places
            && forall p :: p in places ==> least.0 < p.0 || (least.0 == p.0 && least.1 <= p.1)
  {
    if |places| == 1 {
    } else {
      FirstLeastIs(places[1..]);
      assert forall p :: p in places <==> p == places[0] || p in places[1..];
    }
  }

  lemma {:induction false} EachPlaceOnce(places: seq<Place>)
    requires InWalkOrder(places)
    ensures forall p :: p in places ==> multiset(places)[p] == 1
  {
    if places == [] {
    } else {
      EachPlaceOnce(places[1..]);
      assert places == [places[0]] + places[1..];
      assert places[0] !in places[1..];
    }
  }

  /** Sorting puts the one to keep first; the others follow. */
  lemma SortedPlaces(places: seq<Place>)
    requires places != [] && InWalkOrder(places)
    ensures var sorted := Sort(places, ByMainKey);
            && sorted != [] && sorted[0] == FirstLeast(places, ByMainKey)
            && forall p :: p in sorted[1..] <==> p in places && p != sorted[0]
  {
    var sorted := Sort(places, ByMainKey);
    SortedHead(places, ByMainKey);
    SortIsPermutation(places, ByMainKey);
    EachPlaceOnce(places);
    hide Sort, InWalkOrder, FirstLeast;
    assert sorted == [sorted[0]] + sorted[1..];
    forall p ensures p in sorted[1..] <==> p in places && p != sorted[0] {
      assert multiset(places)[p] == multiset(sorted[1..])[p] + if p == sorted[0] then 1 else 0;
      assert p in sorted[1..] <==> multiset(sorted[1..])[p] > 0;
      assert p in places <==> multiset(places)[p] > 0;
    }
  }

  lemma DedupedAll(ids: seq<IdValue>, before: seq<Option<bool>>, after: seq<Option<bool>>, places: seq<Place>)
    requires ArePlaces(places, ids, before, |before|) && places != [] && |after| == |before|
    requires var kept := FirstLeast(places, ByMainKey);
             && (forall p :: p in places && p != kept ==> after[p.1] == None)
             && (forall i :: 0 <= i < |before| && (forall p :: p in places && p != kept ==> p.1 != i) ==>
                   after[i] == before[i])
    ensures IsDeduped(ids, before, after, FirstLeast(places, ByMainKey).1)
  {
    FirstLeastIs(places);
    var kept := FirstLeast(places, ByMainKey);
    hide FirstLeast;
    forall i | 0 <= i < |before| && IsMain(before[i]) && i != kept.1 ensures after[i] == None {
      assert (MainKey(ids[i]), i) in places && (MainKey(ids[i]), i) != kept;
    }
  }

  // ------------------------------------------------------------------ v0 to v1

  /** The flags that version 4 starts from: before version 1, listed top-level entries without one become main chats. */
  ghost function Filled(version: int, entries: seq<ChatEntry>, listed: seq<ChatEntry>, flags: seq<Option<bool>>)
    : (r: seq<Option<bool>>)
    requires |flags| == |entries|
    ensures |r| == |flags|
  {
    seq(|flags|, i requires 0 <= i < |flags| =>
      if version < 1 && entries[i] in listed && flags[i].None? then Some(true) else flags[i])
  }

  // ------------------------------------------------------------------ what the walk covers

  /** The chats of a pure layout that are left at the end were all visited. */
  lemma ChatsLeftWereWalked(channels: ChannelLists, chats: TopChats)
    requires IsPure(chats)
    ensures forall e :: e in ChatsLeftOf(channels, chats) ==> e in Walked(channels, chats)
  {
    PureWalksAll(channels, chats);
    hide Flat, Without, Walked;
    forall e | e in ChatsLeftOf(channels, chats) ensures e in Walked(channels, chats) {
      if e in Flat(Without(channels, IsTui), All) {
        ChatsLeft(channels, IsTui, All, e);
      } else {
        ChatsLeft(chats, IsLegacy, ChatsOf, e);
      }
    }
  }

  /** The entries that are not among those visited. */
  ghost function Unvisited(entries: seq<ChatEntry>, walked: seq<ChatEntry>): seq<ChatEntry> {
    if entries == [] then []
    else (if entries[0] in walked then [] else [entries[0]]) + Unvisited(entries[1..], walked)
  }

  lemma {:induction false} UnvisitedIs(entries: seq<ChatEntry>, walked: seq<ChatEntry>, e: ChatEntry)
    ensures e in Unvisited(entries, walked) <==> e in entries && e !in walked
  {
    if entries == [] {
    } else {
      UnvisitedIs(entries[1..], walked, e);
    }
  }

  /** The chats that the last version has left. */
  function ChatsLeftOf(channels: ChannelLists, chats: TopChats): seq<ChatEntry> {
    ChatsIn(Without(channels, IsTui), Without(chats, IsLegacy))
  }

  /** Told before the migration from keys, ids and flags: of the chats that will be left and are not visited, at most
      one is a main chat, and none is if the one kept among those visited will be left. */
  ghost predicate AtMostOneSpared(left: seq<ChatEntry>, walked: seq<ChatEntry>, flags: seq<Option<bool>>, kept: int)
    requires |flags| == |Unvisited(left, walked)|
  {
    var rest := Unvisited(left, walked);
    && (forall i, j :: 0 <= i < |rest| && 0 <= j < |rest| ==>
          IsMain(flags[i]) && IsMain(flags[j]) ==> rest[i] == rest[j])
    && (0 <= kept < |walked| && walked[kept] in left ==> forall i :: 0 <= i < |rest| ==> !IsMain(flags[i]))
  }
}
