/** Reading and writing the chats of the configuration, as the source does it: in loops that fill records in place. */
module ConfigChats {
  import opened Options
  import opened Records
  import Sorting
  import opened ChatLayout

  class ChannelDef {
    const name: string
    var chats: Option<seq<Entry>>

    constructor (name: string, chats: Option<seq<Entry>>)
      ensures this.name == name && this.chats == chats
    {
      this.name, this.chats := name, chats;
    }

    ghost function Value(): Channel
      reads this
    {
      Channel(name, chats)
    }
  }

  ghost function Values(defs: seq<ChannelDef>): (r: seq<Channel>)
    reads defs
    ensures |r| == |defs| && forall i :: 0 <= i < |defs| ==> r[i] == defs[i].Value()
  {
    seq(|defs|, i requires 0 <= i < |defs| reads defs => defs[i].Value())
  }

  // ------------------------------------------------------------------ normalizeChats

  lemma {:induction false} AddAllAppend(result: Chats, entries: seq<Entry>, e: Entry)
    ensures AddAll(result, entries + [e])
         == if e.jid == "" then AddAll(result, entries) else AddAll(result, entries)[e.jid := One(Read(e))]
    decreases |entries|
  {
    hide Read;
    if entries == [] {
      assert entries + [e] == [e];
    } else {
      var first := entries[0];
      AddAllAppend(if first.jid == "" then result else result[first.jid := One(Read(first))], entries[1..], e);
      assert (entries + [e])[1..] == entries[1..] + [e];
    }
  }

  lemma {:induction false} AddAllSplit(result: Chats, a: seq<Entry>, b: seq<Entry>)
    ensures AddAll(result, a + b) == AddAll(AddAll(result, a), b)
    decreases |b|
  {
    hide Read;
    if b == [] {
      assert a + b == a;
    } else {
      AddAllAppend(result, a, b[0]);
      AddAllSplit(result, a + [b[0]], b[1..]);
      assert a + b == a + [b[0]] + b[1..];
    }
  }

  /** One channel's entries into the result. */
  method ReadChannel(result: Chats, entries: seq<Entry>) returns (r: Chats)
    ensures r == AddAll(result, entries)
  {
    hide AddAll;
    r := result;
    assert entries[0..] == entries;
    for i := 0 to |entries|
      invariant AddAll(r, entries[i..]) == AddAll(result, entries)
    {
      AddAllStep(r, entries[i..]);
      assert entries[i..][0] == entries[i] && entries[i..][1..] == entries[i + 1..];
      var entry := entries[i];
      if entry.jid != "" {
        r := r[entry.jid := One(Read(entry))];
      }
    }
    AddAllEmpty(r);
  }

  lemma AddAllStep(result: Chats, entries: seq<Entry>)
    requires entries != []
    ensures var e := entries[0];
            AddAll(result, entries)
            == AddAll(if e.jid == "" then result else result[e.jid := One(Read(e))], entries[1..])
  {}

  lemma AddAllEmpty(result: Chats)
    ensures AddAll(result, []) == result
  {}

  method ReadGroup(result: Chats, entries: seq<Entry>) returns (r: Chats)
    ensures r == AddMissing(result, entries)
  {
    r := result;
    for i := 0 to |entries|
      invariant AddMissing(r, entries[i..]) == AddMissing(result, entries)
    {
      assert entries[i..][1..] == entries[i + 1..];
      var entry := entries[i];
      if entry.jid != "" && entry.jid !in r {
        r := r[entry.jid := One(Read(entry))];
      }
    }
  }

  method NormalizeChats(raw: Option<TopLevel>, channels: seq<ChannelDef>) returns (result: Chats)
    ensures result == Normalize(raw, Values(channels))
  {
    hide AddAll, AddMissing;
    result := map[];
    ghost var defs := Values(channels);
    AddAllEmpty(map[]);
    for i := 0 to |channels|
      invariant AddAll(result, AllEntries(defs[i..])) == AddAll(map[], AllEntries(defs))
    {
      assert defs[i..][1..] == defs[i + 1..];
      var chats := channels[i].chats.GetOr([]);
      AddAllSplit(result, chats, AllEntries(defs[i + 1..]));
      result := ReadChannel(result, chats);
    }
    AddAllEmpty(result);
    if raw.Some? {
      result := ReadTopLevel(result, raw.value);
    }
  }

  method ReadTopLevel(canonical: Chats, top: TopLevel) returns (result: Chats)
    ensures result == if IsGrouped(top) then AddGroups(canonical, top) else AddFlat(canonical, top)
  {
    hide AddMissing;
    result := canonical;
    if IsGrouped(top) {
      for i := 0 to |top|
        invariant AddGroups(result, top[i..]) == AddGroups(canonical, top)
      {
        assert top[i..][1..] == top[i + 1..];
        if top[i].1.One? { continue; }
        result := ReadGroup(result, top[i].1.entries);
      }
    } else {
      for i := 0 to |top|
        invariant AddFlat(result, top[i..]) == AddFlat(canonical, top)
      {
        assert top[i..][1..] == top[i + 1..];
        if top[i].0 !in result {
          result := result[top[i].0 := top[i].1];
        }
      }
    }
  }

  // ------------------------------------------------------------------ distributeChatsToChannels

  ghost predicate DistinctDefs(defs: seq<ChannelDef>) {
    forall i, j :: 0 <= i < j < |defs| ==> defs[i].name != defs[j].name
  }

  ghost predicate Has(defs: seq<ChannelDef>, ch: string) {
    exists def :: def in defs && def.name == ch
  }

  lemma {:induction false} OnChannelAppend(flat: seq<Entry>, e: Entry, ch: string)
    ensures OnChannel(flat + [e], ch)
         == OnChannel(flat, ch) + if ChannelFromJid(e.jid) == ch then [Written(e)] else []
  {
    hide ChannelFromJid, Written;
    if flat == [] {
      assert flat + [e] == [e];
    } else {
      OnChannelAppend(flat[1..], e, ch);
      assert (flat + [e])[1..] == flat[1..] + [e];
    }
  }

  /** The chats by channel, each list in the order of the record. */
  ghost predicate IsGrouping(byChannel: map<string, seq<Entry>>, flat: seq<Entry>) {
    forall ch ::
      if ch in byChannel then byChannel[ch] == OnChannel(flat, ch) && byChannel[ch] != []
      else OnChannel(flat, ch) == []
  }

  lemma GroupingGrows(byChannel: map<string, seq<Entry>>, flat: seq<Entry>, e: Entry)
    requires IsGrouping(byChannel, flat)
    ensures var ch := ChannelFromJid(e.jid);
            var list := if ch in byChannel then byChannel[ch] else [];
            IsGrouping(byChannel[ch := list + [Written(e)]], flat + [e])
  {
    hide OnChannel, ChannelFromJid, Written;
    forall ch
      ensures OnChannel(flat + [e], ch)
           == OnChannel(flat, ch) + if ChannelFromJid(e.jid) == ch then [Written(e)] else []
    {
      OnChannelAppend(flat, e, ch);
    }
  }

  /** The channels of the chats, in the order in which they first occur. */
  function ChannelOrder(flat: seq<Entry>): seq<string> {
    if flat == [] then []
    else
      var (before, ch) := (ChannelOrder(flat[..|flat| - 1]), ChannelFromJid(flat[|flat| - 1].jid));
      if ch in before then before else before + [ch]
  }

  /** The keys, each once, in the order in which they came. */
  ghost predicate KeysInOrder(keys: set<string>, order: seq<string>, flat: seq<Entry>) {
    && (forall ch :: ch in order <==> ch in keys)
    && (forall i, j :: 0 <= i < j < |order| ==> order[i] != order[j])
    && order == ChannelOrder(flat)
  }

  lemma OneMoreKey(keys: set<string>, order: seq<string>, flat: seq<Entry>, e: Entry)
    requires KeysInOrder(keys, order, flat)
    ensures var ch := ChannelFromJid(e.jid);
            KeysInOrder(keys + {ch}, if ch in keys then order else order + [ch], flat + [e])
  {
    hide ChannelFromJid;
    assert (flat + [e])[..|flat|] == flat;
  }

  lemma KeysInOrderMeans(keys: set<string>, order: seq<string>, flat: seq<Entry>)
    requires KeysInOrder(keys, order, flat)
    ensures forall ch :: ch in order <==> ch in keys
    ensures forall i, j :: 0 <= i < j < |order| ==> order[i] != order[j]
    ensures order == ChannelOrder(flat)
  {}

  /** One round of the grouping loop. */
  method AddToGroup(grouped: map<string, seq<Entry>>, keys: seq<string>, ghost flat: seq<Entry>, e: Entry)
    returns (byChannel: map<string, seq<Entry>>, order: seq<string>)
    requires IsGrouping(grouped, flat) && KeysInOrder(grouped.Keys, keys, flat)
    ensures IsGrouping(byChannel, flat + [e]) && KeysInOrder(byChannel.Keys, order, flat + [e])
  {
    byChannel, order := grouped, keys;
    GroupingGrows(grouped, flat, e);
    OneMoreKey(grouped.Keys, keys, flat, e);
    hide IsGrouping, ChannelFromJid, Written, KeysInOrder;
    var ch := ChannelFromJid(e.jid);
    if ch !in byChannel {
      byChannel := byChannel[ch := []];
      order := order + [ch];
    }
    GroupUpdated(grouped, ch, Written(e));
    byChannel := byChannel[ch := byChannel[ch] + [Written(e)]];
  }

  lemma GroupUpdated(grouped: map<string, seq<Entry>>, ch: string, w: Entry)
    ensures var list := if ch in grouped then grouped[ch] else [];
            var bucket := if ch in grouped then grouped else grouped[ch := []];
            && bucket[ch := bucket[ch] + [w]] == grouped[ch := list + [w]]
            && bucket[ch := bucket[ch] + [w]].Keys == grouped.Keys + {ch}
  {}

  method GroupByChannel(flat: seq<Entry>) returns (byChannel: map<string, seq<Entry>>, order: seq<string>)
    ensures IsGrouping(byChannel, flat)
    ensures forall ch :: ch in order <==> ch in byChannel
    ensures forall i, j :: 0 <= i < j < |order| ==> order[i] != order[j]
    ensures order == ChannelOrder(flat)
  {
    byChannel, order := map[], [];
    assert IsGrouping(byChannel, flat[..0]);
    assert KeysInOrder({}, [], flat[..0]);
    hide IsGrouping, ChannelFromJid, Written, KeysInOrder;
    for i := 0 to |flat|
      invariant IsGrouping(byChannel, flat[..i])
      invariant KeysInOrder(byChannel.Keys, order, flat[..i])
    {
      assert flat[..i + 1] == flat[..i] + [flat[i]];
      byChannel, order := AddToGroup(byChannel, order, flat[..i], flat[i]);
    }
    assert flat[..|flat|] == flat;
    KeysInOrderMeans(byChannel.Keys, order, flat);
  }

  method SortEach(grouped: map<string, seq<Entry>>, order: seq<string>, ghost flat: seq<Entry>)
    returns (byChannel: map<string, seq<Entry>>)
    requires IsGrouping(grouped, flat) && forall ch :: ch in order <==> ch in grouped
    requires forall i, j :: 0 <= i < j < |order| ==> order[i] != order[j]
    ensures forall ch :: (if ch in byChannel then Some(byChannel[ch]) else None) == ChannelChats(flat, ch)
    ensures byChannel.Keys == grouped.Keys
  {
    hide OnChannel, SortById;
    byChannel := grouped;
    for i := 0 to |order|
      invariant byChannel.Keys == grouped.Keys
      invariant forall k :: 0 <= k < i ==> byChannel[order[k]] == SortById(grouped[order[k]])
      invariant forall k :: i <= k < |order| ==> byChannel[order[k]] == grouped[order[k]]
    {
      byChannel := byChannel[order[i] := SortById(byChannel[order[i]])];
    }
  }

  // ------------------------------------------------------------------ orphans

  function OrphanOf(w: Entry): (string, TopValue) {
    (w.jid, One(w.chat))
  }

  ghost predicate IsOrphanIn(v: (string, TopValue), entries: seq<Entry>) {
    exists w :: w in entries && v == OrphanOf(w)
  }

  function OrphansOf(entries: seq<Entry>): TopLevel {
    seq(|entries|, i requires 0 <= i < |entries| => OrphanOf(entries[i]))
  }

  /** The chats of the channels that are not registered, channel by channel, each channel's in the order of its list. */
  ghost function OrphansInOrder(flat: seq<Entry>, names: set<string>, order: seq<string>): TopLevel {
    if order == [] then []
    else
      var ch := order[|order| - 1];
      OrphansInOrder(flat, names, order[..|order| - 1])
      + if ch in names then [] else OrphansOf(SortById(OnChannel(flat, ch)))
  }

  method AddOrphans(orphans: TopLevel, entries: seq<Entry>) returns (r: TopLevel)
    requires DistinctJids(entries) && forall v, w :: v in orphans && w in entries ==> v.0 != w.jid
    ensures r == orphans + OrphansOf(entries)
  {
    hide Put;
    r := orphans;
    for i := 0 to |entries|
      invariant r == orphans + OrphansOf(entries[..i])
    {
      forall k | 0 <= k < |r| ensures r[k].0 != entries[i].jid {
        if k < |orphans| {
          assert r[k] in orphans && entries[i] in entries;
        } else {
          assert r[k] == OrphanOf(entries[k - |orphans|]);
        }
      }
      PutFresh(r, entries[i].jid, One(entries[i].chat));
      r := Put(r, entries[i].jid, One(entries[i].chat));
    }
    assert entries[..|entries|] == entries;
  }

  lemma OrphansOfAre(orphans: TopLevel, entries: seq<Entry>)
    requires DistinctKeys(orphans)
    requires DistinctJids(entries) && forall v, w :: v in orphans && w in entries ==> v.0 != w.jid
    ensures DistinctKeys(orphans + OrphansOf(entries))
    ensures forall v :: v in orphans + OrphansOf(entries) <==> v in orphans || IsOrphanIn(v, entries)
  {
    var r := orphans + OrphansOf(entries);
    forall i, j | 0 <= i < j < |r| ensures r[i].0 != r[j].0 {
      assert i < |orphans| ==> r[i] in orphans;
      assert j >= |orphans| ==> r[j] == OrphanOf(entries[j - |orphans|]) && entries[j - |orphans|] in entries;
    }
    forall v | IsOrphanIn(v, entries) ensures v in r {
      var k :| 0 <= k < |entries| && v == OrphanOf(entries[k]);
      assert r[|orphans| + k] == v;
    }
  }

  // ------------------------------------------------------------------ a channel's list names each chat once

  lemma {:induction false} OnChannelDistinct(flat: seq<Entry>, ch: string)
    requires DistinctJids(flat)
    ensures DistinctJids(OnChannel(flat, ch))
  {
    hide ChannelFromJid;
    if flat == [] {
    } else {
      var rest := OnChannel(flat[1..], ch);
      OnChannelDistinct(flat[1..], ch);
      forall w | w in rest ensures w.jid != flat[0].jid {
        OnChannelIs(flat[1..], ch, w);
      }
    }
  }

  lemma ReorderedDistinct(s: seq<Entry>, t: seq<Entry>)
    requires DistinctJids(s) && multiset(t) == multiset(s)
    ensures DistinctJids(t)
  {
    forall i, j | 0 <= i < j < |t| ensures t[i].jid != t[j].jid {
      assert t[i] in multiset(s) && t[j] in multiset(s);
      if t[i].jid == t[j].jid {
        UniqueEntry(s, t[i], t[j]);
        assert t == t[..j] + [t[j]] + t[j + 1..];
        assert t[i] in t[..j];
        CountedOnce(s, t[i]);
      }
    }
  }

  lemma CountedOnce(s: seq<Entry>, e: Entry)
    requires DistinctJids(s)
    ensures multiset(s)[e] <= 1
  {
    if e in s {
      var k :| 0 <= k < |s| && s[k] == e;
      assert s == s[..k] + [s[k]] + s[k + 1..];
      assert e !in s[..k] && e !in s[k + 1..];
    }
  }

  lemma ListDistinct(flat: seq<Entry>, ch: string)
    requires DistinctJids(flat)
    ensures DistinctJids(SortById(OnChannel(flat, ch)))
  {
    OnChannelDistinct(flat, ch);
    Sorting.SortIsPermutation(OnChannel(flat, ch), ByIdAtMost);
    ReorderedDistinct(OnChannel(flat, ch), SortById(OnChannel(flat, ch)));
  }

  /** `v` is the orphan of a chat on one of the channels `done`, which is not registered. */
  ghost predicate OrphanedOn(v: (string, TopValue), flat: seq<Entry>, names: set<string>, done: seq<string>) {
    exists e ::
      && e in flat && ChannelFromJid(e.jid) in done && ChannelFromJid(e.jid) !in names && v == OrphanOf(Written(e))
  }

  lemma EntriesFit(flat: seq<Entry>, names: set<string>, done: seq<string>, ch: string, entries: seq<Entry>,
                   orphans: TopLevel)
    requires DistinctJids(flat) && entries == SortById(OnChannel(flat, ch))
    requires forall v :: v in orphans <==> OrphanedOn(v, flat, names, done)
    requires ch !in done
    ensures forall w :: w in entries <==> exists e :: e in flat && ChannelFromJid(e.jid) == ch && w == Written(e)
    ensures DistinctJids(entries) && forall v, w :: v in orphans && w in entries ==> v.0 != w.jid
  {
    hide ChannelFromJid, DistinctJids, OnChannel, Sorting.Sort;
    ListDistinct(flat, ch);
    Sorting.SortIsPermutation(OnChannel(flat, ch), ByIdAtMost);
    forall w ensures w in entries <==> exists e :: e in flat && ChannelFromJid(e.jid) == ch && w == Written(e) {
      OnChannelIs(flat, ch, w);
      assert w in multiset(entries) <==> w in multiset(OnChannel(flat, ch));
    }
    hide Written;
    forall v, w | v in orphans && w in entries ensures v.0 != w.jid {
      var d :| && d in flat && ChannelFromJid(d.jid) in done && ChannelFromJid(d.jid) !in names
               && v == OrphanOf(Written(d));
      var e :| e in flat && ChannelFromJid(e.jid) == ch && w == Written(e);
      if v.0 == w.jid {
        UniqueEntry(flat, d, e);
      }
    }
  }

  lemma OrphansGrow(flat: seq<Entry>, names: set<string>, done: seq<string>, ch: string, entries: seq<Entry>,
                    v: (string, TopValue))
    requires forall w :: w in entries <==> exists e :: e in flat && ChannelFromJid(e.jid) == ch && w == Written(e)
    ensures ch in names ==> (OrphanedOn(v, flat, names, done + [ch]) <==> OrphanedOn(v, flat, names, done))
    ensures ch !in names ==>
              (OrphanedOn(v, flat, names, done + [ch]) <==>
               OrphanedOn(v, flat, names, done) || IsOrphanIn(v, entries))
  {}

  /** The orphans of the channels `done`, all of them and in order. */
  ghost predicate AreOrphans(orphans: TopLevel, flat: seq<Entry>, names: set<string>, done: seq<string>) {
    && DistinctKeys(orphans) && (forall v :: v in orphans <==> OrphanedOn(v, flat, names, done))
    && orphans == OrphansInOrder(flat, names, done)
  }

  lemma OneMoreChannel(flat: seq<Entry>, names: set<string>, done: seq<string>, ch: string, entries: seq<Entry>,
                       orphans: TopLevel)
    requires DistinctJids(flat) && entries == SortById(OnChannel(flat, ch)) && ch !in done
    requires AreOrphans(orphans, flat, names, done)
    ensures DistinctJids(entries) && forall v, w :: v in orphans && w in entries ==> v.0 != w.jid
    ensures AreOrphans(if ch in names then orphans else orphans + OrphansOf(entries), flat, names, done + [ch])
  {
    hide OnChannel, SortById, DistinctJids, DistinctKeys, OrphanedOn, IsOrphanIn, OrphansOf;
    EntriesFit(flat, names, done, ch, entries, orphans);
    forall v
      ensures ch in names ==> (OrphanedOn(v, flat, names, done + [ch]) <==> OrphanedOn(v, flat, names, done))
      ensures ch !in names ==>
                (OrphanedOn(v, flat, names, done + [ch]) <==>
                 OrphanedOn(v, flat, names, done) || IsOrphanIn(v, entries))
    {
      OrphansGrow(flat, names, done, ch, entries, v);
    }
    OrphansOfAre(orphans, entries);
    assert (done + [ch])[..|done|] == done;
  }

  // ------------------------------------------------------------------ the whole operation

  lemma RegisteredIs(defs: seq<ChannelDef>, ch: string)
    ensures Registered(Values(defs), ch) <==> Has(defs, ch)
  {}

  lemma AllOrphansHeld(flat: seq<Entry>, names: set<string>, order: seq<string>, orphans: TopLevel,
                       channels: seq<Channel>)
    requires forall e :: e in flat ==> ChannelFromJid(e.jid) in order
    requires forall ch :: Registered(channels, ch) <==> ch in names
    requires DistinctKeys(orphans) && forall v :: v in orphans <==> OrphanedOn(v, flat, names, order)
    ensures HoldsOrphans(orphans, flat, channels)
  {}

  lemma ChannelsCovered(flat: seq<Entry>, byChannel: map<string, seq<Entry>>)
    requires forall ch :: ch in byChannel <==> OnChannel(flat, ch) != []
    ensures forall e :: e in flat ==> ChannelFromJid(e.jid) in byChannel
  {
    hide ChannelFromJid;
    forall e | e in flat ensures ChannelFromJid(e.jid) in byChannel {
      OnChannelIs(flat, ChannelFromJid(e.jid), Written(e));
    }
  }

  class Config {
    var channels: seq<ChannelDef>
    var chats: Option<TopLevel>

    constructor (channels: seq<ChannelDef>, chats: Option<TopLevel>)
      ensures this.channels == channels && this.chats == chats
    {
      this.channels, this.chats := channels, chats;
    }

    method Find(ch: string) returns (def: ChannelDef?)
      ensures def != null ==> def in channels && def.name == ch
      ensures def == null ==> !Has(channels, ch)
    {
      for i := 0 to |channels|
        invariant forall k :: 0 <= k < i ==> channels[k].name != ch
      {
        if channels[i].name == ch { return channels[i]; }
      }
      return null;
    }

    ghost function Names(): (names: set<string>)
      reads this`channels
      ensures forall n :: n in names <==> Has(channels, n)
    {
      set def | def in channels :: def.name
    }

    /** Each list goes to its channel; those of unregistered channels are collected. */
    method PlaceLists(byChannel: map<string, seq<Entry>>, order: seq<string>, ghost flat: seq<Entry>)
      returns (orphans: TopLevel)
      requires DistinctJids(flat) && DistinctDefs(channels)
      requires forall ch :: ch in order <==> ch in byChannel
      requires forall i, j :: 0 <= i < j < |order| ==> order[i] != order[j]
      requires forall ch :: ch in byChannel ==> byChannel[ch] == SortById(OnChannel(flat, ch))
      modifies channels
      ensures channels == old(channels)
      ensures forall def :: def in channels ==>
                def.chats == if def.name in order then Some(byChannel[def.name]) else old(def.chats)
      ensures AreOrphans(orphans, flat, Names(), order)
    {
      ghost var names := Names();
      NoOrphansYet(flat, names);
      hide OnChannel, SortById, DistinctJids, Names, OrphansOf, AreOrphans;
      orphans := [];
      for i := 0 to |order|
        invariant forall def :: def in channels ==>
                    def.chats == if def.name in order[..i] then Some(byChannel[def.name]) else old(def.chats)
        invariant AreOrphans(orphans, flat, names, order[..i])
      {
        var ch := order[i];
        var entries := byChannel[ch];
        assert order[..i + 1] == order[..i] + [ch];
        OneMoreChannel(flat, names, order[..i], ch, entries, orphans);
        var def := Find(ch);
        assert def == null <==> ch !in names;
        if def == null {
          orphans := AddOrphans(orphans, entries);
          continue;
        }
        def.chats := Some(entries);
      }
      assert order[..|order|] == order;
    }

    /** Channels that have no chats any more lose their list. */
    method CleanUp(byChannel: map<string, seq<Entry>>)
      requires DistinctDefs(channels)
      modifies channels
      ensures channels == old(channels)
      ensures forall def :: def in channels ==> def.chats == if def.name in byChannel then old(def.chats) else None
    {
      for i := 0 to |channels|
        invariant forall k :: 0 <= k < i ==>
                    channels[k].chats == if channels[k].name in byChannel then old(channels[k].chats) else None
        invariant forall k :: i <= k < |channels| ==> channels[k].chats == old(channels[k].chats)
      {
        var def := channels[i];
        if def.chats.Some? && def.name !in byChannel {
          def.chats := None;
        }
      }
    }

    /** However the chats were laid out before, the flat record is laid out as prescribed. */
    method DistributeChatsToChannels(flat: seq<Entry>)
      requires DistinctJids(flat) && DistinctDefs(channels)
      modifies this`chats, channels
      ensures channels == old(channels)
      ensures IsLayout(flat, chats, Values(channels))
      ensures chats.GetOr([]) == OrphansInOrder(flat, Names(), ChannelOrder(flat))
    {
      hide DistinctJids, AreOrphans, HoldsOrphans, OnChannel, ChannelFromJid, SortById, IsGrouping, Names, ChannelOrder,
        OrphansInOrder, ChannelChats;
      chats := None;
      var grouped, order := GroupByChannel(flat);
      var byChannel := SortEach(grouped, order, flat);
      GroupsAreLists(flat, byChannel);
      var orphans := PlaceLists(byChannel, order, flat);
      CleanUp(byChannel);
      if |orphans| > 0 {
        chats := Some(orphans);
      }
      ChannelsCovered(flat, byChannel);
      OrphansLaidOut(flat, order, orphans);
      ListsLaidOut(flat);
    }

    lemma ListsLaidOut(flat: seq<Entry>)
      requires DistinctDefs(channels) && forall def :: def in channels ==> def.chats == ChannelChats(flat, def.name)
      ensures DistinctNames(Values(channels))
      ensures forall c :: c in Values(channels) ==> c.chats == ChannelChats(flat, c.name)
    {
      hide ChannelChats;
    }

    lemma OrphansLaidOut(flat: seq<Entry>, order: seq<string>, orphans: TopLevel)
      requires AreOrphans(orphans, flat, Names(), order) && forall e :: e in flat ==> ChannelFromJid(e.jid) in order
      ensures HoldsOrphans(orphans, flat, Values(channels)) && orphans == OrphansInOrder(flat, Names(), order)
    {
      hide OrphanedOn, HoldsOrphans, ChannelFromJid, Names;
      forall ch ensures Registered(Values(channels), ch) <==> ch in Names() {
        RegisteredIs(channels, ch);
      }
      AllOrphansHeld(flat, Names(), order, orphans, Values(channels));
    }
  }

  /** A save followed by a load gives back the chats if and only if each of them survives the layout. */
  method SaveThenLoad(config: Config, flat: seq<Entry>) returns (loaded: Chats)
    requires DistinctJids(flat) && DistinctDefs(config.channels)
    modifies config`chats, config.channels
    ensures IsMapOf(loaded, flat) <==> forall e :: e in flat ==> Survives(e, Values(config.channels))
  {
    hide IsLayout, DistinctJids, IsMapOf, Survives, Normalize;
    config.DistributeChatsToChannels(flat);
    loaded := NormalizeChats(config.chats, config.channels);
    SaveLoadExactly(flat, config.chats, Values(config.channels));
  }

  lemma GroupsAreLists(flat: seq<Entry>, byChannel: map<string, seq<Entry>>)
    requires forall ch :: (if ch in byChannel then Some(byChannel[ch]) else None) == ChannelChats(flat, ch)
    ensures forall ch :: ch in byChannel ==> byChannel[ch] == SortById(OnChannel(flat, ch))
    ensures forall ch :: ch in byChannel <==> OnChannel(flat, ch) != []
  {}

  lemma NoOrphansYet(flat: seq<Entry>, names: set<string>)
    ensures AreOrphans([], flat, names, [])
  {}
}
