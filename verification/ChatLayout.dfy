/** Chats on disk: one list per registered channel, the rest at top level. What the layout means when read back. */
module ChatLayout {
  import opened Options
  import opened Records
  import opened Sorting

  /** A value of `id` as found in a file: only numbers count. */
  datatype IdValue = NoId | Number(n: int) | NotNumber(text: string)

  datatype Chat = Chat(
    id: IdValue, name: string, isMain: Option<bool>, requiresTrigger: Option<bool>, agentId: Option<string>)

  /** A chat with its jid, "" where it has none. */
  datatype Entry = Entry(jid: string, chat: Chat)

  datatype TopValue = List(entries: seq<Entry>) | One(chat: Chat)

  datatype Channel = Channel(name: string, chats: Option<seq<Entry>>)

  type TopLevel = Record<TopValue>

  type Chats = map<string, TopValue>

  predicate StartsWith(s: string, prefix: string) {
    prefix <= s
  }

  function ChannelFromJid(jid: string): string {
    if StartsWith(jid, "tg:") then "telegram"
    else if StartsWith(jid, "teams:") then "teams"
    else if StartsWith(jid, "dc:") then "discord"
    else if StartsWith(jid, "wa:") then "whatsapp"
    else if StartsWith(jid, "slack:") then "slack"
    else "other"
  }

  const CHANNEL_KEYS := {"telegram", "teams", "discord", "slack", "whatsapp", "other"}

  function Numeric(id: IdValue): IdValue {
    if id.Number? then id else NoId
  }

  // ------------------------------------------------------------------ reading

  /** A list entry as normalizeChats takes it over. */
  function Read(e: Entry): Chat {
    e.chat.(id := Numeric(e.chat.id), name := if e.chat.name == "" then e.jid else e.chat.name)
  }

  /** Canonical entries: the last one for a jid counts. */
  function AddAll(result: Chats, entries: seq<Entry>): Chats
    decreases |entries|
  {
    if entries == [] then result
    else AddAll(if entries[0].jid == "" then result else result[entries[0].jid := One(Read(entries[0]))], entries[1..])
  }

  function AllEntries(channels: seq<Channel>): seq<Entry> {
    if channels == [] then [] else channels[0].chats.GetOr([]) + AllEntries(channels[1..])
  }

  /** Grouped top-level entries: only jids not there yet. */
  function AddMissing(result: Chats, entries: seq<Entry>): Chats
    decreases |entries|
  {
    if entries == [] then result
    else
      var e := entries[0];
      AddMissing(if e.jid == "" || e.jid in result then result else result[e.jid := One(Read(e))], entries[1..])
  }

  function AddGroups(result: Chats, raw: TopLevel): Chats
    decreases |raw|
  {
    if raw == [] then result
    else AddGroups(if raw[0].1.List? then AddMissing(result, raw[0].1.entries) else result, raw[1..])
  }

  function AddFlat(result: Chats, raw: TopLevel): Chats
    decreases |raw|
  {
    if raw == [] then result
    else AddFlat(if raw[0].0 in result then result else result[raw[0].0 := raw[0].1], raw[1..])
  }

  predicate IsGrouped(raw: TopLevel) {
    exists i | 0 <= i < |raw| :: raw[i].0 in CHANNEL_KEYS && raw[i].1.List?
  }

  function Normalize(raw: Option<TopLevel>, channels: seq<Channel>): Chats {
    var canonical := AddAll(map[], AllEntries(channels));
    match raw
    case None => canonical
    case Some(top) => if IsGrouped(top) then AddGroups(canonical, top) else AddFlat(canonical, top)
  }

  // ------------------------------------------------------------------ writing

  /** A chat as a list entry; an id that is not a number is left out. */
  function Written(e: Entry): (w: Entry)
    ensures w.jid == e.jid
  {
    e.(chat := e.chat.(id := Numeric(e.chat.id)))
  }

  function OnChannel(flat: seq<Entry>, ch: string): seq<Entry> {
    if flat == [] then []
    else (if ChannelFromJid(flat[0].jid) == ch then [Written(flat[0])] else []) + OnChannel(flat[1..], ch)
  }

  /** a.id ?? 1e9 */
  function SortKey(e: Entry): int {
    if e.chat.id.Number? then e.chat.id.n else 1000000000
  }

  predicate ByIdAtMost(a: Entry, b: Entry) {
    SortKey(a) <= SortKey(b)
  }

  function SortById(entries: seq<Entry>): seq<Entry> {
    Sort(entries, ByIdAtMost)
  }

  predicate Registered(channels: seq<Channel>, ch: string) {
    exists c :: c in channels && c.name == ch
  }

  ghost predicate DistinctJids(flat: seq<Entry>) {
    forall i, j :: 0 <= i < j < |flat| ==> flat[i].jid != flat[j].jid
  }

  ghost predicate DistinctNames(channels: seq<Channel>) {
    forall i, j :: 0 <= i < j < |channels| ==> channels[i].name != channels[j].name
  }

  function ChannelChats(flat: seq<Entry>, ch: string): Option<seq<Entry>> {
    if OnChannel(flat, ch) == [] then None else Some(SortById(OnChannel(flat, ch)))
  }

  /** The chats of unregistered channels, each under its jid. */
  ghost predicate HoldsOrphans(top: TopLevel, flat: seq<Entry>, channels: seq<Channel>) {
    && DistinctKeys(top)
    && (forall e :: e in flat && !Registered(channels, ChannelFromJid(e.jid)) ==> (e.jid, One(Written(e).chat)) in top)
    && (forall v :: v in top ==>
          exists e :: e in flat && !Registered(channels, ChannelFromJid(e.jid)) && v == (e.jid, One(Written(e).chat)))
  }

  /** How the flat chats are laid out: each registered channel has its own, in order of id, and what belongs to no
      registered channel is at top level. */
  ghost predicate IsLayout(flat: seq<Entry>, raw: Option<TopLevel>, channels: seq<Channel>) {
    && DistinctNames(channels)
    && (forall c :: c in channels ==> c.chats == ChannelChats(flat, c.name))
    && HoldsOrphans(raw.GetOr([]), flat, channels)
    && (raw.Some? ==> raw.value != [])
  }

  /** Within a channel the entries are in order of id, those with the same id as they came. */
  lemma ListsAreSorted(flat: seq<Entry>, ch: string, x: Entry)
    ensures var sorted := SortById(OnChannel(flat, ch));
            && Sorted(sorted, ByIdAtMost) && multiset(sorted) == multiset(OnChannel(flat, ch))
            && Same(sorted, ByIdAtMost, x) == Same(OnChannel(flat, ch), ByIdAtMost, x)
  {
    SortIsSorted(OnChannel(flat, ch), ByIdAtMost);
    SortIsPermutation(OnChannel(flat, ch), ByIdAtMost);
    SortIsStable(OnChannel(flat, ch), ByIdAtMost, x);
  }

  // ------------------------------------------------------------------ reading a layout back

  lemma {:induction false} OnChannelIs(flat: seq<Entry>, ch: string, w: Entry)
    ensures w in OnChannel(flat, ch) <==> exists e :: e in flat && ChannelFromJid(e.jid) == ch && w == Written(e)
  {
    hide ChannelFromJid;
    if flat == [] {
    } else {
      OnChannelIs(flat[1..], ch, w);
      assert forall e :: e in flat <==> e == flat[0] || e in flat[1..];
    }
  }

  lemma {:induction false} AllEntriesIs(channels: seq<Channel>, w: Entry)
    ensures w in AllEntries(channels) <==> exists c :: c in channels && w in c.chats.GetOr([])
  {
    if channels == [] {
    } else {
      AllEntriesIs(channels[1..], w);
      assert forall c :: c in channels <==> c == channels[0] || c in channels[1..];
    }
  }

  /** What the channels' lists hold together. */
  lemma ListedIs(flat: seq<Entry>, raw: Option<TopLevel>, channels: seq<Channel>, w: Entry)
    requires IsLayout(flat, raw, channels)
    ensures w in AllEntries(channels) <==> Listed(flat, channels, w)
  {
    hide ChannelFromJid, HoldsOrphans, DistinctNames;
    AllEntriesIs(channels, w);
    forall c | c in channels
      ensures w in c.chats.GetOr([]) <==> exists e :: e in flat && ChannelFromJid(e.jid) == c.name && w == Written(e)
    {
      OnChannelIs(flat, c.name, w);
      SortIsPermutation(OnChannel(flat, c.name), ByIdAtMost);
      assert w in multiset(SortById(OnChannel(flat, c.name))) <==> w in multiset(OnChannel(flat, c.name));
    }
  }

  /** A canonical list in which no jid is repeated with different contents, read. */
  lemma {:induction false} AddAllIs(result: Chats, entries: seq<Entry>, jid: string)
    requires forall a, b :: a in entries && b in entries && a.jid == b.jid ==> a == b
    ensures (exists w :: w in entries && w.jid == jid && jid != "") ==>
              && jid in AddAll(result, entries)
              && exists w :: w in entries && w.jid == jid && AddAll(result, entries)[jid] == One(Read(w))
    ensures !(exists w :: w in entries && w.jid == jid && jid != "") ==>
              (jid in AddAll(result, entries) <==> jid in result)
              && (jid in result ==> AddAll(result, entries)[jid] == result[jid])
    decreases |entries|
  {
    hide Read;
    if entries == [] {
    } else {
      var e := entries[0];
      var result' := if e.jid == "" then result else result[e.jid := One(Read(e))];
      assert forall w :: w in entries <==> w == e || w in entries[1..];
      AddAllIs(result', entries[1..], jid);
    }
  }

  lemma {:induction false} AddFlatIs(result: Chats, raw: TopLevel, jid: string)
    requires DistinctKeys(raw)
    ensures jid in result ==> jid in AddFlat(result, raw) && AddFlat(result, raw)[jid] == result[jid]
    ensures jid !in result ==>
              (jid in AddFlat(result, raw) <==> exists v :: v in raw && v.0 == jid)
              && forall v :: v in raw && v.0 == jid ==> jid in AddFlat(result, raw) && AddFlat(result, raw)[jid] == v.1
    decreases |raw|
  {
    if raw == [] {
    } else {
      var result' := if raw[0].0 in result then result else result[raw[0].0 := raw[0].1];
      assert forall v :: v in raw <==> v == raw[0] || v in raw[1..];
      assert forall v :: v in raw[1..] ==> v.0 != raw[0].0;
      AddFlatIs(result', raw[1..], jid);
    }
  }

  /** Where the chat is written and read back as it was: a list needs a jid and a name, and no place keeps an id that
      is not a number. */
  predicate Survives(e: Entry, channels: seq<Channel>) {
    && !e.chat.id.NotNumber?
    && (Registered(channels, ChannelFromJid(e.jid)) ==> e.jid != "" && e.chat.name != "")
  }

  /** The chat itself, as a value of the map that was saved. */
  ghost predicate ReadBack(result: Chats, e: Entry) {
    e.jid in result && result[e.jid] == One(e.chat)
  }

  lemma UniqueEntry(flat: seq<Entry>, a: Entry, b: Entry)
    requires DistinctJids(flat) && a in flat && b in flat && a.jid == b.jid
    ensures a == b
  {}

  /** Some chat of a registered channel is written as `w`. */
  ghost predicate Listed(flat: seq<Entry>, channels: seq<Channel>, w: Entry) {
    exists e :: e in flat && Registered(channels, ChannelFromJid(e.jid)) && w == Written(e)
  }

  lemma ListedOnce(flat: seq<Entry>, channels: seq<Channel>, a: Entry, b: Entry)
    requires DistinctJids(flat) && Listed(flat, channels, a) && Listed(flat, channels, b) && a.jid == b.jid
    ensures a == b
  {}

  lemma CanonicalAt(flat: seq<Entry>, raw: Option<TopLevel>, channels: seq<Channel>, jid: string)
    requires IsLayout(flat, raw, channels) && DistinctJids(flat)
    ensures var canonical := AddAll(map[], AllEntries(channels));
            if exists e :: e in flat && e.jid == jid && jid != "" && Registered(channels, ChannelFromJid(jid))
            then exists e :: e in flat && e.jid == jid && jid in canonical && canonical[jid] == One(Read(Written(e)))
            else jid !in canonical
  {
    hide IsLayout, ChannelFromJid, Read, Registered, AddAll, AllEntries;
    var entries := AllEntries(channels);
    forall w ensures w in entries <==> Listed(flat, channels, w) {
      ListedIs(flat, raw, channels, w);
    }
    forall a, b | a in entries && b in entries && a.jid == b.jid ensures a == b {
      ListedOnce(flat, channels, a, b);
    }
    hide DistinctJids;
    AddAllIs(map[], entries, jid);
    if e :| e in flat && e.jid == jid && jid != "" && Registered(channels, ChannelFromJid(jid)) {
      assert Listed(flat, channels, Written(e));
    }
  }

  lemma NotGrouped(flat: seq<Entry>, top: TopLevel, channels: seq<Channel>)
    requires HoldsOrphans(top, flat, channels)
    ensures !IsGrouped(top)
  {
    forall i | 0 <= i < |top| ensures !top[i].1.List? {
      assert top[i] in top;
    }
  }

  /** One chat comes back as it was if and only if it survives. */
  lemma ReadBackExactly(flat: seq<Entry>, raw: Option<TopLevel>, channels: seq<Channel>, e: Entry)
    requires IsLayout(flat, raw, channels) && DistinctJids(flat) && e in flat
    ensures ReadBack(Normalize(raw, channels), e) <==> Survives(e, channels)
  {
    if Registered(channels, ChannelFromJid(e.jid)) {
      RegisteredReadBack(flat, raw, channels, e);
    } else {
      UnregisteredReadBack(flat, raw, channels, e);
    }
  }

  /** What the lists give back for a chat that is in one. */
  lemma CanonicalOf(flat: seq<Entry>, raw: Option<TopLevel>, channels: seq<Channel>, e: Entry)
    requires IsLayout(flat, raw, channels) && DistinctJids(flat) && e in flat
    requires Registered(channels, ChannelFromJid(e.jid))
    ensures var canonical := AddAll(map[], AllEntries(channels));
            if e.jid != "" then e.jid in canonical && canonical[e.jid] == One(Read(Written(e)))
            else e.jid !in canonical
  {
    CanonicalAt(flat, raw, channels, e.jid);
    hide IsLayout, ChannelFromJid, AddAll, AllEntries, Registered, Read, Written;
    var canonical := AddAll(map[], AllEntries(channels));
    if e.jid != "" {
      var d :| d in flat && d.jid == e.jid && canonical[e.jid] == One(Read(Written(d)));
      UniqueEntry(flat, d, e);
    }
  }

  /** A chat in a list is not at top level too. */
  lemma ListedIsNoOrphan(flat: seq<Entry>, top: TopLevel, channels: seq<Channel>, e: Entry)
    requires HoldsOrphans(top, flat, channels) && DistinctJids(flat) && e in flat
    requires Registered(channels, ChannelFromJid(e.jid))
    ensures forall v :: v in top ==> v.0 != e.jid
  {
    hide DistinctJids, ChannelFromJid, Registered, Written;
    forall v | v in top ensures v.0 != e.jid {
      var d :| d in flat && !Registered(channels, ChannelFromJid(d.jid)) && v == (d.jid, One(Written(d).chat));
    }
  }

  lemma RegisteredReadBack(flat: seq<Entry>, raw: Option<TopLevel>, channels: seq<Channel>, e: Entry)
    requires IsLayout(flat, raw, channels) && DistinctJids(flat) && e in flat
    requires Registered(channels, ChannelFromJid(e.jid))
    ensures ReadBack(Normalize(raw, channels), e) <==> Survives(e, channels)
  {
    var top := raw.GetOr([]);
    var canonical := AddAll(map[], AllEntries(channels));
    CanonicalOf(flat, raw, channels, e);
    NotGrouped(flat, top, channels);
    ListedIsNoOrphan(flat, top, channels, e);
    AddFlatIs(canonical, top, e.jid);
    hide ChannelFromJid, AddAll, AllEntries, Registered, AddFlat, IsGrouped, HoldsOrphans, DistinctJids;
    assert Normalize(raw, channels) == AddFlat(canonical, top);
    hide IsLayout, Normalize;
  }

  lemma UnregisteredReadBack(flat: seq<Entry>, raw: Option<TopLevel>, channels: seq<Channel>, e: Entry)
    requires IsLayout(flat, raw, channels) && DistinctJids(flat) && e in flat
    requires !Registered(channels, ChannelFromJid(e.jid))
    ensures ReadBack(Normalize(raw, channels), e) <==> Survives(e, channels)
  {
    var top := raw.GetOr([]);
    var canonical := AddAll(map[], AllEntries(channels));
    CanonicalAt(flat, raw, channels, e.jid);
    NotGrouped(flat, top, channels);
    hide ChannelFromJid, AddAll, AllEntries, Registered;
    AddFlatIs(canonical, top, e.jid);
    assert Normalize(raw, channels) == AddFlat(canonical, top);
    hide AddFlat, IsGrouped;
    assert (e.jid, One(Written(e).chat)) in top;
  }

  /** Nothing comes back that was not saved. */
  lemma NothingNew(flat: seq<Entry>, raw: Option<TopLevel>, channels: seq<Channel>, jid: string)
    requires IsLayout(flat, raw, channels) && DistinctJids(flat)
    requires jid in Normalize(raw, channels)
    ensures exists e :: e in flat && e.jid == jid
  {
    var top := raw.GetOr([]);
    var canonical := AddAll(map[], AllEntries(channels));
    CanonicalAt(flat, raw, channels, jid);
    NotGrouped(flat, top, channels);
    hide ChannelFromJid, AddAll, AllEntries, Registered;
    AddFlatIs(canonical, top, jid);
    assert Normalize(raw, channels) == AddFlat(canonical, top);
    hide AddFlat, IsGrouped;
    if jid !in canonical {
      var v :| v in top && v.0 == jid;
      var e :| e in flat && !Registered(channels, ChannelFromJid(e.jid)) && v == (e.jid, One(Written(e).chat));
    }
  }

  /** The flat chats as a map. */
  ghost predicate IsMapOf(result: Chats, flat: seq<Entry>) {
    && (forall jid :: jid in result ==> exists e :: e in flat && e.jid == jid)
    && (forall e :: e in flat ==> ReadBack(result, e))
  }

  /** Saving and loading gives back the same chats if and only if every one of them survives. */
  lemma SaveLoadExactly(flat: seq<Entry>, raw: Option<TopLevel>, channels: seq<Channel>)
    requires IsLayout(flat, raw, channels) && DistinctJids(flat)
    ensures IsMapOf(Normalize(raw, channels), flat) <==> forall e :: e in flat ==> Survives(e, channels)
  {
    hide IsLayout, Normalize, Survives, ReadBack, DistinctJids;
    forall e | e in flat ensures ReadBack(Normalize(raw, channels), e) <==> Survives(e, channels) {
      ReadBackExactly(flat, raw, channels, e);
    }
    forall jid | jid in Normalize(raw, channels) ensures exists e :: e in flat && e.jid == jid {
      NothingNew(flat, raw, channels, jid);
    }
  }

  lemma OneEntry(s: seq<Entry>, e: Entry)
    requires multiset(s) == multiset{e}
    ensures s == [e]
  {
    assert |s| == |multiset(s)| == 1;
    assert s[0] in multiset(s);
  }

  /** A chat without a name comes back with its jid for a name. */
  lemma NamelessComesBackNamed(flat: seq<Entry>, channels: seq<Channel>)
    requires flat == [Entry("tg:1", Chat(NoId, "", None, None, None))]
    requires channels == [Channel("telegram", Some(flat))]
    ensures IsLayout(flat, None, channels) && DistinctJids(flat)
    ensures Normalize(None, channels) == map["tg:1" := One(flat[0].chat.(name := "tg:1"))]
    ensures !IsMapOf(Normalize(None, channels), flat)
  {
    var e := flat[0];
    assert ChannelFromJid("tg:1") == "telegram";
    assert channels[0].name == "telegram" && Registered(channels, "telegram");
    SortIsPermutation([e], ByIdAtMost);
    OneEntry(SortById([e]), e);
    assert OnChannel(flat, "telegram") == flat;
    assert AllEntries(channels) == flat;
    assert AddAll(map[], flat) == map["tg:1" := One(Read(e))];
    assert e in flat && !ReadBack(Normalize(None, channels), e);
  }

  // ------------------------------------------------------------------ which channel a chat is on

  const PREFIXES := map[
    "tg" := "telegram", "teams" := "teams", "dc" := "discord", "wa" := "whatsapp", "slack" := "slack"]

  function BeforeColon(jid: string): Option<string> {
    if jid == "" then None
    else if jid[0] == ':' then Some("")
    else match BeforeColon(jid[1..]) case None => None case Some(p) => Some([jid[0]] + p)
  }

  lemma {:induction false} BeforeColonIs(jid: string, p: string)
    requires ':' !in p
    ensures StartsWith(jid, p + ":") <==> BeforeColon(jid) == Some(p)
    decreases jid
  {
    if jid == "" {
    } else if p == "" {
      assert "" + ":" == ":";
      assert StartsWith(jid, ":") <==> jid[0] == ':';
    } else {
      BeforeColonIs(jid[1..], p[1..]);
      assert p == [p[0]] + p[1..] && (p + ":")[1..] == p[1..] + ":" && (p + ":")[0] == p[0];
      StartsWithTail(jid, p + ":");
    }
  }

  lemma StartsWithTail(s: string, prefix: string)
    requires s != "" && prefix != ""
    ensures StartsWith(s, prefix) <==> s[0] == prefix[0] && StartsWith(s[1..], prefix[1..])
  {
    if s[0] == prefix[0] && StartsWith(s[1..], prefix[1..]) {
      assert forall i :: 0 <= i < |prefix| ==> s[i] == prefix[i] by {
        forall i | 0 <= i < |prefix| ensures s[i] == prefix[i] {
          assert i > 0 ==> s[i] == s[1..][i - 1] && prefix[i] == prefix[1..][i - 1];
        }
      }
    }
  }

  /** The part of the jid before its first colon decides the channel. */
  lemma ChannelIsByPrefix(jid: string)
    ensures ChannelFromJid(jid)
         == match BeforeColon(jid)
            case Some(p) => if p in PREFIXES then PREFIXES[p] else "other"
            case None => "other"
  {
    hide BeforeColon, StartsWith;
    BeforeColonIs(jid, "tg");
    BeforeColonIs(jid, "teams");
    BeforeColonIs(jid, "dc");
    BeforeColonIs(jid, "wa");
    BeforeColonIs(jid, "slack");
    assert "tg" + ":" == "tg:" && "teams" + ":" == "teams:" && "dc" + ":" == "dc:";
    assert "wa" + ":" == "wa:" && "slack" + ":" == "slack:";
  }

  // ------------------------------------------------------------------ what reading makes of lists

  /** A chat as it may come from a list: its id a number or none, its name not empty. */
  predicate Clean(v: TopValue) {
    v.One? && !v.chat.id.NotNumber? && v.chat.name != ""
  }

  predicate AllClean(result: Chats) {
    forall jid | jid in result :: Clean(result[jid])
  }

  lemma {:induction false} AddAllClean(result: Chats, entries: seq<Entry>)
    requires AllClean(result)
    ensures AllClean(AddAll(result, entries))
    decreases |entries|
  {
    if entries == [] {
    } else {
      var e := entries[0];
      AddAllClean(if e.jid == "" then result else result[e.jid := One(Read(e))], entries[1..]);
    }
  }

  lemma {:induction false} AddMissingClean(result: Chats, entries: seq<Entry>)
    requires AllClean(result)
    ensures AllClean(AddMissing(result, entries))
    decreases |entries|
  {
    if entries == [] {
    } else {
      var e := entries[0];
      AddMissingClean(if e.jid == "" || e.jid in result then result else result[e.jid := One(Read(e))], entries[1..]);
    }
  }

  lemma {:induction false} AddGroupsClean(result: Chats, raw: TopLevel)
    requires AllClean(result)
    ensures AllClean(AddGroups(result, raw))
    decreases |raw|
  {
    if raw == [] {
    } else {
      if raw[0].1.List? {
        AddMissingClean(result, raw[0].1.entries);
      }
      AddGroupsClean(if raw[0].1.List? then AddMissing(result, raw[0].1.entries) else result, raw[1..]);
    }
  }

  /** Whatever the lists hold, a chat that is read from one has a number or nothing for an id, and a name; and with the
      channels' lists alone, or a grouped top level, there are no others. */
  lemma ListsReadClean(raw: Option<TopLevel>, channels: seq<Channel>)
    ensures AllClean(AddAll(map[], AllEntries(channels)))
    ensures raw.None? || IsGrouped(raw.value) ==> AllClean(Normalize(raw, channels))
  {
    AddAllClean(map[], AllEntries(channels));
    if raw.Some? {
      AddGroupsClean(AddAll(map[], AllEntries(channels)), raw.value);
    }
  }

  /** The first entry for a jid. */
  function FirstEntry(entries: seq<Entry>, jid: string): Option<Entry> {
    if entries == [] then None
    else if entries[0].jid == jid then Some(entries[0])
    else FirstEntry(entries[1..], jid)
  }

  /** The groups of a top level, one after the other. */
  function Grouped(raw: TopLevel): seq<Entry> {
    if raw == [] then [] else (if raw[0].1.List? then raw[0].1.entries else []) + Grouped(raw[1..])
  }

  lemma {:induction false} AddMissingIs(result: Chats, entries: seq<Entry>, jid: string)
    ensures var r := AddMissing(result, entries);
            if jid in result then jid in r && r[jid] == result[jid]
            else if jid == "" then jid !in r
            else match FirstEntry(entries, jid)
                 case Some(e) => jid in r && r[jid] == One(Read(e))
                 case None => jid !in r
    decreases |entries|
  {
    hide Read;
    if entries == [] {
    } else {
      var e := entries[0];
      AddMissingIs(if e.jid == "" || e.jid in result then result else result[e.jid := One(Read(e))], entries[1..], jid);
    }
  }

  lemma {:induction false} AddMissingTwice(result: Chats, first: seq<Entry>, second: seq<Entry>)
    ensures AddMissing(result, first + second) == AddMissing(AddMissing(result, first), second)
    decreases |first|
  {
    hide Read;
    if first == [] {
      assert first + second == second;
    } else {
      var e := first[0];
      assert (first + second)[1..] == first[1..] + second;
      AddMissingTwice(if e.jid == "" || e.jid in result then result else result[e.jid := One(Read(e))], first[1..],
                      second);
    }
  }

  lemma {:induction false} AddGroupsIs(result: Chats, raw: TopLevel)
    ensures AddGroups(result, raw) == AddMissing(result, Grouped(raw))
    decreases |raw|
  {
    hide AddMissing;
    if raw == [] {
      assert AddMissing(result, []) == result by {
        AddNothing(result);
      }
    } else {
      var entries := if raw[0].1.List? then raw[0].1.entries else [];
      AddNothing(result);
      AddMissingTwice(result, entries, Grouped(raw[1..]));
      AddGroupsIs(AddMissing(result, entries), raw[1..]);
    }
  }

  lemma AddNothing(result: Chats)
    ensures AddMissing(result, []) == result
  {}

  /** A grouped top level only fills up: a chat that a channel lists is read from there, any other from the first entry
      for it in the groups, in their order. */
  lemma GroupsFillUp(top: TopLevel, channels: seq<Channel>, jid: string)
    requires IsGrouped(top)
    ensures var (canonical, r) := (AddAll(map[], AllEntries(channels)), Normalize(Some(top), channels));
            if jid in canonical then jid in r && r[jid] == canonical[jid]
            else if jid == "" then jid !in r
            else match FirstEntry(Grouped(top), jid)
                 case Some(e) => jid in r && r[jid] == One(Read(e))
                 case None => jid !in r
  {
    var canonical := AddAll(map[], AllEntries(channels));
    AddGroupsIs(canonical, top);
    AddMissingIs(canonical, Grouped(top), jid);
    hide AddAll, AllEntries, AddGroups, AddMissing, Read;
  }

  /** A top level is read as grouped wherever in it the list of a channel stands, and the keys of channels are the names
      that a jid can lead to. */
  lemma GroupedAnywhere(before: TopLevel, after: TopLevel, key: string, value: TopValue)
    ensures IsGrouped(before + [(key, value)] + after)
       <==> IsGrouped(before) || IsGrouped(after) || (value.List? && exists jid :: ChannelFromJid(jid) == key)
  {
    var all := before + [(key, value)] + after;
    ChannelKeysAreChannels(key);
    hide ChannelFromJid;
    assert all[|before|] == (key, value);
    if i :| 0 <= i < |before| && before[i].0 in CHANNEL_KEYS && before[i].1.List? {
      assert all[i] == before[i];
    }
    if i :| 0 <= i < |after| && after[i].0 in CHANNEL_KEYS && after[i].1.List? {
      assert all[|before| + 1 + i] == after[i];
    }
  }

  lemma PrefixLeadsTo(p: string)
    requires p in PREFIXES && ':' !in p
    ensures ChannelFromJid(p + ":") == PREFIXES[p]
  {
    hide ChannelFromJid, PREFIXES;
    ChannelIsByPrefix(p + ":");
    BeforeColonIs(p + ":", p);
  }

  lemma ChannelKeysAreChannels(key: string)
    ensures key in CHANNEL_KEYS <==> exists jid :: ChannelFromJid(jid) == key
  {
    PrefixLeadsTo("tg");
    PrefixLeadsTo("teams");
    PrefixLeadsTo("dc");
    PrefixLeadsTo("wa");
    PrefixLeadsTo("slack");
    assert ChannelFromJid("") == "other";
    assert forall jid :: ChannelFromJid(jid) in CHANNEL_KEYS;
    hide ChannelFromJid;
  }
}
