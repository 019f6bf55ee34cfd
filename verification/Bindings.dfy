/** Bindings of chats to agents: the three-level index and the search in it, against a scan of the list for the
    most specific binding that matches. */
module Bindings {
  import opened Options

  const WILDCARD := "*"

  /** agentId is None when it is not a string; the match fields are None when absent. */
  datatype Binding = Binding(
    agentId: Option<string>, channel: Option<string>, accountId: Option<string>, peerId: Option<string>)

  datatype Cell = Cell(channel: string, accountId: string, peerId: string)

  datatype Query = Query(channel: string, accountId: Option<string>, peerId: Option<string>)

  type Table = map<string, map<string, map<string, string>>>

  function OrWildcard(s: Option<string>): (r: string)
    ensures r != ""
  {
    if Falsy(s) then WILDCARD else s.value
  }

  function CellOf(b: Binding): Cell {
    Cell(OrWildcard(b.channel), OrWildcard(b.accountId), OrWildcard(b.peerId))
  }

  predicate Usable(b: Binding) {
    !Falsy(b.agentId)
  }

  function Lookup(table: Table, cell: Cell): Option<string> {
    if cell.channel in table && cell.accountId in table[cell.channel]
       && cell.peerId in table[cell.channel][cell.accountId]
    then Some(table[cell.channel][cell.accountId][cell.peerId])
    else None
  }

  /** The agent of the earliest usable binding for exactly this cell. */
  function FirstFor(list: seq<Binding>, cell: Cell): (r: Option<string>)
    ensures r.Some? ==> r.value != ""
  {
    if list == [] then None
    else if Usable(list[0]) && CellOf(list[0]) == cell then list[0].agentId
    else FirstFor(list[1..], cell)
  }

  lemma {:induction false} FirstForAppend(list: seq<Binding>, b: Binding, cell: Cell)
    ensures FirstFor(list + [b], cell)
         == if FirstFor(list, cell).None? && Usable(b) && CellOf(b) == cell then b.agentId else FirstFor(list, cell)
  {
    if list == [] {
      assert list + [b] == [b];
    } else {
      FirstForAppend(list[1..], b, cell);
      assert (list + [b])[1..] == list[1..] + [b];
    }
  }

  /** table.byChannel[channel] ??= {} and the like, then the first write wins. */
  function Put(table: Table, cell: Cell, agentId: string): (r: Table)
    ensures forall c ::
              Lookup(r, c) == if c == cell && Lookup(table, cell).None? then Some(agentId) else Lookup(table, c)
  {
    var byAccount := if cell.channel in table then table[cell.channel] else map[];
    var byPeer := if cell.accountId in byAccount then byAccount[cell.accountId] else map[];
    var byPeer' := if cell.peerId in byPeer then byPeer else byPeer[cell.peerId := agentId];
    table[cell.channel := byAccount[cell.accountId := byPeer']]
  }

  method LoadBindings(list: seq<Binding>) returns (table: Table)
    ensures forall cell :: Lookup(table, cell) == FirstFor(list, cell)
  {
    table := map[];
    for i := 0 to |list|
      invariant forall cell :: Lookup(table, cell) == FirstFor(list[..i], cell)
    {
      var b := list[i];
      assert list[..i + 1] == list[..i] + [b];
      forall cell ensures FirstFor(list[..i + 1], cell) ==
                          if FirstFor(list[..i], cell).None? && Usable(b) && CellOf(b) == cell then b.agentId
                          else FirstFor(list[..i], cell) {
        FirstForAppend(list[..i], b, cell);
      }
      hide FirstFor, Lookup, CellOf;
      if !Usable(b) { continue; }
      table := Put(table, CellOf(b), b.agentId.value);
    }
    assert list[..|list|] == list;
  }

  // ------------------------------------------------------------------ the search

  predicate Fits(pattern: string, asked: string) {
    pattern == asked || pattern == WILDCARD
  }

  predicate InQuery(cell: Cell, q: Query) {
    && Fits(cell.channel, q.channel)
    && Fits(cell.accountId, OrWildcard(q.accountId))
    && Fits(cell.peerId, OrWildcard(q.peerId))
  }

  /** How specific a cell is for the query: the channel weighs more than the account, that more than the peer. */
  function Rank(cell: Cell, q: Query): nat {
    (if cell.channel == q.channel then 4 else 0)
    + (if cell.accountId == OrWildcard(q.accountId) then 2 else 0)
    + (if cell.peerId == OrWildcard(q.peerId) then 1 else 0)
  }

  /** The value of a cell, where "" counts as no value. */
  function Hit(table: Table, cell: Cell): Option<string> {
    var v := Lookup(table, cell);
    if Falsy(v) then None else v
  }

  function Asked(value: string): seq<string> {
    if value == WILDCARD then [WILDCARD] else [value, WILDCARD]
  }

  /** No cell of the query has a value that is ranked above `rank`. */
  ghost predicate NoneAbove(table: Table, q: Query, rank: int) {
    forall cell :: InQuery(cell, q) && Hit(table, cell).Some? ==> Rank(cell, q) <= rank
  }

  lemma AskedCoversFitting(asked: string)
    ensures forall p :: Fits(p, asked) <==> p in Asked(asked)
  {}

  /** The value of a cell within one channel, and within one account. */
  function AccountHit(byAccount: map<string, map<string, string>>, accountId: string, peerId: string): Option<string> {
    if accountId in byAccount then PeerHit(byAccount[accountId], peerId) else None
  }

  function PeerHit(byPeer: map<string, string>, peerId: string): Option<string> {
    if peerId in byPeer && byPeer[peerId] != "" then Some(byPeer[peerId]) else None
  }

  method ResolveBinding(table: Table, q: Query) returns (hit: Option<string>, ghost at: Cell)
    ensures hit.None? ==> NoneAbove(table, q, -1)
    ensures hit.Some? ==> InQuery(at, q) && Hit(table, at) == hit && NoneAbove(table, q, Rank(at, q))
  {
    HitByChannel(table);
    hide Hit, AccountHit;
    at := Cell("", "", "");
    var channels := [q.channel, WILDCARD];
    for c := 0 to 2
      invariant 0 < c ==> NoneIn(table, q, q.channel)
      invariant 1 < c ==> NoneIn(table, q, WILDCARD)
    {
      if channels[c] !in table { continue; }
      ghost var account, peer;
      hit, account, peer := SearchAccounts(table[channels[c]], q);
      if hit.Some? {
        at := Cell(channels[c], account, peer);
        FirstHitIsHighest(table, q, at);
        return;
      }
    }
    return None, at;
  }

  ghost predicate NoneIn(table: Table, q: Query, channel: string) {
    forall cell :: InQuery(cell, q) && cell.channel == channel ==> Hit(table, cell).None?
  }

  lemma FirstHitIsHighest(table: Table, q: Query, at: Cell)
    requires InQuery(at, q) && Hit(table, at).Some?
    requires at.channel != q.channel ==> NoneIn(table, q, q.channel)
    requires at.accountId != OrWildcard(q.accountId) ==>
               forall p :: Fits(p, OrWildcard(q.peerId)) ==>
                 Hit(table, Cell(at.channel, OrWildcard(q.accountId), p)).None?
    requires at.peerId != OrWildcard(q.peerId) ==>
               Hit(table, Cell(at.channel, at.accountId, OrWildcard(q.peerId))).None?
    ensures NoneAbove(table, q, Rank(at, q))
  {}

  lemma HitByChannel(table: Table)
    ensures forall cell :: Hit(table, cell) ==
              if cell.channel in table then AccountHit(table[cell.channel], cell.accountId, cell.peerId) else None
  {}

  /** The middle loop: the requested account, then any account. */
  method SearchAccounts(byAccount: map<string, map<string, string>>, q: Query)
    returns (hit: Option<string>, ghost account: string, ghost peer: string)
    ensures var (acc, pid) := (OrWildcard(q.accountId), OrWildcard(q.peerId));
            && (hit.None? ==> forall a, p :: Fits(a, acc) && Fits(p, pid) ==> AccountHit(byAccount, a, p).None?)
            && (hit.Some? ==>
                  && Fits(account, acc) && Fits(peer, pid) && AccountHit(byAccount, account, peer) == hit
                  && (forall p :: Fits(p, pid) && account != acc ==> AccountHit(byAccount, acc, p).None?)
                  && (peer != pid ==> AccountHit(byAccount, account, pid).None?))
  {
    account, peer := "", "";
    var accounts := Asked(OrWildcard(q.accountId));
    AskedCoversFitting(OrWildcard(q.accountId));
    for a := 0 to |accounts|
      invariant forall k, p :: 0 <= k < a && Fits(p, OrWildcard(q.peerId)) ==>
                  AccountHit(byAccount, accounts[k], p).None?
    {
      if accounts[a] !in byAccount { continue; }
      hit, peer := SearchPeers(byAccount[accounts[a]], OrWildcard(q.peerId));
      if hit.Some? {
        account := accounts[a];
        assert account != OrWildcard(q.accountId) ==> accounts[0] == OrWildcard(q.accountId) && a != 0;
        return;
      }
    }
    return None, account, peer;
  }

  /** The innermost loop: the requested peer, then any peer. */
  method SearchPeers(byPeer: map<string, string>, asked: string) returns (hit: Option<string>, ghost peer: string)
    ensures hit.None? ==> forall p :: Fits(p, asked) ==> PeerHit(byPeer, p).None?
    ensures hit.Some? ==> Fits(peer, asked) && PeerHit(byPeer, peer) == hit
    ensures hit.Some? && peer != asked ==> PeerHit(byPeer, asked).None?
  {
    peer := "";
    var peers := Asked(asked);
    AskedCoversFitting(asked);
    for p := 0 to |peers|
      invariant forall k :: 0 <= k < p ==> PeerHit(byPeer, peers[k]).None?
    {
      if peers[p] in byPeer && byPeer[peers[p]] != "" {
        peer := peers[p];
        assert peer != asked ==> peers[0] == asked && p != 0;
        return Some(byPeer[peers[p]]), peer;
      }
    }
    return None, peer;
  }

  // ------------------------------------------------------------------ the scan

  predicate Matches(b: Binding, q: Query) {
    Usable(b) && InQuery(CellOf(b), q)
  }

  /** list[i] matches, nothing that matches is more specific, and it is the first as specific as that. */
  ghost predicate IsBest(list: seq<Binding>, q: Query, i: nat) {
    && i < |list| && Matches(list[i], q)
    && forall j :: 0 <= j < |list| && Matches(list[j], q) ==>
         || Rank(CellOf(list[j]), q) < Rank(CellOf(list[i]), q)
         || (Rank(CellOf(list[j]), q) == Rank(CellOf(list[i]), q) && i <= j)
  }

  lemma {:induction false} FirstForIs(list: seq<Binding>, cell: Cell)
    ensures match FirstFor(list, cell)
            case None => forall i :: 0 <= i < |list| ==> !(Usable(list[i]) && CellOf(list[i]) == cell)
            case Some(agentId) =>
              exists i :: && 0 <= i < |list| && Usable(list[i]) && CellOf(list[i]) == cell
                          && list[i].agentId == Some(agentId)
                          && forall j :: 0 <= j < i ==> !(Usable(list[j]) && CellOf(list[j]) == cell)
  {
    if list == [] {
    } else if Usable(list[0]) && CellOf(list[0]) == cell {
      assert list[0].agentId == Some(list[0].agentId.value);
    } else {
      FirstForIs(list[1..], cell);
      hide FirstFor, CellOf, Usable;
      if FirstFor(list[1..], cell).None? {
        forall i | 0 <= i < |list| ensures !(Usable(list[i]) && CellOf(list[i]) == cell) {
          assert i > 0 ==> list[i] == list[1..][i - 1];
        }
      } else {
        var i :| && 0 <= i < |list[1..]| && Usable(list[1..][i]) && CellOf(list[1..][i]) == cell
                 && list[1..][i].agentId == FirstFor(list[1..], cell)
                 && forall j :: 0 <= j < i ==> !(Usable(list[1..][j]) && CellOf(list[1..][j]) == cell);
        assert list[i + 1] == list[1..][i];
        forall j | 0 <= j < i + 1 ensures !(Usable(list[j]) && CellOf(list[j]) == cell) {
          assert j > 0 ==> list[j] == list[1..][j - 1];
        }
      }
    }
  }

  /** Two cells of one query that rank the same are the same. */
  lemma SameRankSameCell(c: Cell, d: Cell, q: Query)
    requires InQuery(c, q) && InQuery(d, q) && Rank(c, q) == Rank(d, q)
    ensures c == d
  {}

  /** Loading the list and resolving in the table is choosing the best binding of the list. */
  method Route(list: seq<Binding>, q: Query) returns (agentId: Option<string>, ghost best: nat)
    ensures agentId.None? ==> forall i :: 0 <= i < |list| ==> !Matches(list[i], q)
    ensures agentId.Some? ==> IsBest(list, q, best) && list[best].agentId == agentId
  {
    var table := LoadBindings(list);
    ghost var at;
    agentId, at := ResolveBinding(table, q);
    best := HitIsBest(list, table, q, agentId, at);
  }

  lemma HitIsBest(list: seq<Binding>, table: Table, q: Query, hit: Option<string>, at: Cell) returns (best: nat)
    requires forall cell :: Lookup(table, cell) == FirstFor(list, cell)
    requires hit.None? ==> NoneAbove(table, q, -1)
    requires hit.Some? ==> InQuery(at, q) && Hit(table, at) == hit && NoneAbove(table, q, Rank(at, q))
    ensures hit.None? ==> forall i :: 0 <= i < |list| ==> !Matches(list[i], q)
    ensures hit.Some? ==> IsBest(list, q, best) && list[best].agentId == hit
  {
    hide FirstFor, CellOf, Usable, Rank, InQuery, Lookup;
    forall i | 0 <= i < |list| && Matches(list[i], q) ensures Hit(table, CellOf(list[i])).Some? {
      FirstForIs(list, CellOf(list[i]));
    }
    if hit.None? { return 0; }
    FirstForIs(list, at);
    best :| && 0 <= best < |list| && Usable(list[best]) && CellOf(list[best]) == at && list[best].agentId == hit
            && forall j :: 0 <= j < best ==> !(Usable(list[j]) && CellOf(list[j]) == at);
    forall j | 0 <= j < |list| && Matches(list[j], q) && Rank(CellOf(list[j]), q) == Rank(at, q) ensures best <= j {
      SameRankSameCell(CellOf(list[j]), at, q);
    }
  }

  // ------------------------------------------------------------------ adding bindings

  lemma {:induction false} FilledCellsStay(list: seq<Binding>, more: seq<Binding>, cell: Cell)
    requires FirstFor(list, cell).Some?
    ensures FirstFor(list + more, cell) == FirstFor(list, cell)
    decreases |more|
  {
    if more == [] {
      assert list + more == list;
    } else {
      FirstForAppend(list, more[0], cell);
      FilledCellsStay(list + [more[0]], more[1..], cell);
      assert list + more == list + [more[0]] + more[1..];
    }
  }

  /** Appended bindings take over a query if and only if one of them matches more specifically. */
  lemma AppendedTakeOverExactly(list: seq<Binding>, more: seq<Binding>, q: Query, best: nat)
    requires IsBest(list, q, best)
    ensures IsBest(list + more, q, best) <==>
            forall j :: 0 <= j < |more| && Matches(more[j], q) ==>
              Rank(CellOf(more[j]), q) <= Rank(CellOf(list[best]), q)
  {
    hide Rank, CellOf, Matches;
    var all := list + more;
    forall j | 0 <= j < |more| ensures more[j] == all[|list| + j] {}
  }
}
