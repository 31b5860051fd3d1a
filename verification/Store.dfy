/**
 * The graph store as a value: the channel map and the inbound index, the operations on them,
 * and the agreement between the two that every run keeps.
 */
module Store {
  import opened Base
  import opened Channels

  /** Inbound[d][s] lists the short channel ids of the channels from `s` to `d`. */
  type Index = map<NodeId, map<NodeId, seq<Scid>>>

  datatype Network = Network(channels: map<ChannelId, ChannelState>, inbound: Index)

  const PRUNING_INTERVAL: nat := 1209600

  /** What a short channel id stands for on chain: two nodes and a capacity. */
  datatype Funding = Funding(a: NodeId, b: NodeId, satoshis: nat)

  type Registry = Scid -> Funding

  /** The input assumption: gossip about a channel always names its two nodes and its capacity. */
  predicate Conforms(reg: Registry, g: Gossip) {
    var f := reg(g.scid);
    && ((g.source == f.a && g.destination == f.b) || (g.source == f.b && g.destination == f.a))
    && g.satoshis == f.satoshis
  }

  function Edge(inbound: Index, d: NodeId, s: NodeId): seq<Scid> {
    if d in inbound && s in inbound[d] then inbound[d][s] else []
  }

  predicate Present(channels: map<ChannelId, ChannelState>, s: NodeId, d: NodeId, scid: Scid) {
    var id := ChannelId(scid, GetDirection(s, d));
    id in channels && channels[id].info.source == s && channels[id].info.destination == d
  }

  ghost predicate Filed(reg: Registry, channels: map<ChannelId, ChannelState>) {
    forall id :: id in channels ==> IdOf(channels[id].info) == id && Conforms(reg, channels[id].info)
  }

  /** Each channel is listed once, under its ends, and nothing else is listed. */
  ghost predicate Indexed(net: Network) {
    forall d, s, scid {:trigger Present(net.channels, s, d, scid)} {:trigger multiset(Edge(net.inbound, d, s))[scid]} ::
      multiset(Edge(net.inbound, d, s))[scid] == if Present(net.channels, s, d, scid) then 1 else 0
  }

  ghost predicate Agrees(reg: Registry, net: Network) {
    Filed(reg, net.channels) && Indexed(net)
  }

  lemma SameIdSameEnds(reg: Registry, g: Gossip, h: Gossip)
    requires Conforms(reg, g) && Conforms(reg, h) && IdOf(g) == IdOf(h)
    ensures g.source == h.source && g.destination == h.destination && g.satoshis == h.satoshis
  {
  }

  // ---------------------------------------------------------------- index operations

  /** `allocate` and append. */
  function InsertIndex(inbound: Index, g: Gossip): Index {
    var d, s := g.destination, g.source;
    var from := if d in inbound then inbound[d] else map[];
    inbound[d := from[s := Edge(inbound, d, s) + [g.scid]]]
  }

  function IndexOf(s: seq<Scid>, x: Scid): (i: nat)
    requires x in s
    ensures i < |s| && s[i] == x && x !in s[..i]
  {
    if s[0] == x then 0 else 1 + IndexOf(s[1..], x)
  }

  /** The last element takes the place of the one removed. */
  function SwapRemove(s: seq<Scid>, i: nat): (r: seq<Scid>)
    requires i < |s|
    ensures multiset(r) == multiset(s) - multiset{s[i]}
  {
    var last := s[|s| - 1];
    var t := s[i := last];
    assert multiset(t) == multiset(s) - multiset{s[i]} + multiset{last};
    assert t == t[..|s| - 1] + [last];
    assert multiset(t) == multiset(t[..|s| - 1]) + multiset{last};
    CancelLast(multiset(t[..|s| - 1]), multiset(s) - multiset{s[i]}, last);
    t[..|s| - 1]
  }

  lemma CancelLast(a: multiset<Scid>, b: multiset<Scid>, x: Scid)
    requires a + multiset{x} == b + multiset{x}
    ensures a == b
  {
    assert forall y :: a[y] == (a + multiset{x})[y] - multiset{x}[y];
    assert forall y :: b[y] == (b + multiset{x})[y] - multiset{x}[y];
  }

  function RemoveIndex(inbound: Index, g: Gossip): Index {
    var edge := Edge(inbound, g.destination, g.source);
    if g.scid in edge then
      inbound[g.destination := inbound[g.destination][g.source := SwapRemove(edge, IndexOf(edge, g.scid))]]
    else inbound
  }

  lemma EdgeAfterInsert(inbound: Index, g: Gossip, d: NodeId, s: NodeId)
    ensures Edge(InsertIndex(inbound, g), d, s)
         == Edge(inbound, d, s) + if d == g.destination && s == g.source then [g.scid] else []
  {
  }

  lemma EdgeAfterRemove(inbound: Index, g: Gossip, d: NodeId, s: NodeId)
    ensures multiset(Edge(RemoveIndex(inbound, g), d, s))
         == multiset(Edge(inbound, d, s)) - if d == g.destination && s == g.source then multiset{g.scid} else multiset{}
  {
  }

  // ---------------------------------------------------------------- store operations

  /** `AddChannel` fills HTLC limits that a loaded file left at zero. */
  function FillLimits(c: ChannelState): ChannelState {
    c.(maxHtlc := if c.maxHtlc == 0 then c.info.htlcMax else c.maxHtlc,
       minHtlc := if c.minHtlc == 0 then c.info.htlcMin else c.minHtlc)
  }

  function FillAll(channels: map<ChannelId, ChannelState>): map<ChannelId, ChannelState> {
    map id | id in channels :: FillLimits(channels[id])
  }

  /** The index of a graph read from file, its channels taken in the order `order`. */
  function IndexAll(channels: map<ChannelId, ChannelState>, order: seq<ChannelId>): Index
    requires forall id :: id in order ==> id in channels
  {
    if order == [] then map[]
    else InsertIndex(IndexAll(channels, order[..|order| - 1]), channels[order[|order| - 1]].info)
  }

  /** One channel of a gossip refresh: beliefs survive, a new channel starts at half its capacity. */
  function RefreshOne(net: Network, g: Gossip): Network {
    var id := IdOf(g);
    if id in net.channels then
      net.(channels := net.channels[id := NewChannelState(g, net.channels[id].liquidity, net.channels[id].timestamp)])
    else
      Network(net.channels[id := NewChannelState(g, HalfCapacity(g), 0)], InsertIndex(net.inbound, g))
  }

  function Refresh(net: Network, gossip: seq<Gossip>): Network {
    if gossip == [] then net
    else RefreshOne(Refresh(net, gossip[..|gossip| - 1]), gossip[|gossip| - 1])
  }

  function Delete(net: Network, g: Gossip): Network {
    Network(net.channels - {IdOf(g)}, RemoveIndex(net.inbound, g))
  }

  predicate Old(c: ChannelState, now: nat) {
    c.info.lastUpdate + PRUNING_INTERVAL < now
  }

  /** Deleting the channels of `order` in that order. */
  function DeleteAll(net: Network, order: seq<ChannelId>): Network {
    if order == [] then net
    else
      var rest := DeleteAll(net, order[..|order| - 1]);
      var id := order[|order| - 1];
      if id in rest.channels then Delete(rest, rest.channels[id].info) else rest
  }

  function Believe(channels: map<ChannelId, ChannelState>, id: ChannelId, liquidity: nat, now: int)
    : map<ChannelId, ChannelState>
  {
    if id in channels then channels[id := channels[id].(liquidity := liquidity, timestamp := now)] else channels
  }

  /** A liquidity update; the opposite direction's 64-bit subtraction may wrap. */
  function Update(net: Network, id: ChannelId, opposite: ChannelId, amount: nat, now: int): Network {
    var one := Believe(net.channels, id, amount, now);
    net.(channels :=
      if opposite in one
      then Believe(one, opposite, (one[opposite].info.satoshis * 1000 - amount) % UINT64, now)
      else one)
  }

  predicate Stale(c: ChannelState, threshold: int, now: int) {
    c.timestamp + threshold < now
  }

  function ResetState(c: ChannelState, at: int): ChannelState {
    c.(liquidity := HalfCapacity(c.info), timestamp := at)
  }

  /** The staleness reset. Each reset reads the clock for itself: `clock(id)` is what it reads. */
  function ResetStale(net: Network, threshold: int, now: int, clock: ChannelId -> int): Network {
    net.(channels := map id | id in net.channels ::
      if Stale(net.channels[id], threshold, now) then ResetState(net.channels[id], clock(id)) else net.channels[id])
  }

  // ---------------------------------------------------------------- agreement

  lemma {:induction false} InsertKeepsIndex(reg: Registry, net: Network, c: ChannelState)
    requires Agrees(reg, net) && Conforms(reg, c.info) && IdOf(c.info) !in net.channels
    ensures Agrees(reg, Network(net.channels[IdOf(c.info) := c], InsertIndex(net.inbound, c.info)))
  {
    var g := c.info;
    var t := Network(net.channels[IdOf(g) := c], InsertIndex(net.inbound, g));
    forall d, s, scid
      ensures multiset(Edge(t.inbound, d, s))[scid] == if Present(t.channels, s, d, scid) then 1 else 0
    {
      EdgeAfterInsert(net.inbound, g, d, s);
      assert multiset(Edge(net.inbound, d, s))[scid] == if Present(net.channels, s, d, scid) then 1 else 0;
    }
  }

  /** After a load, in whatever order, the index agrees with the channels, their limits filled. */
  lemma LoadBuildsIndex(reg: Registry, channels: map<ChannelId, ChannelState>, order: seq<ChannelId>)
    requires Filed(reg, channels) && Distinct(order) && forall id :: id in order <==> id in channels
    ensures Agrees(reg, Network(FillAll(channels), IndexAll(channels, order)))
  {
    LoadedPart(reg, channels, order);
    assert Restrict(channels, order) == channels;
    var read := Network(channels, IndexAll(channels, order));
    BeliefsKeepIndex(reg, read, Network(FillAll(channels), read.inbound));
  }

  function Restrict(channels: map<ChannelId, ChannelState>, order: seq<ChannelId>): (r: map<ChannelId, ChannelState>)
    requires forall id :: id in order ==> id in channels
    ensures forall id :: id in r <==> id in order
    ensures forall id :: id in r ==> r[id] == channels[id]
  {
    if order == [] then map[]
    else
      var id := order[|order| - 1];
      Restrict(channels, order[..|order| - 1])[id := channels[id]]
  }

  lemma {:induction false} LoadedPart(reg: Registry, channels: map<ChannelId, ChannelState>, order: seq<ChannelId>)
    requires Filed(reg, channels) && Distinct(order) && forall id :: id in order ==> id in channels
    ensures Agrees(reg, Network(Restrict(channels, order), IndexAll(channels, order)))
  {
    if order != [] {
      var init, id := order[..|order| - 1], order[|order| - 1];
      LoadedPart(reg, channels, init);
      InsertKeepsIndex(reg, Network(Restrict(channels, init), IndexAll(channels, init)), channels[id]);
    }
  }

  lemma ReplaceKeepsIndex(reg: Registry, net: Network, c: ChannelState)
    requires Agrees(reg, net) && Conforms(reg, c.info) && IdOf(c.info) in net.channels
    ensures Agrees(reg, net.(channels := net.channels[IdOf(c.info) := c]))
  {
    var id := IdOf(c.info);
    SameIdSameEnds(reg, c.info, net.channels[id].info);
    var t := net.(channels := net.channels[id := c]);
    forall d, s, scid
      ensures multiset(Edge(t.inbound, d, s))[scid] == if Present(t.channels, s, d, scid) then 1 else 0
    {
      assert Present(t.channels, s, d, scid) == Present(net.channels, s, d, scid);
    }
  }

  lemma RefreshOneKeepsIndex(reg: Registry, net: Network, g: Gossip)
    requires Agrees(reg, net) && Conforms(reg, g)
    ensures Agrees(reg, RefreshOne(net, g))
  {
    if IdOf(g) in net.channels {
      ReplaceKeepsIndex(reg, net, RefreshOne(net, g).channels[IdOf(g)]);
    } else {
      InsertKeepsIndex(reg, net, NewChannelState(g, HalfCapacity(g), 0));
    }
  }

  lemma {:induction false} RefreshKeepsIndex(reg: Registry, net: Network, gossip: seq<Gossip>)
    requires Agrees(reg, net) && forall g :: g in gossip ==> Conforms(reg, g)
    ensures Agrees(reg, Refresh(net, gossip))
  {
    if gossip != [] {
      RefreshKeepsIndex(reg, net, gossip[..|gossip| - 1]);
      RefreshOneKeepsIndex(reg, Refresh(net, gossip[..|gossip| - 1]), gossip[|gossip| - 1]);
    }
  }

  lemma DeleteKeepsIndex(reg: Registry, net: Network, g: Gossip)
    requires Agrees(reg, net) && Conforms(reg, g)
    ensures Agrees(reg, Delete(net, g))
  {
    var t := Delete(net, g);
    forall d, s, scid
      ensures multiset(Edge(t.inbound, d, s))[scid] == if Present(t.channels, s, d, scid) then 1 else 0
    {
      DeleteCounts(reg, net, g, d, s, scid);
    }
  }

  lemma DeleteCounts(reg: Registry, net: Network, g: Gossip, d: NodeId, s: NodeId, scid: Scid)
    requires Agrees(reg, net) && Conforms(reg, g)
    ensures multiset(Edge(Delete(net, g).inbound, d, s))[scid]
         == if Present(Delete(net, g).channels, s, d, scid) then 1 else 0
  {
    var was := multiset(Edge(net.inbound, d, s));
    assert was[scid] == if Present(net.channels, s, d, scid) then 1 else 0;
    PresentAfterDelete(reg, net, g, d, s, scid);
    EdgeAfterRemove(net.inbound, g, d, s);
  }

  lemma PresentAfterDelete(reg: Registry, net: Network, g: Gossip, d: NodeId, s: NodeId, scid: Scid)
    requires Filed(reg, net.channels) && Conforms(reg, g)
    ensures Present(net.channels - {IdOf(g)}, s, d, scid)
       <==> Present(net.channels, s, d, scid) && !(d == g.destination && s == g.source && scid == g.scid)
  {
    var id := ChannelId(scid, GetDirection(s, d));
    if id == IdOf(g) && id in net.channels { SameIdSameEnds(reg, g, net.channels[id].info); }
  }

  lemma {:induction false} DeleteAllKeepsIndex(reg: Registry, net: Network, order: seq<ChannelId>)
    requires Agrees(reg, net)
    ensures Agrees(reg, DeleteAll(net, order))
    ensures DeleteAll(net, order).channels == net.channels - (set id | id in order)
  {
    if order != [] {
      var init, id := order[..|order| - 1], order[|order| - 1];
      DeleteAllKeepsIndex(reg, net, init);
      var rest := DeleteAll(net, init);
      if id in rest.channels { DeleteKeepsIndex(reg, rest, rest.channels[id].info); }
      assert order == init + [id];
      assert (set x | x in order) == (set x | x in init) + {id};
    }
  }

  /** Changing beliefs changes neither keys nor gossip, so the index still agrees. */
  lemma BeliefsKeepIndex(reg: Registry, net: Network, t: Network)
    requires Agrees(reg, net) && t.inbound == net.inbound && t.channels.Keys == net.channels.Keys
    requires forall id :: id in net.channels ==> t.channels[id].info == net.channels[id].info
    ensures Agrees(reg, t)
  {
    forall d, s, scid
      ensures multiset(Edge(t.inbound, d, s))[scid] == if Present(t.channels, s, d, scid) then 1 else 0
    {
      assert Present(t.channels, s, d, scid) == Present(net.channels, s, d, scid);
    }
  }

  /**
   * Walking Inbound[u] meets exactly the channels into `u` that a scan of all channels would,
   * each once; the lookup of a walked channel never fails.
   */
  lemma WalkIsScan(reg: Registry, net: Network, v: NodeId, u: NodeId)
    requires Agrees(reg, net)
    ensures forall scid :: scid in Edge(net.inbound, u, v) <==>
              (exists id :: id in net.channels && id.scid == scid
                            && net.channels[id].info.source == v && net.channels[id].info.destination == u)
    ensures forall scid :: scid in Edge(net.inbound, u, v) ==>
              ChannelId(scid, GetDirection(v, u)) in net.channels
    ensures forall i, j :: 0 <= i < j < |Edge(net.inbound, u, v)| ==>
              Edge(net.inbound, u, v)[i] != Edge(net.inbound, u, v)[j]
  {
    var edge := Edge(net.inbound, u, v);
    forall scid
      ensures scid in edge <==> Present(net.channels, v, u, scid)
      ensures scid in edge <==>
                (exists id :: id in net.channels && id.scid == scid
                              && net.channels[id].info.source == v && net.channels[id].info.destination == u)
    {
      assert multiset(edge)[scid] == if Present(net.channels, v, u, scid) then 1 else 0;
      if id :| id in net.channels && id.scid == scid
               && net.channels[id].info.source == v && net.channels[id].info.destination == u {
        assert id == ChannelId(scid, GetDirection(v, u));
      }
      if Present(net.channels, v, u, scid) {
        assert ChannelId(scid, GetDirection(v, u)) in net.channels;
      }
    }
    forall i, j | 0 <= i < j < |edge| ensures edge[i] != edge[j] {
      if edge[i] == edge[j] { TwiceCounted(edge, i, j); }
      assert multiset(edge)[edge[i]] <= 1 by {
        assert multiset(edge)[edge[i]] == if Present(net.channels, v, u, edge[i]) then 1 else 0;
      }
    }
  }

  lemma TwiceCounted(s: seq<Scid>, i: nat, j: nat)
    requires i < j < |s| && s[i] == s[j]
    ensures multiset(s)[s[i]] >= 2
  {
    assert s == s[..j] + [s[j]] + s[j + 1..];
    assert s[i] in s[..j];
  }

  // ---------------------------------------------------------------- outcome of a refresh

  /** A gossip refresh changes no channel it does not mention. */
  lemma {:induction false} RefreshUnmentioned(net: Network, gossip: seq<Gossip>, id: ChannelId)
    requires forall g :: g in gossip ==> IdOf(g) != id
    ensures id in Refresh(net, gossip).channels <==> id in net.channels
    ensures id in net.channels ==> Refresh(net, gossip).channels[id] == net.channels[id]
  {
    if gossip != [] { RefreshUnmentioned(net, gossip[..|gossip| - 1], id); }
  }

  lemma {:induction false} RefreshKeepsBelief(net: Network, gossip: seq<Gossip>, id: ChannelId)
    requires id in net.channels
    ensures var c := Refresh(net, gossip).channels;
            id in c && c[id].liquidity == net.channels[id].liquidity && c[id].timestamp == net.channels[id].timestamp
  {
    if gossip != [] { RefreshKeepsBelief(net, gossip[..|gossip| - 1], id); }
  }

  lemma {:induction false} RefreshNewBelief(net: Network, gossip: seq<Gossip>, id: ChannelId, satoshis: nat)
    requires id !in net.channels && forall g :: g in gossip && IdOf(g) == id ==> g.satoshis == satoshis
    ensures var c := Refresh(net, gossip).channels;
            id in c ==> c[id].liquidity == 500 * satoshis && c[id].timestamp == 0
  {
    if gossip != [] { RefreshNewBelief(net, gossip[..|gossip| - 1], id, satoshis); }
  }

  /** The last word of gossip about a channel is what the store holds, limits included; beliefs are not gossip. */
  lemma RefreshIsCurrent(reg: Registry, net: Network, gossip: seq<Gossip>, i: nat)
    requires i < |gossip| && (forall g :: g in gossip ==> Conforms(reg, g)) && Filed(reg, net.channels)
    requires forall j :: i < j < |gossip| ==> IdOf(gossip[j]) != IdOf(gossip[i])
    ensures var g, id := gossip[i], IdOf(gossip[i]);
            var c := Refresh(net, gossip).channels;
            && id in c && c[id].info == g && c[id].minHtlc == g.htlcMin && c[id].maxHtlc == g.htlcMax
            && c[id].liquidity == (if id in net.channels then net.channels[id].liquidity else 500 * g.satoshis)
            && c[id].timestamp == (if id in net.channels then net.channels[id].timestamp else 0)
  {
    var g, id := gossip[i], IdOf(gossip[i]);
    RefreshLast(net, gossip, i);
    if id in net.channels {
      RefreshKeepsBelief(net, gossip, id);
    } else {
      forall h | h in gossip && IdOf(h) == id ensures h.satoshis == g.satoshis { SameIdSameEnds(reg, g, h); }
      RefreshNewBelief(net, gossip, id, g.satoshis);
    }
  }

  lemma {:induction false} RefreshLast(net: Network, gossip: seq<Gossip>, i: nat)
    requires i < |gossip| && forall j :: i < j < |gossip| ==> IdOf(gossip[j]) != IdOf(gossip[i])
    ensures var g, id := gossip[i], IdOf(gossip[i]);
            var c := Refresh(net, gossip).channels;
            id in c && c[id].info == g && c[id].minHtlc == g.htlcMin && c[id].maxHtlc == g.htlcMax
  {
    if i < |gossip| - 1 { RefreshLast(net, gossip[..|gossip| - 1], i); }
  }

  // ---------------------------------------------------------------- beliefs and their age

  /**
   * An update sets what is believed of one direction, the 64-bit rest of the capacity for the other,
   * and the time for both; each for itself, whether or not the other is known.
   */
  lemma UpdateSets(net: Network, id: ChannelId, opposite: ChannelId, amount: nat, now: int, x: ChannelId)
    requires id != opposite && x in net.channels
    ensures var c, d := net.channels[x], Update(net, id, opposite, amount, now).channels;
            && d.Keys == net.channels.Keys
            && d[x].info == c.info && d[x].maxHtlc == c.maxHtlc && d[x].minHtlc == c.minHtlc
            && (x == id ==> d[x].liquidity == amount && d[x].timestamp == now)
            && (x == opposite ==>
                  && d[x].liquidity == (1000 * c.info.satoshis - amount) % 0x1_0000_0000_0000_0000
                  && d[x].timestamp == now)
            && (x != id && x != opposite ==> d[x] == c)
  {
  }

  /** A belief survives a staleness reset exactly if it is no older than the threshold; else it is half the capacity. */
  lemma ResetByAge(net: Network, threshold: int, now: int, clock: ChannelId -> int, id: ChannelId)
    requires id in net.channels
    ensures var c, d := net.channels[id], ResetStale(net, threshold, now, clock).channels;
            && id in d && d[id].info == c.info && d[id].maxHtlc == c.maxHtlc && d[id].minHtlc == c.minHtlc
            && (now - c.timestamp <= threshold ==> d[id] == c)
            && (now - c.timestamp > threshold ==>
                  d[id].liquidity == 500 * c.info.satoshis && d[id].timestamp == clock(id))
  {
  }

  /** What an update learned is what a later staleness reset leaves, until it is older than the threshold. */
  lemma LearnedLastsUntilStale(net: Network, id: ChannelId, opposite: ChannelId, amount: nat, learned: int,
                               threshold: int, now: int, clock: ChannelId -> int)
    requires id in net.channels && id != opposite
    ensures var c := ResetStale(Update(net, id, opposite, amount, learned), threshold, now, clock).channels;
            && id in c
            && c[id].liquidity == (if now <= learned + threshold then amount else 500 * net.channels[id].info.satoshis)
            && c[id].timestamp == (if now <= learned + threshold then learned else clock(id))
  {
    UpdateSets(net, id, opposite, amount, learned, id);
    ResetByAge(Update(net, id, opposite, amount, learned), threshold, now, clock, id);
  }

  // ---------------------------------------------------------------- pruning by age

  /** `order` lists the channels a prune at time `now` deletes. */
  ghost predicate PruneOrder(net: Network, order: seq<ChannelId>, now: nat) {
    forall id :: id in order <==> id in net.channels && Old(net.channels[id], now)
  }

  /** A prune keeps exactly the channels updated within the last 14 days, and keeps them as they are. */
  lemma PrunedByAge(reg: Registry, net: Network, order: seq<ChannelId>, now: nat, id: ChannelId)
    requires Agrees(reg, net) && PruneOrder(net, order, now)
    ensures var c := DeleteAll(net, order).channels;
            && (id in c <==> id in net.channels && now - net.channels[id].info.lastUpdate <= 1209600)
            && (id in c ==> c[id] == net.channels[id])
  {
    DeleteAllKeepsIndex(reg, net, order);
  }

  /** The last word of gossip about channel `id`, after what was known of it. */
  function LastWord(known: Option<Gossip>, gossip: seq<Gossip>, id: ChannelId): Option<Gossip> {
    if gossip == [] then known
    else if IdOf(gossip[|gossip| - 1]) == id then Some(gossip[|gossip| - 1])
    else LastWord(known, gossip[..|gossip| - 1], id)
  }

  function Known(net: Network, id: ChannelId): Option<Gossip> {
    if id in net.channels then Some(net.channels[id].info) else None
  }

  lemma {:induction false} RefreshKnows(net: Network, gossip: seq<Gossip>, id: ChannelId)
    ensures Known(Refresh(net, gossip), id) == LastWord(Known(net, id), gossip, id)
  {
    if gossip != [] { RefreshKnows(net, gossip[..|gossip| - 1], id); }
  }

  /** A gossip refresh and the prune after it, at time `now`. */
  datatype Round = Round(gossip: seq<Gossip>, order: seq<ChannelId>, now: nat)

  function AfterRounds(net: Network, rounds: seq<Round>): Network {
    if rounds == [] then net
    else
      var last := rounds[|rounds| - 1];
      DeleteAll(Refresh(AfterRounds(net, rounds[..|rounds| - 1]), last.gossip), last.order)
  }

  /** Each prune deletes the old channels, gossip conforms, and the clock does not go back. */
  ghost predicate ProperRounds(reg: Registry, net: Network, rounds: seq<Round>) {
    rounds == [] ||
    var init, last := rounds[..|rounds| - 1], rounds[|rounds| - 1];
    && ProperRounds(reg, net, init)
    && (forall g :: g in last.gossip ==> Conforms(reg, g))
    && PruneOrder(Refresh(AfterRounds(net, init), last.gossip), last.order, last.now)
    && (init != [] ==> init[|init| - 1].now <= last.now)
  }

  /** The last word of gossip about `id` in all rounds. */
  function LastHeard(net: Network, rounds: seq<Round>, id: ChannelId): Option<Gossip> {
    if rounds == [] then Known(net, id)
    else LastWord(LastHeard(net, rounds[..|rounds| - 1], id), rounds[|rounds| - 1].gossip, id)
  }

  /** Whatever was known is forgotten or replaced in the same way. */
  lemma {:induction false} LastWordOf(a: Option<Gossip>, b: Option<Gossip>, gossip: seq<Gossip>, id: ChannelId)
    ensures LastWord(a, gossip, id) == LastWord(b, gossip, id)
         || (LastWord(a, gossip, id) == a && LastWord(b, gossip, id) == b)
  {
    if gossip != [] { LastWordOf(a, b, gossip[..|gossip| - 1], id); }
  }

  predicate Recent(g: Option<Gossip>, now: nat) {
    g.Some? && now - g.value.lastUpdate <= 1209600
  }

  /**
   * After any rounds of refresh and prune a channel is known exactly if the last word of gossip about
   * it is at most 14 days old, and then by that record.
   */
  lemma {:induction false} KnownIffHeardRecently(reg: Registry, net: Network, rounds: seq<Round>, id: ChannelId)
    requires Agrees(reg, net) && rounds != [] && ProperRounds(reg, net, rounds)
    ensures Agrees(reg, AfterRounds(net, rounds))
    ensures Known(AfterRounds(net, rounds), id)
         == if Recent(LastHeard(net, rounds, id), rounds[|rounds| - 1].now) then LastHeard(net, rounds, id) else None
  {
    hide Agrees, Conforms, IdOf;
    var init, last := rounds[..|rounds| - 1], rounds[|rounds| - 1];
    var was := AfterRounds(net, init);
    if init != [] { KnownIffHeardRecently(reg, net, init, id); }
    RefreshKeepsIndex(reg, was, last.gossip);
    RefreshKnows(was, last.gossip, id);
    PrunedByAge(reg, Refresh(was, last.gossip), last.order, last.now, id);
    DeleteAllKeepsIndex(reg, Refresh(was, last.gossip), last.order);
    LastWordOf(Known(was, id), LastHeard(net, init, id), last.gossip, id);
  }

  // ---------------------------------------------------------------- runs

  datatype Op =
    | RefreshOp(gossip: seq<Gossip>)
    | DeleteOp(g: Gossip)
    | PruneOp(order: seq<ChannelId>)
    | UpdateOp(id: ChannelId, opposite: ChannelId, amount: nat, now: int)
    | ResetOp(threshold: int, at: int, clock: ChannelId -> int)

  ghost predicate OpConforms(reg: Registry, op: Op) {
    match op
    case RefreshOp(gossip) => forall g :: g in gossip ==> Conforms(reg, g)
    case DeleteOp(g) => Conforms(reg, g)
    case _ => true
  }

  function Apply(net: Network, op: Op): Network {
    match op
    case RefreshOp(gossip) => Refresh(net, gossip)
    case DeleteOp(g) => Delete(net, g)
    case PruneOp(order) => DeleteAll(net, order)
    case UpdateOp(id, opposite, amount, now) => Update(net, id, opposite, amount, now)
    case ResetOp(threshold, at, clock) => ResetStale(net, threshold, at, clock)
  }

  function Run(net: Network, ops: seq<Op>): Network
    decreases |ops|
  {
    if ops == [] then net else Run(Apply(net, ops[0]), ops[1..])
  }

  /** All HTLC limits are those of gossip. */
  ghost predicate GossipLimits(channels: map<ChannelId, ChannelState>) {
    forall id :: id in channels ==> KeepsLimits(channels[id])
  }

  /** The channels as a file has them: HTLC limits are not saved. */
  function AsSaved(channels: map<ChannelId, ChannelState>): map<ChannelId, ChannelState> {
    map id | id in channels :: channels[id].(maxHtlc := 0, minHtlc := 0)
  }

  /** A load restores the limits that were not saved, exactly if they were those of gossip. */
  lemma LoadRestoresIff(channels: map<ChannelId, ChannelState>)
    ensures FillAll(AsSaved(channels)) == channels <==> GossipLimits(channels)
  {
    if FillAll(AsSaved(channels)) == channels {
      forall id | id in channels ensures KeepsLimits(channels[id]) {
        assert channels[id] == FillLimits(AsSaved(channels)[id]);
      }
    }
  }

  lemma {:induction false} RefreshKeepsLimits(net: Network, gossip: seq<Gossip>)
    requires GossipLimits(net.channels)
    ensures GossipLimits(Refresh(net, gossip).channels)
  {
    if gossip != [] { RefreshKeepsLimits(net, gossip[..|gossip| - 1]); }
  }

  lemma {:induction false} DeleteAllKeepsLimits(net: Network, order: seq<ChannelId>)
    requires GossipLimits(net.channels)
    ensures GossipLimits(DeleteAll(net, order).channels)
  {
    if order != [] { DeleteAllKeepsLimits(net, order[..|order| - 1]); }
  }

  /** Over every run the HTLC limits the search checks are those of the gossip record held. */
  lemma {:induction false} RunKeepsLimits(net: Network, ops: seq<Op>)
    requires GossipLimits(net.channels)
    ensures GossipLimits(Run(net, ops).channels)
    decreases |ops|
  {
    if ops != [] {
      match ops[0] {
        case RefreshOp(gossip) => RefreshKeepsLimits(net, gossip);
        case PruneOp(order) => DeleteAllKeepsLimits(net, order);
        case _ =>
      }
      RunKeepsLimits(Apply(net, ops[0]), ops[1..]);
    }
  }

  lemma ApplyKeepsIndex(reg: Registry, net: Network, op: Op)
    requires Agrees(reg, net) && OpConforms(reg, op)
    ensures Agrees(reg, Apply(net, op))
  {
    match op
    case RefreshOp(gossip) => RefreshKeepsIndex(reg, net, gossip);
    case DeleteOp(g) => DeleteKeepsIndex(reg, net, g);
    case PruneOp(order) => DeleteAllKeepsIndex(reg, net, order);
    case _ => BeliefsKeepIndex(reg, net, Apply(net, op));
  }

  /** Index agreement over every run of refreshes, deletes, prunes and belief changes. */
  lemma {:induction false} RunKeepsIndex(reg: Registry, net: Network, ops: seq<Op>)
    requires Agrees(reg, net) && forall op :: op in ops ==> OpConforms(reg, op)
    ensures Agrees(reg, Run(net, ops))
    decreases |ops|
  {
    if ops != [] {
      ApplyKeepsIndex(reg, net, ops[0]);
      RunKeepsIndex(reg, Apply(net, ops[0]), ops[1..]);
    }
  }
}
