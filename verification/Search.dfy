/**
 * The search for a cheapest route as a transition system on values: labels, the label tree,
 * the queue, and what each step of the search keeps.
 *
 * The search runs backwards from `dst`. The label of a node is the total fee of a route from
 * it to `dst`; since the amount at a node is the searched amount plus its label, the fee of
 * the next channel depends on the label.
 */
module Search {
  import opened Base
  import opened Channels
  import opened Fees
  import opened Routes

  /** The search's infinity: no route this dear is ever found. */
  const MAX_DISTANCE: int := 0x8000_0000

  datatype Query = Query(
    channels: map<ChannelId, ChannelState>, nodes: set<NodeId>,
    src: NodeId, dst: NodeId, amount: nat, exclude: set<NodeId>, maxHops: int)

  datatype PqItem = PqItem(node: NodeId, amount: nat, delay: nat, hops: nat)

  datatype Entry = Entry(value: PqItem, priority: int)

  /**
   * `distance`, `hop` and `queue` are the program's; `depth` is the hop count of each label,
   * `expanded` and `cut` the nodes taken from the queue and followed up or dropped for their
   * hop count, `floor` the last priority taken.
   */
  datatype SearchState = SearchState(
    distance: map<NodeId, int>, hop: map<NodeId, RouteHop>, queue: multiset<Entry>,
    depth: map<NodeId, nat>, expanded: set<NodeId>, cut: set<NodeId>,
    floor: int)

  /** Go reads a missing key of the distance map as 0. */
  function DistanceOf(distance: map<NodeId, int>, v: NodeId): int {
    if v in distance then distance[v] else 0
  }

  /** Every channel is filed under its own id and ends in a known node. */
  ghost predicate WellFormed(q: Query) {
    forall id :: id in q.channels ==>
      IdOf(q.channels[id].info) == id && q.channels[id].info.destination in q.nodes
  }

  // ---------------------------------------------------------------- invariant

  ghost predicate Labels(q: Query, s: SearchState) {
    && q.dst in q.nodes
    && (forall v :: v in s.distance <==> v in q.nodes)
    && (forall v :: v in q.nodes ==> 0 <= s.distance[v] <= MAX_DISTANCE)
    && s.distance[q.dst] == 0
    && q.dst !in s.hop
    && (forall v :: v in s.depth <==> v in s.hop || v == q.dst)
    && (forall v :: v in s.depth ==> v in q.nodes)
    && s.depth[q.dst] == 0
    && (forall v :: v in q.nodes ==> (v in s.depth <==> s.distance[v] < MAX_DISTANCE))
  }

  ghost function DelayTo(q: Query, s: SearchState, v: NodeId): nat
    requires Labels(q, s) && v in s.depth
  {
    if v == q.dst then 0 else s.hop[v].delay
  }

  /** The queue entry that stands for the current label of `v`. */
  ghost function LabelEntry(q: Query, s: SearchState, v: NodeId): Entry
    requires Labels(q, s) && v in s.depth
  {
    Entry(PqItem(v, q.amount + s.distance[v], DelayTo(q, s, v), s.depth[v]), s.distance[v])
  }

  /** The hop of `v` leads over a usable channel to an expanded node and accounts for its label. */
  ghost predicate TreeEdge(q: Query, s: SearchState, v: NodeId)
    requires Labels(q, s) && v in s.hop
  {
    var h := s.hop[v];
    var c := h.channel;
    var u := c.info.destination;
    && IdOf(c.info) in q.channels && q.channels[IdOf(c.info)] == c
    && c.info.source == v && v !in q.exclude
    && u in s.expanded && u in s.depth
    && CanForward(c, q.amount + s.distance[u])
    && s.distance[v] == s.distance[u] + ComputeFee(c.info, q.amount + s.distance[u])
    && s.depth[v] == s.depth[u] + 1
    && h.amount == q.amount + s.distance[v]
    && h.delay == DelayTo(q, s, u) + c.info.delay
  }

  ghost predicate Tree(q: Query, s: SearchState)
    requires Labels(q, s)
  {
    forall v {:trigger TreeEdge(q, s, v)} :: v in s.hop ==> TreeEdge(q, s, v)
  }

  ghost predicate Settled(s: SearchState, v: NodeId) {
    v in s.expanded || v in s.cut
  }

  ghost predicate Progress(q: Query, s: SearchState)
    requires Labels(q, s)
  {
    && 0 <= s.floor
    && (forall u :: Settled(s, u) ==> u in s.depth)
    && (forall u :: u in s.expanded ==> u !in s.cut)
    && !Settled(s, q.src)
    && (forall u :: u in s.expanded ==> s.depth[u] < q.maxHops)
    && (forall u :: u in s.cut ==> s.depth[u] >= q.maxHops)
    && (forall u :: u in s.depth && Settled(s, u) ==> s.distance[u] <= s.floor)
  }

  /** Channel `id` offers no better label for its source. */
  ghost predicate RelaxedAt(q: Query, s: SearchState, id: ChannelId)
    requires Labels(q, s) && id in q.channels
  {
    var c := q.channels[id];
    var u, v := c.info.destination, c.info.source;
    && v in q.nodes && v !in q.exclude && u in q.nodes && CanForward(c, q.amount + s.distance[u])
    ==> s.distance[v] <= s.distance[u] + ComputeFee(c.info, q.amount + s.distance[u])
  }

  /** `todo` are the channels still to be looked at. */
  ghost predicate Relaxed(q: Query, s: SearchState, todo: set<ChannelId>)
    requires Labels(q, s)
  {
    forall id {:trigger RelaxedAt(q, s, id)} ::
      id in q.channels && id !in todo && q.channels[id].info.destination in s.expanded ==> RelaxedAt(q, s, id)
  }

  ghost predicate EntryOk(q: Query, s: SearchState, e: Entry)
    requires Labels(q, s)
  {
    var v := e.value.node;
    && v in s.depth
    && e.priority >= s.floor
    && e.priority >= s.distance[v]
    && (e.priority == s.distance[v] ==>
          e == LabelEntry(q, s, v) && !Settled(s, v) && s.queue[e] == 1)
  }

  ghost predicate Queued(q: Query, s: SearchState)
    requires Labels(q, s)
  {
    && (forall e {:trigger EntryOk(q, s, e)} :: e in s.queue ==> EntryOk(q, s, e))
    && (forall v {:trigger LabelEntry(q, s, v)} :: v in s.depth && !Settled(s, v) ==> LabelEntry(q, s, v) in s.queue)
  }

  ghost predicate Inv(q: Query, s: SearchState, todo: set<ChannelId>) {
    WellFormed(q) && Labels(q, s) && Tree(q, s) && Progress(q, s) && Relaxed(q, s, todo) && Queued(q, s)
  }

  // ---------------------------------------------------------------- steps

  ghost function Start(q: Query): SearchState {
    SearchState(
      (map v | v in q.nodes :: if v == q.dst then 0 else MAX_DISTANCE),
      map[], multiset{Entry(PqItem(q.dst, q.amount, 0, 0), 0)},
      map[q.dst := 0], {}, {}, 0)
  }

  lemma StartInv(q: Query)
    requires WellFormed(q) && q.dst in q.nodes
    ensures Inv(q, Start(q), {})
  {
  }

  ghost function Without(s: SearchState, e: Entry): SearchState {
    s.(queue := s.queue - multiset{e})
  }

  ghost predicate SameLabels(s: SearchState, t: SearchState) {
    t.distance == s.distance && t.hop == s.hop && t.depth == s.depth
  }

  lemma KeepTree(q: Query, s: SearchState, t: SearchState)
    requires Labels(q, s) && Tree(q, s) && SameLabels(s, t) && s.expanded <= t.expanded
    ensures Labels(q, t) && Tree(q, t)
  {
    hide ComputeFee, CanForward, IdOf;
    forall v | v in t.hop ensures TreeEdge(q, t, v) { assert TreeEdge(q, s, v); }
  }

  lemma KeepRelaxed(q: Query, s: SearchState, t: SearchState, todo: set<ChannelId>)
    requires Labels(q, s) && Labels(q, t) && Relaxed(q, s, {}) && SameLabels(s, t)
    requires forall id :: id in q.channels && id !in todo && q.channels[id].info.destination in t.expanded ==>
               q.channels[id].info.destination in s.expanded
    ensures Relaxed(q, t, todo)
  {
    hide ComputeFee, CanForward, IdOf;
    forall id | id in q.channels && id !in todo && q.channels[id].info.destination in t.expanded
      ensures RelaxedAt(q, t, id) { assert RelaxedAt(q, s, id); }
  }

  /** The queue after one entry was taken out and, perhaps, the node it stood for settled. */
  lemma KeepQueued(q: Query, s: SearchState, e: Entry, t: SearchState)
    requires Labels(q, s) && Labels(q, t) && Queued(q, s) && SameLabels(s, t)
    requires e in s.queue && t.queue == s.queue - multiset{e}
    requires t.floor == s.floor || (Least(s.queue, e) && t.floor == e.priority)
    requires var u := e.value.node;
             if e.priority == DistanceOf(s.distance, u)
             then forall v :: Settled(t, v) <==> Settled(s, v) || v == u
             else forall v :: Settled(t, v) <==> Settled(s, v)
    ensures Queued(q, t)
  {
    assert EntryOk(q, s, e);
    forall x | x in t.queue ensures EntryOk(q, t, x) {
      assert x in s.queue && EntryOk(q, s, x);
    }
    forall v | v in t.depth && !Settled(t, v) ensures LabelEntry(q, t, v) in t.queue {
      assert LabelEntry(q, s, v) in s.queue && LabelEntry(q, t, v) == LabelEntry(q, s, v) != e;
    }
  }

  ghost predicate Least(queue: multiset<Entry>, e: Entry) {
    e in queue && forall x :: x in queue ==> e.priority <= x.priority
  }

  /** A stale entry is dropped. */
  lemma SkipInv(q: Query, s: SearchState, e: Entry)
    requires Inv(q, s, {}) && e in s.queue && e.priority > DistanceOf(s.distance, e.value.node)
    ensures Inv(q, Without(s, e), {})
  {
    var t := Without(s, e);
    KeepTree(q, s, t);
    KeepRelaxed(q, s, t, {});
    KeepQueued(q, s, e, t);
  }

  /** The entry is the least in the queue and stands for the current label of its node. */
  ghost predicate Live(s: SearchState, e: Entry) {
    Least(s.queue, e) && e.priority == DistanceOf(s.distance, e.value.node)
  }

  lemma LiveEntry(q: Query, s: SearchState, e: Entry)
    requires Inv(q, s, {}) && e in s.queue
    ensures var v := e.value.node;
            v in s.depth && s.floor <= e.priority && s.distance[v] <= e.priority
    ensures e.priority == DistanceOf(s.distance, e.value.node) ==>
              e == LabelEntry(q, s, e.value.node) && !Settled(s, e.value.node)
  {
    assert EntryOk(q, s, e);
  }

  /** Node `u`, taken from the queue with its current label, is dropped for its hop count. */
  ghost function Drop(s: SearchState, e: Entry): SearchState {
    Without(s, e).(cut := s.cut + {e.value.node}, floor := e.priority)
  }

  lemma DropInv(q: Query, s: SearchState, e: Entry)
    requires Inv(q, s, {}) && Live(s, e) && e.value.node != q.src && e.value.hops >= q.maxHops
    ensures Inv(q, Drop(s, e), {})
  {
    var t := Drop(s, e);
    LiveEntry(q, s, e);
    KeepTree(q, s, t);
    KeepRelaxed(q, s, t, {});
    KeepQueued(q, s, e, t);
  }

  /** Node `u`, taken from the queue with its current label, is followed up. */
  ghost function Expand(s: SearchState, e: Entry): SearchState {
    Without(s, e).(expanded := s.expanded + {e.value.node}, floor := e.priority)
  }

  /** The channels into `u`. */
  ghost function Into(q: Query, u: NodeId): set<ChannelId> {
    set id | id in q.channels && q.channels[id].info.destination == u
  }

  /** Node `u` is being expanded: it holds the last priority taken. */
  ghost predicate Expanding(q: Query, s: SearchState, u: NodeId, todo: set<ChannelId>) {
    Inv(q, s, todo) && u in s.expanded && u in s.depth && s.floor == s.distance[u]
  }

  lemma ExpandInv(q: Query, s: SearchState, e: Entry)
    requires Inv(q, s, {}) && Live(s, e) && e.value.node != q.src && e.value.hops < q.maxHops
    ensures Expanding(q, Expand(s, e), e.value.node, Into(q, e.value.node))
  {
    var t := Expand(s, e);
    LiveEntry(q, s, e);
    KeepTree(q, s, t);
    KeepRelaxed(q, s, t, Into(q, e.value.node));
    KeepQueued(q, s, e, t);
  }

  /** The state once `v` is labelled anew over channel `c`. */
  ghost function Relabel(q: Query, s: SearchState, c: ChannelState): SearchState
    requires Labels(q, s) && c.info.destination in s.depth
  {
    var u, v := c.info.destination, c.info.source;
    var d := s.distance[u] + ComputeFee(c.info, q.amount + s.distance[u]);
    var item := PqItem(v, q.amount + d, DelayTo(q, s, u) + c.info.delay, s.depth[u] + 1);
    s.(distance := s.distance[v := d],
       hop := s.hop[v := RouteHop(c, item.amount, item.delay)],
       depth := s.depth[v := item.hops],
       queue := s.queue + multiset{Entry(item, d)})
  }

  /** The channel is usable where the search stands and gives its source a lower label. */
  ghost predicate Improves(q: Query, s: SearchState, c: ChannelState)
    requires Labels(q, s) && c.info.destination in s.depth
  {
    var u, v := c.info.destination, c.info.source;
    var amount := q.amount + s.distance[u];
    && v !in q.exclude
    && CanForward(c, amount)
    && s.distance[u] + ComputeFee(c.info, amount) < DistanceOf(s.distance, v)
  }

  /** Looking at one channel into the node being expanded. */
  ghost function Relax(q: Query, s: SearchState, c: ChannelState): SearchState
    requires Labels(q, s) && c.info.destination in s.depth
  {
    if Improves(q, s, c) then Relabel(q, s, c) else s
  }

  /** A better label belongs to a node not settled yet and is lower than everything queued for it. */
  lemma BetterLabel(q: Query, s: SearchState, c: ChannelState, todo: set<ChannelId>)
    requires Expanding(q, s, c.info.destination, todo) && Improves(q, s, c)
    ensures var v, t := c.info.source, Relabel(q, s, c);
            && v in q.nodes && v != q.dst && !Settled(s, v) && v != c.info.destination
            && s.floor <= t.distance[v] < s.distance[v] <= MAX_DISTANCE
            && (forall e :: e in s.queue && e.value.node == v ==> e.priority > t.distance[v])
  {
    forall e | e in s.queue ensures EntryOk(q, s, e) {}
  }

  lemma RelabelLabels(q: Query, s: SearchState, c: ChannelState, todo: set<ChannelId>)
    requires Expanding(q, s, c.info.destination, todo) && Improves(q, s, c)
    ensures var t := Relabel(q, s, c);
            Labels(q, t) && Progress(q, t) && t.distance[c.info.destination] == s.distance[c.info.destination]
  {
    hide ComputeFee, CanForward, IdOf;
    BetterLabel(q, s, c, todo);
  }

  lemma RelabelTree(q: Query, s: SearchState, c: ChannelState, todo: set<ChannelId>)
    requires Expanding(q, s, c.info.destination, todo) && Improves(q, s, c)
    requires IdOf(c.info) in q.channels && q.channels[IdOf(c.info)] == c
    ensures Labels(q, Relabel(q, s, c)) && Tree(q, Relabel(q, s, c))
  {
    hide ComputeFee, CanForward, IdOf;
    BetterLabel(q, s, c, todo);
    RelabelLabels(q, s, c, todo);
    var t := Relabel(q, s, c);
    forall v | v in t.hop ensures TreeEdge(q, t, v) {
      if v != c.info.source {
        RelabelEdge(q, s, c, todo, v);
      }
    }
  }

  /** The tree edges of other nodes do not notice: their parents are expanded. */
  lemma RelabelEdge(q: Query, s: SearchState, c: ChannelState, todo: set<ChannelId>, v: NodeId)
    requires Expanding(q, s, c.info.destination, todo) && Improves(q, s, c)
    requires v in s.hop && v != c.info.source
    ensures Labels(q, Relabel(q, s, c)) && TreeEdge(q, Relabel(q, s, c), v)
  {
    hide ComputeFee, CanForward, IdOf;
    BetterLabel(q, s, c, todo);
    RelabelLabels(q, s, c, todo);
    assert TreeEdge(q, s, v);
  }

  lemma RelabelQueued(q: Query, s: SearchState, c: ChannelState, todo: set<ChannelId>)
    requires Expanding(q, s, c.info.destination, todo) && Improves(q, s, c)
    ensures Labels(q, Relabel(q, s, c)) && Queued(q, Relabel(q, s, c))
  {
    hide ComputeFee, CanForward, IdOf;
    BetterLabel(q, s, c, todo);
    RelabelLabels(q, s, c, todo);
    var t := Relabel(q, s, c);
    var v := c.info.source;
    var added := LabelEntry(q, t, v);
    assert t.queue == s.queue + multiset{added};
    forall e | e in t.queue ensures EntryOk(q, t, e) {
      if e != added { assert EntryOk(q, s, e); }
    }
    forall w | w in t.depth && !Settled(t, w) ensures LabelEntry(q, t, w) in t.queue {
      if w != v { assert LabelEntry(q, s, w) in s.queue; }
    }
  }

  /** Labels only fall, and those of expanded nodes stay. */
  lemma RelabelRelaxed(q: Query, s: SearchState, c: ChannelState, todo: set<ChannelId>, id: ChannelId)
    requires Expanding(q, s, c.info.destination, todo) && Improves(q, s, c)
    requires id in q.channels && q.channels[id].info.destination in s.expanded && RelaxedAt(q, s, id)
    ensures Labels(q, Relabel(q, s, c)) && RelaxedAt(q, Relabel(q, s, c), id)
  {
    hide ComputeFee, CanForward, IdOf;
    BetterLabel(q, s, c, todo);
    RelabelLabels(q, s, c, todo);
  }

  lemma RelaxInv(q: Query, s: SearchState, id: ChannelId, todo: set<ChannelId>)
    requires id in q.channels && Expanding(q, s, q.channels[id].info.destination, todo)
    ensures Expanding(q, Relax(q, s, q.channels[id]), q.channels[id].info.destination, todo - {id})
  {
    var c := q.channels[id];
    if Improves(q, s, c) {
      RelabelLabels(q, s, c, todo);
      RelabelTree(q, s, c, todo);
      RelabelQueued(q, s, c, todo);
    }
    RelaxRelaxed(q, s, id, todo);
  }

  lemma RelaxRelaxed(q: Query, s: SearchState, id: ChannelId, todo: set<ChannelId>)
    requires id in q.channels && Expanding(q, s, q.channels[id].info.destination, todo)
    ensures var t := Relax(q, s, q.channels[id]);
            Labels(q, t) && Relaxed(q, t, todo - {id})
  {
    var c := q.channels[id];
    var t := Relax(q, s, c);
    if Improves(q, s, c) { RelabelLabels(q, s, c, todo); }
    forall x | x in q.channels && x !in todo - {id} && q.channels[x].info.destination in t.expanded
      ensures RelaxedAt(q, t, x)
    {
      if x == id {
        RelaxedThere(q, s, id, todo);
      } else {
        assert RelaxedAt(q, s, x);
        if Improves(q, s, c) { RelabelRelaxed(q, s, c, todo, x); }
      }
    }
  }

  /** Once looked at, the channel itself has nothing better to offer. */
  lemma RelaxedThere(q: Query, s: SearchState, id: ChannelId, todo: set<ChannelId>)
    requires id in q.channels && Expanding(q, s, q.channels[id].info.destination, todo)
    ensures var t := Relax(q, s, q.channels[id]);
            Labels(q, t) && RelaxedAt(q, t, id)
  {
    hide ComputeFee, CanForward, IdOf;
    var c := q.channels[id];
    if Improves(q, s, c) {
      BetterLabel(q, s, c, todo);
      RelabelLabels(q, s, c, todo);
    }
  }

  // ---------------------------------------------------------------- integer widths

  /**
   * Wherever the search stands, with 32-bit fee fields and amounts that leave room for the largest
   * label: the 64-bit fee is the exact one, and neither the amount nor the label overflows.
   */
  lemma SearchStaysIn64Bits(q: Query, s: SearchState, c: ChannelState)
    requires Labels(q, s) && c.info.destination in s.depth && FeeFields32(c.info)
    requires q.amount + MAX_DISTANCE <= 1000 * 0x1_0000_0000
    ensures var u := c.info.destination;
            var amount := q.amount + s.distance[u];
            && ComputeFee64(c.info, amount) == ComputeFee(c.info, amount)
            && amount + ComputeFee(c.info, amount) < UINT64 / 2
            && s.distance[u] + ComputeFee(c.info, amount) < UINT64 / 2
  {
    FeeDoesNotWrap(c.info, q.amount + s.distance[c.info.destination]);
  }
}
