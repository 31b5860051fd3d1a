/**
 * The parallel pull/push scheduler as a transition system: a queue of candidate channels,
 * rebalances in flight whose results arrive in any order, and the balances of our channels.
 */
module Scheduler {
  import opened Base

  datatype Kind = Pull | Push

  /** One of our channels as the peer list has it; balances in msat. */
  datatype PeerChannel = PeerChannel(total: nat, toUs: nat, normal: bool, connected: bool)

  /** `percent / whole` is the depletion (or fill) percentage, `limit` the absolute bound in msat. */
  datatype Params = Params(kind: Kind, target: Scid, amount: nat, splitAmount: nat, splits: int,
                           limit: nat, percent: nat, whole: nat)

  datatype UseError = BeyondThreshold | NotNormal | Disconnected

  /** `DivisionByZero` stands for the panic of a remainder by zero. */
  datatype ParamError = AmountLessThanSplit | DivisionByZero | AmountNotMultiple

  /** `validateGenericParameters`. */
  function Validate(amount: nat, splitAmount: nat): Option<ParamError> {
    if amount < splitAmount then Some(AmountLessThanSplit)
    else if splitAmount == 0 then Some(DivisionByZero)
    else if amount % splitAmount != 0 then Some(AmountNotMultiple)
    else None
  }

  predicate ValidParams(p: Params)
    ensures ValidParams(p) ==> p.splitAmount > 0
  {
    p.whole > 0 && Validate(p.amount, p.splitAmount) == None
  }

  /** What a success moves between the balances kept: the split in whole satoshis. */
  function Moved(p: Params): (m: nat)
    ensures p.splitAmount - 1000 < m <= p.splitAmount
    ensures p.splitAmount % 1000 == 0 ==> m == p.splitAmount
  {
    p.splitAmount / 1000 * 1000
  }

  /** The balance a rebalance takes from: ours in a pull, the peer's in a push. */
  function Spare(p: Params, c: PeerChannel): int {
    if p.kind == Pull then c.toUs else c.total - c.toUs
  }

  function Threshold(p: Params, c: PeerChannel): int
    requires p.whole > 0
  {
    Min(p.limit, c.total * p.percent / p.whole)
  }

  /** `CanUseChannel`. */
  function UseChannel(p: Params, c: PeerChannel): Option<UseError>
    requires p.whole > 0
  {
    if Spare(p, c) < Threshold(p, c) then Some(BeyondThreshold)
    else if !c.normal then Some(NotNormal)
    else if !c.connected then Some(Disconnected)
    else None
  }

  /**
   * What it takes to give: a normal channel with a connected peer that holds the absolute bound, or
   * the percentage of its capacity rounded down to whole msat.
   */
  predicate CanGive(p: Params, peers: map<Scid, PeerChannel>, scid: Scid) {
    scid in peers &&
    var c := peers[scid];
    var held := if p.kind == Pull then c.toUs else c.total - c.toUs;
    c.normal && c.connected && (held >= p.limit || (held + 1) * p.whole > c.total * p.percent)
  }

  /** The threshold is the smaller of the absolute bound and the rounded percentage. */
  lemma ThresholdIff(p: Params, c: PeerChannel, held: int)
    requires p.whole > 0
    ensures held >= Threshold(p, c) <==> held >= p.limit || (held + 1) * p.whole > c.total * p.percent
  {
    var n, w := c.total * p.percent, p.whole;
    var k := n / w;
    assert k * w <= n < k * w + w;
    if held >= k {
      MulMonotone(k + 1, held + 1, w);
    } else if held >= 0 {
      MulMonotone(held + 1, k, w);
    } else {
      assert (held + 1) * w <= 0 by { MulMonotone(0, -(held + 1), w); }
    }
  }

  lemma UsableIff(p: Params, s: State, scid: Scid)
    requires p.whole > 0
    ensures Usable(p, s, scid) <==> CanGive(p, s.peers, scid)
  {
    if scid in s.peers { ThresholdIff(p, s.peers[scid], Spare(p, s.peers[scid])); }
    hide Threshold;
  }

  datatype State = State(
    queue: seq<Scid>, running: seq<Scid>, dropped: seq<Scid>,
    rebalanced: nat, inFlight: int, fired: nat, successes: nat, failures: nat,
    peers: map<Scid, PeerChannel>)

  function Start(candidates: seq<Scid>, peers: map<Scid, PeerChannel>): State {
    State(candidates, [], [], 0, 0, 0, 0, 0, peers)
  }

  // ---------------------------------------------------------------- steps

  /** `Deliver(k, ok, found)`: the result of the `k`-th running rebalance; `found`: its channel is looked up again. */
  datatype Step = Discard | Fire | Deliver(k: nat, ok: bool, found: bool) | Connectivity(up: set<Scid>)

  /** The loop guard of `FireCandidates`. */
  predicate Guard(p: Params, s: State)
    requires p.splitAmount > 0
  {
    s.rebalanced + s.inFlight < p.amount && s.inFlight / p.splitAmount < p.splits
  }

  predicate Usable(p: Params, s: State, scid: Scid)
    requires p.whole > 0
  {
    scid in s.peers && UseChannel(p, s.peers[scid]) == None
  }

  /** The balance a rebalance adds to: what the target can still take. */
  function Room(p: Params, c: PeerChannel): int {
    if p.kind == Pull then c.total - c.toUs else c.toUs
  }

  /**
   * What a success needs of both our channels, `checkConnections` and `checkLiquidity`: the candidate
   * can give one split, and the target is a normal channel that can take one. It is asked for where the
   * success is settled: payments in flight at the same time share the room they were all checked for.
   */
  predicate Liquid(p: Params, peers: map<Scid, PeerChannel>, scid: Scid) {
    && scid in peers && Spare(p, peers[scid]) >= p.splitAmount
    && p.target in peers && peers[p.target].normal && Room(p, peers[p.target]) >= p.splitAmount
  }

  predicate Enabled(p: Params, s: State, step: Step)
    requires ValidParams(p)
  {
    match step
    case Discard => Guard(p, s) && s.queue != [] && !Usable(p, s, s.queue[0])
    case Fire => Guard(p, s) && s.queue != [] && Usable(p, s, s.queue[0])
    case Deliver(k, ok, _) => k < |s.running| && (ok ==> Liquid(p, s.peers, s.running[k]))
    case Connectivity(_) => true
  }

  function Without(s: seq<Scid>, k: nat): seq<Scid>
    requires k < |s|
  {
    s[..k] + s[k + 1..]
  }

  /** One channel's share of `UpdateChannelBalance`, on 64-bit balances. */
  function Shift(peers: map<Scid, PeerChannel>, scid: Scid, change: int): map<Scid, PeerChannel> {
    if scid in peers then peers[scid := peers[scid].(toUs := (peers[scid].toUs + change) % UINT64)] else peers
  }

  /** `UpdateChannelBalance`: the amount leaves by the outgoing channel and comes in by the other. */
  function Settle(p: Params, peers: map<Scid, PeerChannel>, candidate: Scid): map<Scid, PeerChannel> {
    var amount: int := Moved(p);
    if p.kind == Pull then Shift(Shift(peers, candidate, -amount), p.target, amount)
    else Shift(Shift(peers, p.target, -amount), candidate, amount)
  }

  function Apply(p: Params, s: State, step: Step): State
    requires ValidParams(p) && Enabled(p, s, step)
  {
    match step
    case Discard => s.(queue := s.queue[1..], dropped := s.dropped + [s.queue[0]])
    case Fire =>
      s.(queue := s.queue[1..], running := s.running + [s.queue[0]],
         inFlight := s.inFlight + p.splitAmount, fired := s.fired + 1)
    case Deliver(k, ok, found) =>
      var c := s.running[k];
      var t := s.(running := Without(s.running, k), inFlight := s.inFlight - p.splitAmount);
      if ok then
        t.(queue := if found then [c] + s.queue else s.queue,
           dropped := if found then s.dropped else s.dropped + [c],
           rebalanced := s.rebalanced + p.splitAmount, successes := s.successes + 1,
           peers := Settle(p, s.peers, c))
      else t.(dropped := s.dropped + [c], failures := s.failures + 1)
    case Connectivity(up) =>
      s.(peers := map c | c in s.peers :: s.peers[c].(connected := c in up))
  }

  /** Every step of the run is enabled where it is taken. */
  predicate Legal(p: Params, s: State, steps: seq<Step>)
    requires ValidParams(p)
    decreases |steps|, 0
  {
    steps == [] ||
    (Legal(p, s, steps[..|steps| - 1]) && Enabled(p, After(p, s, steps[..|steps| - 1]), steps[|steps| - 1]))
  }

  function After(p: Params, s: State, steps: seq<Step>): State
    requires ValidParams(p) && Legal(p, s, steps)
    decreases |steps|, 1
  {
    if steps == [] then s
    else Apply(p, After(p, s, steps[..|steps| - 1]), steps[|steps| - 1])
  }

  lemma AfterOneMore(p: Params, s: State, steps: seq<Step>, step: Step)
    requires ValidParams(p) && Legal(p, s, steps) && Enabled(p, After(p, s, steps), step)
    ensures Legal(p, s, steps + [step]) && After(p, s, steps + [step]) == Apply(p, After(p, s, steps), step)
  {
    assert (steps + [step])[..|steps|] == steps;
  }

  // ---------------------------------------------------------------- amounts

  /** The amounts are multiples of the split amount, within the target and the parallelism. */
  ghost predicate Amounts(p: Params, s: State)
    requires p.splitAmount > 0
  {
    && s.inFlight == p.splitAmount * |s.running|
    && s.rebalanced == p.splitAmount * s.successes
    && s.rebalanced + s.inFlight <= p.amount
    && (s.running == [] || |s.running| <= p.splits)
  }

  /** How often a channel is queued, in flight or dropped. */
  ghost function Copies(s: State, c: Scid): nat {
    multiset(s.queue)[c] + multiset(s.running)[c] + multiset(s.dropped)[c]
  }

  /** Every candidate is queued, in flight or dropped, as often as it was found. */
  ghost predicate Conserved(s: State, candidates: seq<Scid>) {
    && (forall c :: Copies(s, c) == multiset(candidates)[c])
    && s.fired == s.successes + s.failures + |s.running|
    && s.failures <= |s.dropped|
    && |s.queue| + |s.running| + |s.dropped| == |candidates|
  }

  lemma SplitsInFlight(split: nat, n: nat)
    requires split > 0
    ensures split * n / split == n
  {
    var k := split * n / split;
    assert split * k <= split * n < split * k + split;
    if k < n { MulStrict(k, n, split); }
    if n < k { MulStrict(n, k, split); }
  }

  /** Below the target there is room for one more split: the target is a multiple of it. */
  lemma RoomForOne(split: nat, n: nat, amount: nat)
    requires split > 0 && amount % split == 0 && split * n < amount
    ensures split * (n + 1) <= amount
  {
    var m := amount / split;
    assert amount == split * m;
    if m < n + 1 { MulMonotone(m, n, split); }
  }

  lemma StepKeepsAmounts(p: Params, s: State, step: Step)
    requires ValidParams(p) && Amounts(p, s) && Enabled(p, s, step)
    ensures Amounts(p, Apply(p, s, step))
  {
    var split := p.splitAmount;
    match step
    case Fire =>
      SplitsInFlight(split, |s.running|);
      assert s.rebalanced + s.inFlight == split * (s.successes + |s.running|);
      RoomForOne(split, s.successes + |s.running|, p.amount);
      assert split * (|s.running| + 1) == split * |s.running| + split;
    case Deliver(k, ok, _) =>
      assert split * |s.running| == split * (|s.running| - 1) + split;
      assert split * (s.successes + 1) == split * s.successes + split;
    case _ =>
  }

  lemma WithoutMultiset(s: seq<Scid>, k: nat)
    requires k < |s|
    ensures multiset(Without(s, k)) + multiset{s[k]} == multiset(s)
    ensures forall c :: multiset(Without(s, k))[c] + (if s[k] == c then 1 else 0) == multiset(s)[c]
  {
    assert s == s[..k] + [s[k]] + s[k + 1..];
  }

  lemma StepConserves(p: Params, s: State, step: Step, candidates: seq<Scid>)
    requires ValidParams(p) && Conserved(s, candidates) && Enabled(p, s, step)
    ensures Conserved(Apply(p, s, step), candidates)
  {
    forall c ensures Copies(Apply(p, s, step), c) == multiset(candidates)[c] {
      assert Copies(s, c) == multiset(candidates)[c];
      StepKeepsCopies(p, s, step, c);
    }
  }

  lemma StepKeepsCopies(p: Params, s: State, step: Step, c: Scid)
    requires ValidParams(p) && Enabled(p, s, step)
    ensures Copies(Apply(p, s, step), c) == Copies(s, c)
  {
    hide Guard, Usable, Liquid, Settle;
    match step
    case Discard =>
      HeadCount(s.queue, c);
      TailCount(s.dropped, s.queue[0], c);
    case Fire =>
      HeadCount(s.queue, c);
      TailCount(s.running, s.queue[0], c);
    case Deliver(_, _, _) => DeliverKeepsCopies(p, s, step, c);
    case Connectivity(_) =>
  }

  lemma DeliverKeepsCopies(p: Params, s: State, step: Step, c: Scid)
    requires ValidParams(p) && step.Deliver? && Enabled(p, s, step)
    ensures Copies(Apply(p, s, step), c) == Copies(s, c)
  {
    hide Liquid, Settle, Without;
    WithoutMultiset(s.running, step.k);
    TailCount(s.dropped, s.running[step.k], c);
    FrontCount(s.queue, s.running[step.k], c);
  }

  lemma FrontCount(s: seq<Scid>, x: Scid, c: Scid)
    ensures multiset([x] + s)[c] == multiset(s)[c] + (if x == c then 1 else 0)
  {
  }

  lemma HeadCount(s: seq<Scid>, c: Scid)
    requires s != []
    ensures multiset(s)[c] == multiset(s[1..])[c] + (if s[0] == c then 1 else 0)
  {
    assert s == [s[0]] + s[1..];
  }

  lemma TailCount(s: seq<Scid>, x: Scid, c: Scid)
    ensures multiset(s + [x])[c] == multiset(s)[c] + (if x == c then 1 else 0)
  {
  }

  /**
   * Safety in every reachable state: in-flight and rebalanced amounts count the rebalances, never
   * exceed the target, at most `splits` run at once, and no candidate is lost or duplicated.
   */
  lemma {:induction false} RunIsSafe(p: Params, candidates: seq<Scid>, peers: map<Scid, PeerChannel>, steps: seq<Step>)
    requires ValidParams(p) && Legal(p, Start(candidates, peers), steps)
    ensures var s := After(p, Start(candidates, peers), steps);
            Amounts(p, s) && Conserved(s, candidates)
    decreases |steps|
  {
    if steps != [] {
      var init := steps[..|steps| - 1];
      RunIsSafe(p, candidates, peers, init);
      var s := After(p, Start(candidates, peers), init);
      StepKeepsAmounts(p, s, steps[|steps| - 1]);
      StepConserves(p, s, steps[|steps| - 1], candidates);
    }
  }

  // ---------------------------------------------------------------- end state and termination

  /** Nothing runs and nothing more is fired. */
  predicate Ended(p: Params, s: State)
    requires p.splitAmount > 0
  {
    s.running == [] && (!Guard(p, s) || s.queue == [])
  }

  /** With positive splits the run ends only with the whole amount rebalanced or no candidate left. */
  lemma EndIsComplete(p: Params, s: State)
    requires ValidParams(p) && Amounts(p, s) && Ended(p, s)
    ensures p.splits > 0 ==> s.rebalanced == p.amount || s.queue == []
  {
    SplitsInFlight(p.splitAmount, 0);
  }

  /** Splits still to be rebalanced. */
  function Remaining(p: Params, s: State): int
    requires p.splitAmount > 0
  {
    p.amount / p.splitAmount - s.successes
  }

  /** Every step but a change of connectivity lowers (remaining splits, candidates alive, queued). */
  lemma StepLowers(p: Params, s: State, step: Step)
    requires ValidParams(p) && Amounts(p, s) && Enabled(p, s, step) && !step.Connectivity?
    ensures var t := Apply(p, s, step);
            && 0 <= Remaining(p, t) <= Remaining(p, s)
            && (Remaining(p, t) < Remaining(p, s)
                || |t.queue| + |t.running| < |s.queue| + |s.running|
                || (|t.queue| + |t.running| == |s.queue| + |s.running| && |t.queue| < |s.queue|))
  {
    StepKeepsAmounts(p, s, step);
    RemainingNotNegative(p, Apply(p, s, step));
  }

  lemma RemainingNotNegative(p: Params, s: State)
    requires ValidParams(p) && Amounts(p, s)
    ensures s.successes + |s.running| <= p.amount / p.splitAmount
  {
    var n, m := s.successes + |s.running|, p.amount / p.splitAmount;
    assert p.splitAmount * n <= p.amount == p.splitAmount * m;
    if n > m { MulStrict(m, n, p.splitAmount); }
  }

  /** At most one rebalance per split of the amount and one failure per candidate is ever fired. */
  lemma FiredBound(p: Params, candidates: seq<Scid>, peers: map<Scid, PeerChannel>, steps: seq<Step>)
    requires ValidParams(p) && Legal(p, Start(candidates, peers), steps)
    ensures After(p, Start(candidates, peers), steps).fired <= p.amount / p.splitAmount + |candidates|
  {
    RunIsSafe(p, candidates, peers, steps);
    RemainingNotNegative(p, After(p, Start(candidates, peers), steps));
  }

  // ---------------------------------------------------------------- depletion

  /** Our channels hold at most their capacity, and capacities fit 64 bits. */
  predicate Solvent(peers: map<Scid, PeerChannel>) {
    forall c :: c in peers ==> peers[c].toUs <= peers[c].total < UINT64
  }

  /** The bound on what a run leaves on a candidate queued `m` times. */
  function Floor(p: Params, peers: map<Scid, PeerChannel>, c: Scid, m: nat): int
    requires p.whole > 0 && c in peers
  {
    Min(Spare(p, peers[c]), Threshold(p, peers[c]) - Moved(p) * m)
  }

  /** The bound on the balance while `r` of at most `m` rebalances of the candidate are in flight. */
  ghost predicate Above(p: Params, peers: map<Scid, PeerChannel>, c: Scid, m: nat, spare: int, r: int)
    requires p.whole > 0 && c in peers
  {
    spare >= Floor(p, peers, c, m) && (r > 0 ==> spare >= Threshold(p, peers[c]) - Moved(p) * (m - r))
  }

  /** While rebalances of the candidate are in flight, each of them can still take a split. */
  ghost predicate SafeBalance(p: Params, peers: map<Scid, PeerChannel>, s: State, c: Scid, m: nat)
    requires ValidParams(p) && c in peers
  {
    && c in s.peers && s.peers[c].total == peers[c].total < UINT64
    && s.peers[c].toUs <= s.peers[c].total
    && Above(p, peers, c, m, Spare(p, s.peers[c]), multiset(s.running)[c])
  }

  /** From distinct candidates, each is always in exactly one place, and none runs twice. */
  lemma EachInOnePlace(p: Params, candidates: seq<Scid>, peers: map<Scid, PeerChannel>, steps: seq<Step>, c: Scid)
    requires ValidParams(p) && Distinct(candidates) && c in candidates && Legal(p, Start(candidates, peers), steps)
    ensures var s := After(p, Start(candidates, peers), steps);
            && multiset(s.queue)[c] + multiset(s.running)[c] + multiset(s.dropped)[c] == 1
            && Distinct(s.running)
  {
    hide Legal, After;
    RunIsSafe(p, candidates, peers, steps);
    OnceInDistinct(candidates, c);
    var s := After(p, Start(candidates, peers), steps);
    assert Copies(s, c) == multiset(candidates)[c];
    RunningDistinct(s, candidates);
  }

  lemma RunningDistinct(s: State, candidates: seq<Scid>)
    requires Distinct(candidates) && Conserved(s, candidates)
    ensures Distinct(s.running)
  {
    forall i, j | 0 <= i < j < |s.running| ensures s.running[i] != s.running[j] {
      OnceAlive(s, candidates, i);
      assert s.running[j] == Without(s.running, i)[j - 1];
    }
  }

  lemma OnceAlive(s: State, candidates: seq<Scid>, k: nat)
    requires Distinct(candidates) && Conserved(s, candidates) && k < |s.running|
    ensures s.running[k] !in Without(s.running, k) && s.running[k] !in s.queue
  {
    var c := s.running[k];
    OnceInDistinct(candidates, c);
    WithoutMultiset(s.running, k);
    assert Copies(s, c) == multiset(candidates)[c];
    assert multiset(s.running)[c] == multiset(Without(s.running, k))[c] + 1;
  }

  lemma {:induction false} OnceInDistinct(s: seq<Scid>, x: Scid)
    requires Distinct(s)
    ensures multiset(s)[x] <= 1
  {
    if s != [] {
      OnceInDistinct(s[1..], x);
      assert s == [s[0]] + s[1..];
    }
  }

  /** The settlement of candidate `d` on candidate `c`: one split, without wrap-around, if they are the same. */
  lemma SettleOn(p: Params, s: State, d: Scid, c: Scid)
    requires ValidParams(p) && Liquid(p, s.peers, d) && c in s.peers && c != p.target && d != p.target
    requires s.peers[c].toUs <= s.peers[c].total < UINT64
    ensures c in Settle(p, s.peers, d)
    ensures var was, now := s.peers[c], Settle(p, s.peers, d)[c];
            && now.total == was.total && now.toUs <= now.total
            && Spare(p, now) == Spare(p, was) - (if c == d then Moved(p) else 0)
  {
    hide Moved;
    if c == d {
      NoWrap(s.peers[c].toUs - Moved(p));
      NoWrap(s.peers[c].toUs + Moved(p));
    }
  }

  /** A settlement moves one split, in satoshis, between the candidate and the target and touches nothing else. */
  lemma SettleIsTransfer(p: Params, peers: map<Scid, PeerChannel>, c: Scid)
    requires ValidParams(p) && c in peers && p.target in peers && c != p.target
    requires var (giver, taker) := if p.kind == Pull then (c, p.target) else (p.target, c);
             peers[giver].toUs >= Moved(p) && peers[giver].toUs < UINT64 && peers[taker].toUs + Moved(p) < UINT64
    ensures var t := Settle(p, peers, c);
            var moved: int := (if p.kind == Pull then 1000 else -1000) * (p.splitAmount / 1000);
            && t.Keys == peers.Keys
            && t[c].toUs == peers[c].toUs - moved && t[p.target].toUs == peers[p.target].toUs + moved
            && (forall x :: x in peers && x != c && x != p.target ==> t[x] == peers[x])
  {
    assert Moved(p) == 1000 * (p.splitAmount / 1000);
    hide Moved;
    NoWrap(peers[c].toUs + Moved(p));
    NoWrap(peers[c].toUs - Moved(p));
    NoWrap(peers[p.target].toUs + Moved(p));
    NoWrap(peers[p.target].toUs - Moved(p));
  }

  lemma NoWrap(n: int)
    ensures 0 <= n < UINT64 ==> n % UINT64 == n
  {
  }

  /** The settlement on the target: one split less room, without wrap-around. */
  lemma SettleTarget(p: Params, peers: map<Scid, PeerChannel>, d: Scid)
    requires ValidParams(p) && Liquid(p, peers, d) && d != p.target
    requires peers[p.target].toUs <= peers[p.target].total < UINT64
    ensures p.target in Settle(p, peers, d)
    ensures var was, now := peers[p.target], Settle(p, peers, d)[p.target];
            && now.total == was.total && now.toUs <= now.total && now.normal == was.normal
            && Room(p, now) == Room(p, was) - Moved(p) >= 0
  {
    hide Moved;
    NoWrap(peers[p.target].toUs - Moved(p));
    NoWrap(peers[p.target].toUs + Moved(p));
  }

  /** `r` of `m` in flight instead of one fewer. */
  lemma OneMoreInFlight(p: Params, m: int, r: int)
    ensures Moved(p) * (m - (r - 1)) == Moved(p) * (m - r) + Moved(p)
  {
    hide Moved;
  }

  lemma FireKeepsBalance(p: Params, peers: map<Scid, PeerChannel>, s: State, c: Scid, m: nat)
    requires ValidParams(p) && c in peers && Enabled(p, s, Fire) && SafeBalance(p, peers, s, c, m) && Copies(s, c) <= m
    ensures SafeBalance(p, peers, Apply(p, s, Fire), c, m)
  {
    hide Moved, Guard, Floor;
    HeadCount(s.queue, c);
    TailCount(s.running, s.queue[0], c);
    if s.queue[0] == c {
      var left := m - (multiset(s.running)[c] + 1);
      MulMonotone(0, left, Moved(p));
    }
  }

  lemma FewerInFlight(s: seq<Scid>, k: nat, c: Scid)
    requires k < |s|
    ensures multiset(Without(s, k))[c] == multiset(s)[c] - if s[k] == c then 1 else 0
  {
    WithoutMultiset(s, k);
  }

  /** One of them taking its split, or failing, keeps it. */
  lemma OneFewerAbove(p: Params, peers: map<Scid, PeerChannel>, c: Scid, m: nat, spare: int, r: int)
    requires p.whole > 0 && c in peers && r > 0 && Above(p, peers, c, m, spare, r)
    ensures Above(p, peers, c, m, spare - Moved(p), r - 1) && Above(p, peers, c, m, spare, r - 1)
  {
    hide Moved, Threshold, Spare;
    OneMoreInFlight(p, m, r);
    if r == 1 { assert Moved(p) * (m - 0) == Moved(p) * m; }
  }

  lemma DeliverKeepsBalance(p: Params, peers: map<Scid, PeerChannel>, s: State, step: Step, c: Scid, m: nat)
    requires ValidParams(p) && c in peers && step.Deliver? && Enabled(p, s, step) && SafeBalance(p, peers, s, c, m)
    requires c != p.target && p.target !in s.running
    ensures SafeBalance(p, peers, Apply(p, s, step), c, m)
  {
    hide Moved, Threshold, Settle, Liquid, Without, Spare, Above;
    var d, r := s.running[step.k], multiset(s.running)[c];
    assert d in s.running;
    FewerInFlight(s.running, step.k, c);
    if d == c { OneFewerAbove(p, peers, c, m, Spare(p, s.peers[c]), r); }
    if step.ok { SettleOn(p, s, d, c); }
  }

  lemma StepKeepsBalance(p: Params, candidates: seq<Scid>, peers: map<Scid, PeerChannel>, s: State, step: Step, c: Scid)
    requires ValidParams(p) && p.target !in candidates && Conserved(s, candidates)
    requires c in candidates && c in peers && Enabled(p, s, step)
    requires SafeBalance(p, peers, s, c, multiset(candidates)[c])
    ensures SafeBalance(p, peers, Apply(p, s, step), c, multiset(candidates)[c])
  {
    assert Copies(s, c) == multiset(candidates)[c];
    match step
    case Fire => FireKeepsBalance(p, peers, s, c, multiset(candidates)[c]);
    case Deliver(_, _, _) =>
      forall k: nat | k < |s.running| ensures s.running[k] != p.target { RunningAreCandidates(s, candidates, k); }
      DeliverKeepsBalance(p, peers, s, step, c, multiset(candidates)[c]);
    case _ =>
      hide Moved, Threshold, Copies;
  }

  lemma RunningAreCandidates(s: State, candidates: seq<Scid>, k: nat)
    requires Conserved(s, candidates) && k < |s.running|
    ensures s.running[k] in candidates
  {
    assert Copies(s, s.running[k]) == multiset(candidates)[s.running[k]];
  }

  /**
   * Over a whole run, without a refresh of the peer list: the balance of a candidate queued `m` times
   * does not fall below the smaller of its initial value and the threshold less `m` splits, and
   * never wraps.
   */
  lemma {:induction false} RunKeepsBalances(p: Params, candidates: seq<Scid>, peers: map<Scid, PeerChannel>,
                                            steps: seq<Step>, c: Scid)
    requires ValidParams(p) && p.target !in candidates && Solvent(peers)
    requires c in candidates && c in peers && Legal(p, Start(candidates, peers), steps)
    ensures SafeBalance(p, peers, After(p, Start(candidates, peers), steps), c, multiset(candidates)[c])
    decreases |steps|
  {
    if steps != [] {
      hide SafeBalance, Conserved, Amounts, Apply, Enabled;
      var init := steps[..|steps| - 1];
      RunKeepsBalances(p, candidates, peers, init, c);
      RunIsSafe(p, candidates, peers, init);
      StepKeepsBalance(p, candidates, peers, After(p, Start(candidates, peers), init), steps[|steps| - 1], c);
    }
  }

  /** The target's books: each success takes one split of its room, which is never exceeded. */
  ghost predicate TargetBooked(p: Params, peers: map<Scid, PeerChannel>, s: State) {
    if p.target in peers then
      && p.target in s.peers && s.peers[p.target].normal == peers[p.target].normal
      && s.peers[p.target].total == peers[p.target].total < UINT64
      && s.peers[p.target].toUs <= s.peers[p.target].total
      && Room(p, s.peers[p.target]) == Room(p, peers[p.target]) - Moved(p) * s.successes
    else p.target !in s.peers && s.successes == 0
  }

  lemma StepKeepsTarget(p: Params, candidates: seq<Scid>, peers: map<Scid, PeerChannel>, s: State, step: Step)
    requires ValidParams(p) && p.target !in candidates && Conserved(s, candidates) && Enabled(p, s, step)
    requires TargetBooked(p, peers, s)
    ensures TargetBooked(p, peers, Apply(p, s, step))
  {
    hide Moved, Conserved, Guard, Usable;
    if step.Deliver? {
      RunningAreCandidates(s, candidates, step.k);
      if step.ok { SettleTarget(p, s.peers, s.running[step.k]); }
      assert Moved(p) * (s.successes + 1) == Moved(p) * s.successes + Moved(p);
    }
  }

  /**
   * Over a whole run the target gains in a pull, or gives in a push, one split for every success and
   * nothing else, whichever candidates succeed; it is never filled beyond its capacity or drained
   * below zero, and without a target channel nothing succeeds.
   */
  lemma {:induction false} RunBooksTarget(p: Params, candidates: seq<Scid>, peers: map<Scid, PeerChannel>,
                                          steps: seq<Step>)
    requires ValidParams(p) && p.target !in candidates && Solvent(peers)
    requires Legal(p, Start(candidates, peers), steps)
    ensures TargetBooked(p, peers, After(p, Start(candidates, peers), steps))
    decreases |steps|
  {
    if steps != [] {
      hide TargetBooked, Conserved, Amounts, Apply, Enabled;
      var init := steps[..|steps| - 1];
      RunBooksTarget(p, candidates, peers, init);
      RunIsSafe(p, candidates, peers, init);
      StepKeepsTarget(p, candidates, peers, After(p, Start(candidates, peers), init), steps[|steps| - 1]);
    }
  }
}
