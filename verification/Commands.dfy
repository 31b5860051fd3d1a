/** The commands `circular-pull` and `circular-push`, from the raw request to the report. */
module Commands {
  import opened Base
  import opened Channels
  import opened Scheduler
  import opened Candidates
  import opened Results
  import opened Parallel
  import Rebalancing

  const DEFAULT_AMOUNT: nat := 400000
  const DEFAULT_SPLITS: int := 4
  const DEFAULT_SPLIT_AMOUNT: nat := 100000
  const DEFAULT_DEPLETE_UP_TO_AMOUNT: nat := 1000000
  const DEFAULT_FILL_UP_TO_AMOUNT: nat := 10000000

  /**
   * A request as it arrives, amounts in satoshis, `percent / whole` the requested percentage.
   * `list` is the outlist or inlist, `outPPM` the bound on our own outgoing price.
   */
  datatype Request = Request(
    kind: Kind, target: Option<Scid>, list: Option<seq<NodeId>>, outPPM: nat, amount: nat, maxPPM: nat,
    splits: int, splitAmount: nat, limit: nat, percent: int, whole: nat, attempts: int, maxHops: int)

  // ---------------------------------------------------------------- defaults

  function OrDefault(n: nat, default: nat): nat {
    if n == 0 then default else n
  }

  /** The conversion to msat, in 64 bits. */
  function Msat(sats: nat): nat {
    sats * 1000 % UINT64
  }

  function AmountSats(r: Request): nat {
    OrDefault(r.amount, DEFAULT_AMOUNT)
  }

  function SplitSats(r: Request): nat {
    OrDefault(r.splitAmount, DEFAULT_SPLIT_AMOUNT)
  }

  /** `setGenericDefaults` and the command's own `setDefaults`; a list of peers first changes the bound on our price. */
  function SetDefaults(r: Request): Request {
    var pull := r.kind == Pull;
    r.(outPPM := if pull then PullBound(r.list.Some?, r.outPPM) else PushBound(r.list.Some?, r.outPPM),
       amount := Msat(AmountSats(r)), splitAmount := Msat(SplitSats(r)),
       maxPPM := OrDefault(r.maxPPM, Rebalancing.DEFAULT_MAXPPM),
       splits := if r.splits == 0 then DEFAULT_SPLITS else r.splits,
       limit := Msat(OrDefault(r.limit, if pull then DEFAULT_DEPLETE_UP_TO_AMOUNT else DEFAULT_FILL_UP_TO_AMOUNT)),
       percent := if r.percent > 0 then r.percent else if pull then 1 else 4,
       whole := if r.percent > 0 then r.whole else 5,
       attempts := if r.attempts <= 0 then Rebalancing.DEFAULT_ATTEMPTS else r.attempts,
       maxHops := if r.maxHops <= 0 then Rebalancing.DEFAULT_MAXHOPS else r.maxHops)
  }

  /** What the scheduler works with. */
  function ParamsOf(r: Request): (p: Params)
    requires r.target.Some?
  {
    var d := SetDefaults(r);
    Params(d.kind, d.target.value, d.amount, d.splitAmount, d.splits, d.limit, d.percent, d.whole)
  }

  /** The amount is a positive number of splits, as far as 64 bits show. */
  ghost predicate WholeSplits(r: Request) {
    exists n: nat :: n > 0 && Msat(SplitSats(r)) > 0 && Msat(AmountSats(r)) == Msat(SplitSats(r)) * n
  }

  /**
   * Whatever is requested, the defaults leave all that a rebalance divides by or counts on
   * positive, and the scheduler's parameters are valid exactly for a positive number of splits.
   */
  lemma DefaultsAreValidIff(r: Request)
    requires r.target.Some? && r.whole > 0
    ensures var d := SetDefaults(r);
            && d.outPPM > 0 && d.maxPPM > 0 && d.attempts >= 1 && d.maxHops >= 1
            && d.splits != 0 && d.percent > 0 && d.whole > 0
    ensures ValidParams(ParamsOf(r)) <==> WholeSplits(r)
  {
    hide Msat;
    var p := ParamsOf(r);
    if ValidParams(p) {
      var n := p.amount / p.splitAmount;
      assert p.amount == p.splitAmount * n;
      assert n > 0;
    }
    if n: nat :| n > 0 && p.splitAmount > 0 && p.amount == p.splitAmount * n {
      MulMonotone(1, n, p.splitAmount);
      SplitsInFlight(p.splitAmount, n);
    }
  }

  /** Without wrap-around that is a matter of the satoshis requested. */
  lemma WholeSplitsInSats(r: Request)
    requires AmountSats(r) * 1000 < UINT64 && SplitSats(r) * 1000 < UINT64
    ensures WholeSplits(r) <==> exists n: nat :: n > 0 && AmountSats(r) == SplitSats(r) * n
  {
    var a, s := AmountSats(r), SplitSats(r);
    assert Msat(a) == 1000 * a && Msat(s) == 1000 * s;
    forall n: nat ensures Msat(a) == Msat(s) * n <==> a == s * n {
      assert 1000 * s * n == 1000 * (s * n);
    }
  }

  // ---------------------------------------------------------------- the call

  /** What the node knows: its peers and their channels, balances, and the graph's view of our channels. */
  datatype Node = Node(peers: Peers, balances: map<Scid, PeerChannel>,
                       outgoing: Scid -> Option<Gossip>, incoming: Scid -> Option<Gossip>)

  /** The other end of a channel of ours, as looked up in the graph, is the peer that has it. */
  ghost predicate AboutPeers(node: Node) {
    && (forall x :: node.outgoing(x).Some? ==> HasChannel(node, node.outgoing(x).value.destination, x))
    && (forall x :: node.incoming(x).Some? ==> HasChannel(node, node.incoming(x).value.source, x))
  }

  predicate HasChannel(node: Node, peer: NodeId, x: Scid) {
    peer in node.peers && x in node.peers[peer]
  }

  /** The peer behind the target channel, if the graph knows the channel in the direction needed. */
  function TargetPeer(r: Request, node: Node): Option<NodeId>
    requires r.target.Some?
  {
    match r.kind
    case Pull =>
      var g := node.incoming(r.target.value);
      if g.Some? then Some(g.value.source) else None
    case Push =>
      var g := node.outgoing(r.target.value);
      if g.Some? then Some(g.value.destination) else None
  }

  function MarketOf(r: Request, node: Node): Market {
    var d := SetDefaults(r);
    Market(d.kind, d.splitAmount, d.maxPPM, d.outPPM, node.outgoing, node.incoming)
  }

  /** The peers asked: those of the list, or all, in the order `order`. */
  function Asked(r: Request, order: seq<NodeId>): seq<NodeId> {
    if r.list.Some? then r.list.value else order
  }

  /** What is requested is what the scheduler works with: amounts in msat, the rest as given. */
  lemma RequestIsFollowed(r: Request)
    requires r.target.Some?
    ensures var p := ParamsOf(r);
            && p.kind == r.kind && p.target == r.target.value
            && (0 < r.amount && r.amount * 1000 < UINT64 ==> p.amount == 1000 * r.amount)
            && (0 < r.splitAmount && r.splitAmount * 1000 < UINT64 ==> p.splitAmount == 1000 * r.splitAmount)
            && (0 < r.limit && r.limit * 1000 < UINT64 ==> p.limit == 1000 * r.limit)
            && (0 < r.amount ==> p.amount == r.amount * 1000 % 0x1_0000_0000_0000_0000)
            && (0 < r.splitAmount ==> p.splitAmount == r.splitAmount * 1000 % 0x1_0000_0000_0000_0000)
            && (0 < r.limit ==> p.limit == r.limit * 1000 % 0x1_0000_0000_0000_0000)
            && (r.splits != 0 ==> p.splits == r.splits)
            && (r.percent > 0 ==> p.percent == r.percent && p.whole == r.whole)
    ensures var d := SetDefaults(r);
            && (r.maxPPM > 0 ==> d.maxPPM == r.maxPPM) && (r.attempts > 0 ==> d.attempts == r.attempts)
            && (r.maxHops > 0 ==> d.maxHops == r.maxHops)
  {
  }

  /** What is not requested: 400000 sats in splits of 100000, 4 at a time, for 10 ppm, one attempt, 8 hops. */
  lemma DefaultsInNumbers(r: Request)
    requires r.target.Some?
    ensures var p := ParamsOf(r);
            && (r.amount == 0 ==> p.amount == 400000000) && (r.splitAmount == 0 ==> p.splitAmount == 100000000)
            && (r.splits == 0 ==> p.splits == 4)
            && (r.limit == 0 ==> p.limit == if r.kind == Pull then 1000000000 else 10000000000)
            && (r.percent <= 0 ==> 10 * p.percent == (if r.kind == Pull then 2 else 8) * p.whole && p.whole > 0)
    ensures var d := SetDefaults(r);
            && (r.maxPPM == 0 ==> d.maxPPM == 10) && (r.attempts <= 0 ==> d.attempts == 1)
            && (r.maxHops <= 0 ==> d.maxHops == 8)
  {
  }

  /**
   * Candidates are judged for the split amount and the price limit requested. Without a list the bound
   * on our own price is the one requested, or 50 ppm, and all peers are asked; with a list only those
   * on it, a pull without bound, a push with one of 50 ppm.
   */
  lemma MarketIsRequested(r: Request, node: Node, order: seq<NodeId>)
    requires r.target.Some?
    ensures var m := MarketOf(r, node);
            && m.kind == r.kind && m.splitAmount == ParamsOf(r).splitAmount
            && m.maxPPM == (if r.maxPPM == 0 then 10 else r.maxPPM)
            && m.outgoing == node.outgoing && m.incoming == node.incoming
    ensures var m := MarketOf(r, node);
            match r.list
            case None => m.bound == (if r.outPPM == 0 then 50 else r.outPPM) && Asked(r, order) == order
            case Some(ids) =>
              m.bound == (if r.kind == Pull then 0x8000_0000_0000_0000 else 50) && Asked(r, order) == ids
  {
  }

  datatype CallError = MissingParameter | BadAmounts(e: ParamError) | PercentTooHigh | UnknownTarget | NoCandidate

  /** Why the call is refused, the first reason in the order of the checks. */
  function Refusal(r: Request, node: Node, order: seq<NodeId>): Option<CallError> {
    var d := SetDefaults(r);
    if r.target == None then Some(MissingParameter)
    else
      match Validate(d.amount, d.splitAmount)
      case Some(e) => Some(BadAmounts(e))
      case None =>
        if d.percent > d.whole then Some(PercentTooHigh)
        else
          match TargetPeer(r, node)
          case None => Some(UnknownTarget)
          case Some(peer) =>
            if FoundIn(MarketOf(r, node), node.peers, peer, Asked(r, order)) == [] then Some(NoCandidate) else None
  }

  /**
   * A call is accepted exactly if it names a channel known in the graph, asks for a positive
   * number of splits and at most the whole capacity, and some asked peer offers a good channel.
   */
  lemma AcceptedIff(r: Request, node: Node, order: seq<NodeId>)
    requires r.whole > 0
    ensures Refusal(r, node, order) == None <==>
            && r.target.Some? && WholeSplits(r) && r.percent <= r.whole && TargetPeer(r, node).Some?
            && exists x :: && Offered(node.peers, TargetPeer(r, node).value, Asked(r, order), x)
                           && IsGood(MarketOf(r, node), x)
  {
    if r.target.Some? {
      DefaultsAreValidIff(r);
      if TargetPeer(r, node).Some? && WholeSplits(r) { SomeFoundIff(r, node, order); }
    }
  }

  /** Which reason is given, in terms of what is asked for. */
  lemma RefusedBecause(r: Request, node: Node, order: seq<NodeId>)
    requires r.whole > 0
    ensures Refusal(r, node, order) == Some(MissingParameter) <==> r.target == None
    ensures var a, s := Msat(AmountSats(r)), Msat(SplitSats(r));
            && (Refusal(r, node, order) == Some(BadAmounts(AmountLessThanSplit)) <==> r.target.Some? && a < s)
            && (Refusal(r, node, order) == Some(BadAmounts(DivisionByZero)) <==> r.target.Some? && s == 0)
            && (Refusal(r, node, order) == Some(BadAmounts(AmountNotMultiple)) <==>
                  r.target.Some? && a >= s > 0 && !WholeSplits(r))
    ensures Refusal(r, node, order) == Some(PercentTooHigh) <==>
              r.target.Some? && WholeSplits(r) && r.percent > r.whole
    ensures Refusal(r, node, order) == Some(UnknownTarget) <==>
              r.target.Some? && WholeSplits(r) && r.percent <= r.whole && TargetPeer(r, node) == None
  {
    hide Msat, FoundIn;
    if r.target.Some? {
      DefaultsAreValidIff(r);
      if n: nat :| n > 0 && Msat(SplitSats(r)) > 0 && Msat(AmountSats(r)) == Msat(SplitSats(r)) * n {
        MulMonotone(1, n, Msat(SplitSats(r)));
      }
    }
  }

  lemma SomeFoundIff(r: Request, node: Node, order: seq<NodeId>)
    requires r.target.Some? && TargetPeer(r, node).Some? && SetDefaults(r).splitAmount > 0
    ensures var peer := TargetPeer(r, node).value;
            FoundIn(MarketOf(r, node), node.peers, peer, Asked(r, order)) != [] <==>
            exists x :: Offered(node.peers, peer, Asked(r, order), x) && IsGood(MarketOf(r, node), x)
  {
    hide FoundIn, Offered, IsGood;
    var peer := TargetPeer(r, node).value;
    var m, ids := MarketOf(r, node), Asked(r, order);
    var found := FoundIn(m, node.peers, peer, ids);
    if found != [] { FoundIffOffered(m, node.peers, peer, ids, found[0]); }
    if x :| Offered(node.peers, peer, ids, x) && IsGood(m, x) { FoundIffOffered(m, node.peers, peer, ids, x); }
  }

  /** What a finished command reports and leaves behind. */
  datatype Report = Report(rebalancedSats: nat, attempts: nat, left: seq<Scid>, balances: map<Scid, PeerChannel>)

  /** No channel belongs to two peers, and balances are within capacities. */
  ghost predicate Orderly(node: Node) {
    Proper(node.peers) && AboutPeers(node) && Solvent(node.balances)
  }

  lemma OrderlyFound(r: Request, node: Node, order: seq<NodeId>, peer: NodeId)
    requires r.target.Some? && TargetPeer(r, node) == Some(peer)
    requires MarketOf(r, node).splitAmount > 0 && Orderly(node)
    ensures var found := FoundIn(MarketOf(r, node), node.peers, peer, Asked(r, order));
            && r.target.value !in found
            && (Distinct(found) <==> ListedOnce(MarketOf(r, node), node.peers, peer, Asked(r, order)))
  {
    var m := MarketOf(r, node);
    hide FoundIn, ListedOnce, MarketOf, Proper;
    FoundDistinctIff(m, node.peers, peer, Asked(r, order));
    assert HasChannel(node, peer, r.target.value);
    TargetNotFound(m, node.peers, peer, Asked(r, order), r.target.value);
  }

  /** The candidate, found `m` times, keeps the bound that holds in every run. */
  ghost predicate NotDrained(p: Params, was: map<Scid, PeerChannel>, now: map<Scid, PeerChannel>, c: Scid, m: nat)
    requires p.whole > 0 && c in was
  {
    c in now && now[c].toUs <= now[c].total && Spare(p, now[c]) >= Floor(p, was, c, m)
  }

  /** The candidate keeps its threshold, unless some split can overshoot it. */
  ghost predicate PromiseMet(p: Params, was: map<Scid, PeerChannel>, now: map<Scid, PeerChannel>, c: Scid)
    requires p.whole > 0 && c in was
  {
    NoneOvershoots(p, was, c) ==> c in now && Spare(p, now[c]) >= Min(Spare(p, was[c]), Threshold(p, was[c]))
  }

  /** The target has `n` splits less room, and was never filled beyond its capacity. */
  ghost predicate TargetMoved(p: Params, was: map<Scid, PeerChannel>, now: map<Scid, PeerChannel>, n: nat) {
    if p.target in was
    then && p.target in now && now[p.target].toUs <= now[p.target].total == was[p.target].total
         && Room(p, now[p.target]) == Room(p, was[p.target]) - Moved(p) * n
    else n == 0
  }

  /** The scheduler's state after `m` results. */
  ghost function FinalState(r: Request, node: Node, order: seq<NodeId>, world: nat -> Arrival, m: nat): State
    requires r.target.Some? && ValidParams(ParamsOf(r)) && TargetPeer(r, node).Some?
  {
    var found := FoundIn(MarketOf(r, node), node.peers, TargetPeer(r, node).value, Asked(r, order));
    Rounds(ParamsOf(r), FireAll(ParamsOf(r), Start(found, node.balances)), world, m)
  }

  /** Every payment succeeds, and one candidate that stays connected and the target hold what the amount needs. */
  ghost predicate Smooth(r: Request, node: Node, order: seq<NodeId>, world: nat -> Arrival)
    requires r.target.Some? && ValidParams(ParamsOf(r)) && TargetPeer(r, node).Some?
  {
    var found := FoundIn(MarketOf(r, node), node.peers, TargetPeer(r, node).value, Asked(r, order));
    exists c :: c in found && AlwaysSucceeds(ParamsOf(r), node.balances, world, c)
  }

  ghost predicate AlwaysSucceeds(p: Params, balances: map<Scid, PeerChannel>, world: nat -> Arrival, c: Scid)
    requires ValidParams(p)
  {
    p.splits > 0 && Ample(p, balances, c) && forall k: nat :: world(k).ok && world(k).found && c in world(k).up
  }

  /** All that was asked for, in satoshis. */
  lemma WholeAmountInSats(r: Request, n: nat)
    requires r.target.Some? && 0 < r.amount && r.amount * 1000 < UINT64
    requires 0 < r.splitAmount && r.splitAmount * 1000 < UINT64
    requires ParamsOf(r).splitAmount * n == ParamsOf(r).amount
    ensures Sats(ParamsOf(r), n) == r.amount
  {
    RequestIsFollowed(r);
    assert ParamsOf(r).splitAmount / 1000 == r.splitAmount;
    assert 1000 * r.splitAmount * n == 1000 * (n * r.splitAmount);
  }

  /**
   * A whole pull or push. It is refused for the first reason there is, or takes `m` results, the
   * `k`-th being `world(k)`, of which `n` succeed, and reports just what they come to: whole splits
   * within the amount, all of it unless candidates ran out, all of them over the target, no candidate
   * drained by more than one split for each time it was found. If everything succeeds the amount
   * reported is the amount requested.
   */
  method Call(r: Request, node: Node, order: seq<NodeId>, world: nat -> Arrival)
    returns (outcome: Result<Report, CallError>, ghost n: nat, ghost m: nat)
    requires r.whole > 0
    ensures match outcome
            case Err(e) => Refusal(r, node, order) == Some(e)
            case Ok(report) => Refusal(r, node, order) == None
    ensures outcome.Ok? ==>
              var p, report := ParamsOf(r), outcome.value;
              var peer := TargetPeer(r, node).value;
              && ValidParams(p) && p.splitAmount * n <= p.amount && report.rebalancedSats == Sats(p, n)
              && (p.splits > 0 ==> p.splitAmount * n == p.amount || report.left == [])
              && (forall c :: c in report.left ==> c in FoundIn(MarketOf(r, node), node.peers, peer, Asked(r, order)))
    ensures outcome.Ok? ==>
              var p, report, s := ParamsOf(r), outcome.value, FinalState(r, node, order, world, m);
              && s.running == [] && (forall k: nat :: k < m ==> FinalState(r, node, order, world, k).running != [])
              && n == s.successes && report.left == s.queue && report.balances == s.peers
              && report.attempts == Attempts(world, m)
    ensures outcome.Ok? && Orderly(node) && Smooth(r, node, order, world) ==>
              && ParamsOf(r).splitAmount * n == ParamsOf(r).amount
              && (0 < r.amount && r.amount * 1000 < UINT64 && 0 < r.splitAmount && r.splitAmount * 1000 < UINT64 ==>
                    outcome.value.rebalancedSats == r.amount)
    ensures outcome.Ok? && Orderly(node) ==>
              var found := FoundIn(MarketOf(r, node), node.peers, TargetPeer(r, node).value, Asked(r, order));
              && TargetMoved(ParamsOf(r), node.balances, outcome.value.balances, n)
              && (forall c :: c in found && c in node.balances ==>
                    NotDrained(ParamsOf(r), node.balances, outcome.value.balances, c, multiset(found)[c]))
              && (ListedOnce(MarketOf(r, node), node.peers, TargetPeer(r, node).value, Asked(r, order)) ==>
                    forall c :: c in found && c in node.balances ==>
                      PromiseMet(ParamsOf(r), node.balances, outcome.value.balances, c))
  {
    hide FoundIn, Msat, Rounds, Attempts, FireAll, Ample, NotDrained, PromiseMet, TargetMoved, Proper, Sats;
    n, m := 0, 0;
    if r.target == None { return Err(MissingParameter), n, m; }
    var d := SetDefaults(r);
    var invalid := Validate(d.amount, d.splitAmount);
    if invalid.Some? { return Err(BadAmounts(invalid.value)), n, m; }
    if d.percent > d.whole { return Err(PercentTooHigh), n, m; }
    var peer := TargetPeer(r, node);
    if peer == None { return Err(UnknownTarget), n, m; }
    var found := FindCandidates(MarketOf(r, node), node.peers, peer.value, Asked(r, order));
    if found.Err? { return Err(NoCandidate), n, m; }
    var report;
    report, n, m := Rebalanced(ParamsOf(r), found.value, node.balances, world);
    if Orderly(node) { OrderlyFound(r, node, order, peer.value); }
    if && ParamsOf(r).splitAmount * n == ParamsOf(r).amount
       && 0 < r.amount && r.amount * 1000 < UINT64 && 0 < r.splitAmount && r.splitAmount * 1000 < UINT64
    {
      WholeAmountInSats(r, n);
    }
    return Ok(report), n, m;
  }

  /** Firing and waiting, from the candidates found to the report. */
  method Rebalanced(p: Params, found: seq<Scid>, balances: map<Scid, PeerChannel>, world: nat -> Arrival)
    returns (report: Report, ghost n: nat, ghost m: nat)
    requires ValidParams(p)
    ensures p.splitAmount * n <= p.amount && report.rebalancedSats == Sats(p, n)
    ensures p.splits > 0 ==> p.splitAmount * n == p.amount || report.left == []
    ensures forall c :: c in report.left ==> c in found
    ensures var start := FireAll(p, Start(found, balances));
            var s := Rounds(p, start, world, m);
            && s.running == [] && (forall k: nat :: k < m ==> Rounds(p, start, world, k).running != [])
            && n == s.successes && report.left == s.queue && report.balances == s.peers
            && report.attempts == Attempts(world, m)
    ensures p.target !in found && Solvent(balances) ==>
              && TargetMoved(p, balances, report.balances, n)
              && (forall c :: c in found && c in balances ==>
                    NotDrained(p, balances, report.balances, c, multiset(found)[c]))
              && (Distinct(found) ==> forall c :: c in found && c in balances ==>
                    PromiseMet(p, balances, report.balances, c))
              && ((exists c :: c in found && AlwaysSucceeds(p, balances, world, c)) ==> p.splitAmount * n == p.amount)
  {
    hide Rounds, Attempts, FireAll, Ample, Legal, After, Sats, Guard;
    var run := new ParallelRebalance(p, found, balances);
    run.FireCandidates();
    m := run.WaitForResult(world);
    run.Finished();
    if p.target !in found && Solvent(balances) {
      run.TargetKept();
      run.NotDrained();
      if Distinct(found) { run.ThresholdsKept(); }
      if c :| c in found && AlwaysSucceeds(p, balances, world, c) {
        AllSucceedCompletes(p, found, balances, c, world, m);
      }
    }
    n := run.successes;
    report := Report(run.rebalancedSats, run.totalAttempts, run.candidates, run.peers);
  }
}
