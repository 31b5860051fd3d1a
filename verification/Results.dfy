/**
 * What becomes of a run when its results arrive: the scheduler as a function of the arrivals. Each
 * round takes one result and then fires all it can.
 */
module Results {
  import opened Base
  import opened Scheduler
  import opened Depletion

  /** What the environment decides at the arrival of a result: whose it is, how it ended, who is connected. */
  datatype Arrival = Arrival(pick: nat, ok: bool, found: bool, attempts: nat, up: set<Scid>)

  // ---------------------------------------------------------------- firing

  /** `FireCandidates`: usable candidates are fired in order, the others dropped, while the guard holds. */
  function FireAll(p: Params, s: State): State
    requires ValidParams(p)
    decreases |s.queue|
  {
    if !Guard(p, s) || s.queue == [] then s
    else FireAll(p, Apply(p, s, if Usable(p, s, s.queue[0]) then Fire else Discard))
  }

  lemma DropFirst(p: Params, s: State)
    requires ValidParams(p) && Enabled(p, s, Discard)
    ensures FireAll(p, s) == FireAll(p, Apply(p, s, Discard))
    ensures Guard(p, Apply(p, s, Discard))
  {
  }

  lemma FireFirst(p: Params, s: State)
    requires ValidParams(p) && Enabled(p, s, Fire)
    ensures FireAll(p, s) == FireAll(p, Apply(p, s, Fire))
  {
  }

  /** Firing changes neither balances nor counts, and keeps what is in flight. */
  lemma {:induction false} FireAllKeeps(p: Params, s: State)
    requires ValidParams(p)
    ensures var t := FireAll(p, s);
            && t.peers == s.peers && t.successes == s.successes && t.failures == s.failures
            && t.rebalanced == s.rebalanced && s.running <= t.running && (!Guard(p, t) || t.queue == [])
    decreases |s.queue|
  {
    if Guard(p, s) && s.queue != [] {
      FireAllKeeps(p, Apply(p, s, if Usable(p, s, s.queue[0]) then Fire else Discard));
    }
  }

  /** It fires as much as it may: up to the parallelism, the amount, or the last candidate. */
  lemma FiresAllItCan(p: Params, s: State)
    requires ValidParams(p) && Amounts(p, FireAll(p, s))
    ensures var t := FireAll(p, s);
            t.queue == [] || |t.running| >= p.splits || p.splitAmount * (t.successes + |t.running|) == p.amount
  {
    var t := FireAll(p, s);
    FireAllKeeps(p, s);
    hide FireAll;
    SplitsInFlight(p.splitAmount, |t.running|);
    assert p.splitAmount * (t.successes + |t.running|) == t.rebalanced + t.inFlight;
  }

  // ---------------------------------------------------------------- results

  /** The rebalance that the next result is about. */
  function Picked(s: State, a: Arrival): nat
    requires s.running != []
    ensures Picked(s, a) < |s.running|
  {
    a.pick % |s.running|
  }

  /** The result is a success: the payment succeeded, over channels that could carry it. */
  predicate Successful(p: Params, s: State, a: Arrival) {
    s.running != [] && a.ok && Liquid(p, s.peers, s.running[Picked(s, a)])
  }

  function Connected(p: Params, s: State, a: Arrival): State
    requires ValidParams(p)
  {
    Apply(p, s, Connectivity(a.up))
  }

  /** Peers came and went, and one result is taken. */
  function Delivered(p: Params, s: State, a: Arrival): State
    requires ValidParams(p) && s.running != []
  {
    var t := Connected(p, s, a);
    Apply(p, t, Deliver(Picked(t, a), Successful(p, t, a), a.found))
  }

  /** The state after `m` results; where nothing is in flight none is waited for. */
  function Rounds(p: Params, s: State, world: nat -> Arrival, m: nat): State
    requires ValidParams(p)
  {
    if m == 0 then s
    else
      var t := Rounds(p, s, world, m - 1);
      if t.running == [] then t else FireAll(p, Delivered(p, t, world(m - 1)))
  }

  function Attempts(world: nat -> Arrival, m: nat): nat {
    if m == 0 then 0 else Attempts(world, m - 1) + world(m - 1).attempts
  }

  /** How many of the first `m` results are successes. */
  function Succeeded(p: Params, s: State, world: nat -> Arrival, m: nat): nat
    requires ValidParams(p)
  {
    if m == 0 then 0
    else Succeeded(p, s, world, m - 1) + if Successful(p, Rounds(p, s, world, m - 1), world(m - 1)) then 1 else 0
  }

  /** What one result changes: it takes its rebalance out of flight, counts, and decides where the candidate goes. */
  lemma DeliveredBy(p: Params, s: State, a: Arrival)
    requires ValidParams(p) && s.running != []
    ensures a.pick < |s.running| ==> Delivered(p, s, a).running == Without(s.running, a.pick)
    ensures var t, c, ok := Delivered(p, s, a), s.running[Picked(s, a)], Successful(p, s, a);
            && t.running == Without(s.running, Picked(s, a))
            && t.successes == s.successes + (if ok then 1 else 0) && t.failures == s.failures + (if ok then 0 else 1)
            && t.queue == (if ok && a.found then [c] + s.queue else s.queue)
            && t.dropped == (if ok && a.found then s.dropped else s.dropped + [c])
  {
    hide Settle, Without;
    assert Successful(p, Connected(p, s, a), a) == Successful(p, s, a);
  }

  /** The successes of a run are exactly the results that succeeded. */
  lemma {:induction false} RoundsCount(p: Params, s: State, world: nat -> Arrival, m: nat)
    requires ValidParams(p)
    ensures Rounds(p, s, world, m).successes == s.successes + Succeeded(p, s, world, m)
  {
    hide Delivered, FireAll;
    if m > 0 {
      RoundsCount(p, s, world, m - 1);
      var t := Rounds(p, s, world, m - 1);
      if t.running != [] {
        DeliveredBy(p, t, world(m - 1));
        FireAllKeeps(p, Delivered(p, t, world(m - 1)));
      }
    }
  }

  /** Where no payment succeeds nothing is rebalanced. */
  lemma {:induction false} NoneSucceeded(p: Params, s: State, world: nat -> Arrival, m: nat)
    requires ValidParams(p) && forall k: nat :: k < m ==> !world(k).ok
    ensures Succeeded(p, s, world, m) == 0
  {
    if m > 0 { NoneSucceeded(p, s, world, m - 1); }
  }

  /** A candidate that succeeded is the next to be fired, if it can be used and more is wanted. */
  lemma SuccessFiresAgain(p: Params, s: State, a: Arrival)
    requires ValidParams(p) && Successful(p, s, a) && a.found
    requires var t := Delivered(p, s, a); Guard(p, t) && CanGive(p, t.peers, s.running[Picked(s, a)])
    ensures var t, u := Delivered(p, s, a), FireAll(p, Delivered(p, s, a));
            |u.running| > |t.running| && u.running[|t.running|] == s.running[Picked(s, a)]
  {
    var t := Delivered(p, s, a);
    DeliveredBy(p, s, a);
    UsableIff(p, t, t.queue[0]);
    hide Delivered, CanGive, Guard, Usable;
    FireAllKeeps(p, Apply(p, t, Fire));
  }

  // ---------------------------------------------------------------- every round is legal

  ghost predicate Leads(p: Params, start: State, steps: seq<Step>, s: State)
    requires ValidParams(p)
  {
    Legal(p, start, steps) && After(p, start, steps) == s
  }

  /** Some legal run leads from `start` to `s`. */
  ghost predicate Reachable(p: Params, start: State, s: State)
    requires ValidParams(p)
  {
    exists steps :: Leads(p, start, steps, s)
  }

  lemma ReachesItself(p: Params, s: State)
    requires ValidParams(p)
    ensures Reachable(p, s, s)
  {
    NoSteps(p, s);
    assert Leads(p, s, [], s);
  }

  lemma ReachesNext(p: Params, start: State, s: State, step: Step)
    requires ValidParams(p) && Reachable(p, start, s) && Enabled(p, s, step)
    ensures Reachable(p, start, Apply(p, s, step))
  {
    hide Enabled, Apply, Legal, After;
    var steps :| Leads(p, start, steps, s);
    AfterOneMore(p, start, steps, step);
    assert Leads(p, start, steps + [step], Apply(p, s, step));
  }

  lemma {:induction false} FireAllReaches(p: Params, start: State, s: State)
    requires ValidParams(p) && Reachable(p, start, s)
    ensures Reachable(p, start, FireAll(p, s))
    decreases |s.queue|
  {
    hide Reachable;
    if Guard(p, s) && s.queue != [] {
      var step := if Usable(p, s, s.queue[0]) then Fire else Discard;
      ReachesNext(p, start, s, step);
      FireAllReaches(p, start, Apply(p, s, step));
    }
  }

  lemma DeliveredReaches(p: Params, start: State, s: State, a: Arrival)
    requires ValidParams(p) && Reachable(p, start, s) && s.running != []
    ensures Reachable(p, start, Delivered(p, s, a))
  {
    hide Reachable, Settle;
    var t := Connected(p, s, a);
    ReachesNext(p, start, s, Connectivity(a.up));
    ReachesNext(p, start, t, Deliver(Picked(t, a), Successful(p, t, a), a.found));
  }

  lemma {:induction false} RoundsReach(p: Params, start: State, s: State, world: nat -> Arrival, m: nat)
    requires ValidParams(p) && Reachable(p, start, s)
    ensures Reachable(p, start, Rounds(p, s, world, m))
  {
    hide Reachable, Delivered, FireAll;
    if m > 0 {
      RoundsReach(p, start, s, world, m - 1);
      var t := Rounds(p, s, world, m - 1);
      if t.running != [] {
        DeliveredReaches(p, start, t, world(m - 1));
        FireAllReaches(p, start, Delivered(p, t, world(m - 1)));
      }
    }
  }

  /** What holds in every reachable state. */
  lemma ReachableIsSafe(p: Params, found: seq<Scid>, peers: map<Scid, PeerChannel>, s: State)
    requires ValidParams(p) && p.target !in found && Solvent(peers) && Reachable(p, Start(found, peers), s)
    ensures Amounts(p, s) && Conserved(s, found) && TargetBooked(p, peers, s)
  {
    hide Amounts, Conserved, TargetBooked, Legal, After;
    var steps :| Leads(p, Start(found, peers), steps, s);
    RunIsSafe(p, found, peers, steps);
    RunBooksTarget(p, found, peers, steps);
  }

  // ---------------------------------------------------------------- when everything succeeds

  /** Candidate and target hold what all splits of the amount need, to the last. */
  ghost predicate Ample(p: Params, peers: map<Scid, PeerChannel>, c: Scid)
    requires ValidParams(p)
  {
    var before := Moved(p) * (p.amount / p.splitAmount - 1);
    && c in peers && c != p.target && peers[c].normal && peers[c].connected
    && Spare(p, peers[c]) - before >= Threshold(p, peers[c]) && Spare(p, peers[c]) - before >= p.splitAmount
    && p.target in peers && peers[p.target].normal && Room(p, peers[p.target]) - before >= p.splitAmount
  }

  /** The candidate is queued or in flight, in working order, and lost no more than the successes took. */
  ghost predicate Alive(p: Params, peers: map<Scid, PeerChannel>, c: Scid, s: State)
    requires c in peers
  {
    && (c in s.queue || c in s.running) && c in s.peers
    && s.peers[c].normal && s.peers[c].connected && s.peers[c].total == peers[c].total < UINT64
    && s.peers[c].toUs <= s.peers[c].total
    && Spare(p, s.peers[c]) >= Spare(p, peers[c]) - Moved(p) * s.successes
  }

  /** Before the last split is taken candidate and target can still take part. */
  lemma StillAmple(p: Params, peers: map<Scid, PeerChannel>, c: Scid, s: State)
    requires ValidParams(p) && Ample(p, peers, c) && Alive(p, peers, c, s) && TargetBooked(p, peers, s)
    requires s.successes < p.amount / p.splitAmount
    ensures Liquid(p, s.peers, c) && Usable(p, s, c)
  {
    hide Moved, Threshold;
    MulMonotone(s.successes, p.amount / p.splitAmount - 1, Moved(p));
    SameThreshold(p, s.peers[c], peers[c]);
  }

  lemma SameThreshold(p: Params, a: PeerChannel, b: PeerChannel)
    requires p.whole > 0 && a.total == b.total
    ensures Threshold(p, a) == Threshold(p, b)
  {
  }

  /** Below the target amount there is at least one split to come. */
  lemma SplitsToCome(p: Params, s: State)
    requires ValidParams(p) && Amounts(p, s)
    ensures s.rebalanced + s.inFlight < p.amount || s.running != [] ==> s.successes < p.amount / p.splitAmount
  {
    RemainingNotNegative(p, s);
    var all := p.amount / p.splitAmount;
    assert p.amount == p.splitAmount * all;
    if s.successes >= all { MulMonotone(all, s.successes, p.splitAmount); }
  }

  lemma {:induction false} FiringKeepsAlive(p: Params, found: seq<Scid>, peers: map<Scid, PeerChannel>, c: Scid,
                                            s: State)
    requires ValidParams(p) && p.target !in found && Solvent(peers) && Ample(p, peers, c)
    requires Reachable(p, Start(found, peers), s) && Alive(p, peers, c, s)
    ensures Alive(p, peers, c, FireAll(p, s))
    decreases |s.queue|
  {
    hide Reachable, Amounts, Conserved, TargetBooked, Ample, Moved, Solvent;
    if Guard(p, s) && s.queue != [] {
      ReachableIsSafe(p, found, peers, s);
      SplitsToCome(p, s);
      StillAmple(p, peers, c, s);
      var step := if Usable(p, s, s.queue[0]) then Fire else Discard;
      assert c in s.queue ==> c == s.queue[0] || c in s.queue[1..];
      ReachesNext(p, Start(found, peers), s, step);
      FiringKeepsAlive(p, found, peers, c, Apply(p, s, step));
    }
  }

  lemma DeliveryKeepsAlive(p: Params, found: seq<Scid>, peers: map<Scid, PeerChannel>, c: Scid, s: State, a: Arrival)
    requires ValidParams(p) && p.target !in found && Solvent(peers) && Ample(p, peers, c)
    requires Reachable(p, Start(found, peers), s) && Alive(p, peers, c, s) && s.running != []
    requires a.ok && a.found && c in a.up
    ensures Alive(p, peers, c, Delivered(p, s, a))
  {
    hide Reachable, Amounts, Conserved, TargetBooked, Delivered, Usable, Solvent, Ample;
    ReachableIsSafe(p, found, peers, s);
    RunningAreCandidates(s, found, Picked(s, a));
    SplitsToCome(p, s);
    StillAmple(p, peers, c, s);
    CandidateOfAmple(p, peers, c);
    AliveAfter(p, peers, c, s, a);
  }

  lemma CandidateOfAmple(p: Params, peers: map<Scid, PeerChannel>, c: Scid)
    requires ValidParams(p) && Ample(p, peers, c)
    ensures c in peers && c != p.target
  {
  }

  lemma PickedSucceeds(p: Params, s: State, a: Arrival)
    requires s.running != [] && a.ok && Liquid(p, s.peers, s.running[Picked(s, a)])
    ensures Successful(p, s, a)
  {
  }

  /** One result, if the candidate can still give and the target take. */
  lemma AliveAfter(p: Params, peers: map<Scid, PeerChannel>, c: Scid, s: State, a: Arrival)
    requires ValidParams(p) && c in peers && c != p.target && Alive(p, peers, c, s) && s.running != []
    requires s.running[Picked(s, a)] != p.target && Liquid(p, s.peers, c) && a.ok && a.found && c in a.up
    ensures Alive(p, peers, c, Delivered(p, s, a))
  {
    hide Liquid, Moved, Delivered, Without, Spare, Picked, Successful;
    DeliveredBy(p, s, a);
    DeliveredBalance(p, s, a, c);
    if s.running[Picked(s, a)] == c { PickedSucceeds(p, s, a); }
    if c in s.running && s.running[Picked(s, a)] != c { StaysInFlight(s.running, Picked(s, a), c); }
    OneMoreMoved(p, s.successes);
  }

  lemma OneMoreMoved(p: Params, n: nat)
    ensures Moved(p) * (n + 1) == Moved(p) * n + Moved(p) && Moved(p) >= 0
  {
    hide Moved;
  }

  lemma StaysInFlight(s: seq<Scid>, k: nat, c: Scid)
    requires k < |s| && c in s && s[k] != c
    ensures c in Without(s, k)
  {
    WithoutMultiset(s, k);
    assert c in multiset(s);
    assert multiset(Without(s, k))[c] == multiset(s)[c];
  }

  /** What a result does to the balance of a channel other than the target. */
  lemma DeliveredBalance(p: Params, s: State, a: Arrival, c: Scid)
    requires ValidParams(p) && s.running != [] && s.running[Picked(s, a)] != p.target
    requires c in s.peers && c != p.target && s.peers[c].toUs <= s.peers[c].total < UINT64
    ensures var t := Delivered(p, s, a);
            && c in t.peers && t.peers[c].normal == s.peers[c].normal && t.peers[c].connected == (c in a.up)
            && t.peers[c].total == s.peers[c].total && t.peers[c].toUs <= t.peers[c].total
            && Spare(p, t.peers[c]) == Spare(p, s.peers[c])
                                       - if Successful(p, s, a) && s.running[Picked(s, a)] == c then Moved(p) else 0
  {
    hide Moved;
    var t := Connected(p, s, a);
    var d := s.running[Picked(s, a)];
    assert Successful(p, t, a) == Successful(p, s, a);
    OnlyBalances(p, t.peers, d, c);
    if Successful(p, t, a) { SettleOn(p, t, d, c); }
  }

  lemma {:induction false} RoundsKeepAlive(p: Params, found: seq<Scid>, peers: map<Scid, PeerChannel>, c: Scid,
                                           world: nat -> Arrival, m: nat)
    requires ValidParams(p) && p.target !in found && Solvent(peers) && Ample(p, peers, c) && c in found
    requires forall k: nat :: world(k).ok && world(k).found && c in world(k).up
    ensures Alive(p, peers, c, Rounds(p, FireAll(p, Start(found, peers)), world, m))
  {
    hide FireAll, Reachable, Alive, Ample, Delivered, Solvent;
    var start := Start(found, peers);
    ReachesItself(p, start);
    if m == 0 {
      StartsAlive(p, found, peers, c);
      FiringKeepsAlive(p, found, peers, c, start);
    } else {
      RoundsKeepAlive(p, found, peers, c, world, m - 1);
      FireAllReaches(p, start, start);
      RoundsReach(p, start, FireAll(p, start), world, m - 1);
      var t := Rounds(p, FireAll(p, start), world, m - 1);
      if t.running != [] {
        DeliveryKeepsAlive(p, found, peers, c, t, world(m - 1));
        DeliveredReaches(p, start, t, world(m - 1));
        FiringKeepsAlive(p, found, peers, c, Delivered(p, t, world(m - 1)));
      }
    }
  }

  lemma StartsAlive(p: Params, found: seq<Scid>, peers: map<Scid, PeerChannel>, c: Scid)
    requires ValidParams(p) && Solvent(peers) && Ample(p, peers, c) && c in found
    ensures Alive(p, peers, c, Start(found, peers))
  {
    hide Moved, Threshold;
    assert Moved(p) * 0 == 0;
  }

  /**
   * If every payment succeeds and its channel is found again, one candidate stays connected, and it
   * and the target hold what the whole amount needs, then the whole amount is rebalanced, whatever
   * the other candidates, their number and the order of results.
   */
  lemma AllSucceedCompletes(p: Params, found: seq<Scid>, peers: map<Scid, PeerChannel>, c: Scid,
                            world: nat -> Arrival, m: nat)
    requires ValidParams(p) && p.splits > 0 && p.target !in found && Solvent(peers) && Ample(p, peers, c) && c in found
    requires forall k: nat :: world(k).ok && world(k).found && c in world(k).up
    requires var s := Rounds(p, FireAll(p, Start(found, peers)), world, m); Ended(p, s)
    ensures Rounds(p, FireAll(p, Start(found, peers)), world, m).rebalanced == p.amount
  {
    var start := Start(found, peers);
    var s := Rounds(p, FireAll(p, start), world, m);
    RoundsKeepAlive(p, found, peers, c, world, m);
    ReachesItself(p, start);
    FireAllReaches(p, start, start);
    RoundsReach(p, start, FireAll(p, start), world, m);
    ReachableIsSafe(p, found, peers, s);
    EndIsComplete(p, s);
  }
}
