/** The scheduler object: every method takes legal steps of the transition system. */
module Parallel {
  import opened Base
  import opened Scheduler
  import opened Depletion
  import opened Results

  lemma QueueWasFound(s: State, found: seq<Scid>)
    requires Conserved(s, found)
    ensures forall c :: c in s.queue ==> c in found
  {
    forall c | c in s.queue ensures c in found {
      assert Copies(s, c) == multiset(found)[c];
    }
  }

  /** `n` splits in satoshis. */
  function Sats(p: Params, n: nat): nat {
    n * (p.splitAmount / 1000)
  }

  lemma CountOneMore(p: Params, n: nat)
    ensures Sats(p, n + 1) == Sats(p, n) + p.splitAmount / 1000
  {
  }

  /** The state after a result, field by field. */
  lemma DeliverResult(p: Params, s: State, k: nat, ok: bool, lookup: bool)
    requires ValidParams(p) && k < |s.running| && Enabled(p, s, Deliver(k, ok, lookup))
    ensures |Without(s.running, k)| == |s.running| - 1
    ensures var c, n := s.running[k], if ok then 1 else 0;
            Apply(p, s, Deliver(k, ok, lookup)) ==
            State(if ok && lookup then [c] + s.queue else s.queue, Without(s.running, k),
                  if ok && lookup then s.dropped else s.dropped + [c],
                  s.rebalanced + (if ok then p.splitAmount else 0), s.inFlight - p.splitAmount,
                  s.fired, s.successes + n, s.failures + 1 - n,
                  if ok then Settle(p, s.peers, c) else s.peers)
  {
    hide Settle;
  }

  lemma UsableLooked(p: Params, s: State, c: Scid)
    requires p.whole > 0
    ensures Usable(p, s, c) <==> c in s.peers && UseChannel(p, s.peers[c]) == None
  {
  }

  lemma ConnectivityKeeps(p: Params, s: State, up: set<Scid>)
    requires ValidParams(p)
    ensures var t := Apply(p, s, Connectivity(up));
            && t.running == s.running && t.queue == s.queue && t.successes == s.successes
  {
  }

  /** No number of splits within the amount overshoots on candidate `c`. */
  ghost predicate NoneOvershoots(p: Params, peers: map<Scid, PeerChannel>, c: Scid)
    requires p.whole > 0 && c in peers
  {
    forall n: nat :: !Overshoots(p, peers, c, n)
  }

  class ParallelRebalance {
    const p: Params
    var candidates: seq<Scid>
    var running: seq<Scid>
    var amountRebalanced: nat
    var inFlightAmount: int
    var totalAttempts: nat
    var rebalancedSats: nat
    var peers: map<Scid, PeerChannel>

    ghost const found: seq<Scid>
    ghost const peersAtStart: map<Scid, PeerChannel>
    ghost var history: seq<Step>
    ghost var dropped: seq<Scid>
    ghost var fired: nat
    ghost var successes: nat
    ghost var failures: nat

    /** The object as a state of the transition system, with `queue` for the candidates queued. */
    ghost function StateOf(queue: seq<Scid>): State
      reads this
    {
      State(queue, running, dropped, amountRebalanced, inFlightAmount, fired, successes, failures, peers)
    }

    /** Some legal run leads to this state. */
    ghost predicate Reached(queue: seq<Scid>)
      reads this
    {
      && ValidParams(p) && Legal(p, Start(found, peersAtStart), history)
      && After(p, Start(found, peersAtStart), history) == StateOf(queue)
    }

    ghost predicate Valid()
      reads this
    {
      Reached(candidates) && Counted()
    }

    /** Each success is reported as one split in whole satoshis. */
    ghost predicate Counted()
      reads this
    {
      rebalancedSats == Sats(p, successes)
    }

    constructor (p: Params, found: seq<Scid>, peers: map<Scid, PeerChannel>)
      requires ValidParams(p)
      ensures Valid() && this.p == p && this.found == found && peersAtStart == peers
      ensures StateOf(candidates) == Start(found, peers) && totalAttempts == 0
    {
      this.p, this.found, peersAtStart := p, found, peers;
      candidates, running, amountRebalanced, inFlightAmount := found, [], 0, 0;
      totalAttempts, rebalancedSats, this.peers := 0, 0, peers;
      history, dropped, fired, successes, failures := [], [], 0, 0, 0;
    }

    /** Pops candidates until one can give; those before it, which cannot, are dropped. */
    method GetNextCandidate() returns (r: Option<Scid>, ghost skipped: seq<Scid>)
      requires Valid() && Guard(p, StateOf(candidates))
      modifies this`candidates, this`history, this`dropped
      ensures old(candidates) == skipped + (if r.Some? then [r.value] else []) + candidates
      ensures dropped == old(dropped) + skipped && forall c :: c in skipped ==> !CanGive(p, peers, c)
      ensures r.Some? ==> CanGive(p, peers, r.value)
      ensures FireAll(p, old(StateOf(candidates)))
           == FireAll(p, StateOf((if r.Some? then [r.value] else []) + candidates))
      ensures r == None ==> Valid() && candidates == []
      ensures r.Some? ==>
                && Counted() && Reached([r.value] + candidates) && Enabled(p, StateOf([r.value] + candidates), Fire)
                && |candidates| < old(|candidates|)
    {
      hide CanGive, Legal, After, Sats, FireAll, Scheduler.Usable;
      skipped := [];
      while |candidates| > 0
        invariant Valid() && Guard(p, StateOf(candidates)) && |candidates| <= old(|candidates|)
        invariant old(candidates) == skipped + candidates && dropped == old(dropped) + skipped
        invariant forall c :: c in skipped ==> !CanGive(p, peers, c)
        invariant FireAll(p, old(StateOf(candidates))) == FireAll(p, StateOf(candidates))
        decreases |candidates|
      {
        var candidate, rest := candidates[0], candidates[1..];
        assert [candidate] + rest == candidates;
        UsableIff(p, StateOf(candidates), candidate);
        UsableLooked(p, StateOf(candidates), candidate);
        if candidate in peers && UseChannel(p, peers[candidate]) == None {
          candidates := rest;
          return Some(candidate), skipped;
        }
        Drop();
        skipped := skipped + [candidate];
      }
      assert [] + candidates == candidates;
      return None, skipped;
    }

    /** The first candidate, which cannot be used, is dropped. */
    method Drop()
      requires Valid() && candidates != [] && Enabled(p, StateOf(candidates), Discard)
      modifies this`candidates, this`history, this`dropped
      ensures Valid() && Guard(p, StateOf(candidates))
      ensures candidates == old(candidates[1..]) && dropped == old(dropped + [candidates[0]])
      ensures FireAll(p, StateOf(candidates)) == FireAll(p, old(StateOf(candidates)))
    {
      hide Legal, After, Sats, FireAll, Scheduler.Usable;
      DropFirst(p, StateOf(candidates));
      AfterOneMore(p, Start(found, peersAtStart), history, Discard);
      candidates, dropped, history := candidates[1..], dropped + [candidates[0]], history + [Discard];
    }

    /** Starts the rebalance of a popped candidate. */
    method Launch(candidate: Scid)
      requires Reached([candidate] + candidates) && Enabled(p, StateOf([candidate] + candidates), Fire)
      requires Counted()
      modifies this`running, this`inFlightAmount, this`history, this`fired
      ensures Valid() && running == old(running) + [candidate]
      ensures StateOf(candidates) == Apply(p, old(StateOf([candidate] + candidates)), Fire)
    {
      hide Legal, After, Guard, Scheduler.Usable, ValidParams, Sats;
      AfterOneMore(p, Start(found, peersAtStart), history, Fire);
      assert ([candidate] + candidates)[1..] == candidates;
      running := running + [candidate];
      inFlightAmount := inFlightAmount + p.splitAmount;
      history, fired := history + [Fire], fired + 1;
    }

    /** Fires candidates up to the parallelism and the amount; stops where nothing more can be fired. */
    method FireCandidates()
      requires Valid()
      modifies this`candidates, this`running, this`inFlightAmount, this`history, this`dropped, this`fired
      ensures Valid() && (!Guard(p, StateOf(candidates)) || candidates == [])
      ensures |candidates| + |running| <= old(|candidates| + |running|)
      ensures StateOf(candidates) == FireAll(p, old(StateOf(candidates)))
    {
      hide Legal, After, Sats, CanGive, Apply, Scheduler.Usable;
      var carryOn := amountRebalanced + inFlightAmount < p.amount;
      var splitsInFlight := inFlightAmount / p.splitAmount;
      while carryOn && splitsInFlight < p.splits
        invariant Valid() && |candidates| + |running| <= old(|candidates| + |running|)
        invariant FireAll(p, old(StateOf(candidates))) == FireAll(p, StateOf(candidates))
        invariant carryOn == (amountRebalanced + inFlightAmount < p.amount)
        invariant splitsInFlight == inFlightAmount / p.splitAmount
        decreases |candidates|
      {
        var candidate, _ := GetNextCandidate();
        if candidate == None { break; }
        FireFirst(p, StateOf([candidate.value] + candidates));
        Launch(candidate.value);
        carryOn := amountRebalanced + inFlightAmount < p.amount;
        splitsInFlight := inFlightAmount / p.splitAmount;
      }
    }

    /** Peers come and go between results. */
    method SetConnectivity(up: set<Scid>)
      requires Valid()
      modifies this`peers, this`history
      ensures Valid() && StateOf(candidates) == Apply(p, old(StateOf(candidates)), Connectivity(up))
    {
      AfterOneMore(p, Start(found, peersAtStart), history, Connectivity(up));
      peers := map c | c in peers :: peers[c].(connected := c in up);
      history := history + [Connectivity(up)];
    }

    /** One result: success counts, requeues the candidate in front and moves the balances. */
    method TakeResult(k: nat, ok: bool, lookup: bool, attempts: nat)
      requires Valid() && k < |running| && (ok ==> Liquid(p, peers, running[k]))
      modifies this`candidates, this`running, this`amountRebalanced, this`inFlightAmount, this`totalAttempts
      modifies this`rebalancedSats, this`peers, this`history, this`dropped, this`successes, this`failures
      ensures Valid() && totalAttempts == old(totalAttempts) + attempts
      ensures StateOf(candidates) == Apply(p, old(StateOf(candidates)), Deliver(k, ok, lookup))
      ensures successes == old(successes) + (if ok then 1 else 0)
      ensures |candidates| + |running| <= old(|candidates| + |running|) - (if ok then 0 else 1)
    {
      hide Legal, After, Settle, Guard, Scheduler.Usable, Liquid, Sats, ValidParams, Without, Apply, Start;
      DeliverResult(p, StateOf(candidates), k, ok, lookup);
      ghost var next := Apply(p, StateOf(candidates), Deliver(k, ok, lookup));
      AfterOneMore(p, Start(found, peersAtStart), history, Deliver(k, ok, lookup));
      CountOneMore(p, successes);
      history := history + [Deliver(k, ok, lookup)];
      totalAttempts := totalAttempts + attempts;
      var candidate := running[k];
      running := Without(running, k);
      Record(candidate, ok, lookup);
      UpdateAmounts(candidate, ok);
      assert StateOf(candidates) == next;
    }

    /** A success is reported and the candidate put back in front of the queue, if it is found again. */
    method Record(candidate: Scid, ok: bool, lookup: bool)
      modifies this`candidates, this`rebalancedSats, this`dropped, this`successes, this`failures
      ensures rebalancedSats == old(rebalancedSats) + if ok then p.splitAmount / 1000 else 0
      ensures candidates == if ok && lookup then [candidate] + old(candidates) else old(candidates)
      ensures dropped == if ok && lookup then old(dropped) else old(dropped) + [candidate]
      ensures successes == old(successes) + (if ok then 1 else 0) && failures == old(failures) + if ok then 0 else 1
    {
      if ok {
        rebalancedSats := rebalancedSats + p.splitAmount / 1000;
        if lookup { candidates := [candidate] + candidates; } else { dropped := dropped + [candidate]; }
        successes := successes + 1;
      } else {
        dropped, failures := dropped + [candidate], failures + 1;
      }
    }

    method UpdateAmounts(candidate: Scid, ok: bool)
      modifies this`amountRebalanced, this`inFlightAmount, this`peers
      ensures inFlightAmount == old(inFlightAmount) - p.splitAmount
      ensures amountRebalanced == old(amountRebalanced) + if ok then p.splitAmount else 0
      ensures peers == if ok then Settle(p, old(peers), candidate) else old(peers)
    {
      inFlightAmount := inFlightAmount - p.splitAmount;
      if ok {
        amountRebalanced := amountRebalanced + p.splitAmount;
        peers := Settle(p, peers, candidate);
      }
    }

    /** The loop body of `WaitForResult`: peers come and go, one result is taken, and more is fired. */
    method NextResult(a: Arrival)
      requires Valid() && running != []
      modifies this
      ensures Valid() && (!Guard(p, StateOf(candidates)) || candidates == [])
      ensures StateOf(candidates) == FireAll(p, Delivered(p, old(StateOf(candidates)), a))
      ensures totalAttempts == old(totalAttempts) + a.attempts
      ensures successes > old(successes)
           || (successes == old(successes) && |candidates| + |running| < old(|candidates| + |running|))
    {
      hide Legal, After, Sats, Guard, Liquid, FireAll, Apply;
      SetConnectivity(a.up);
      assert running == old(running) by { ConnectivityKeeps(p, old(StateOf(candidates)), a.up); }
      var k := a.pick % |running|;
      TakeResult(k, a.ok && Liquid(p, peers, running[k]), a.found, a.attempts);
      FireAllKeeps(p, StateOf(candidates));
      FireCandidates();
    }

    /**
     * Waits until nothing is in flight, whatever the order and outcome of the results: `m` of them, the
     * `k`-th being `world(k)`. It ends with the whole amount rebalanced or no candidate left, if any
     * parallelism is allowed.
     */
    method WaitForResult(world: nat -> Arrival) returns (ghost m: nat)
      requires Valid() && (!Guard(p, StateOf(candidates)) || candidates == [])
      modifies this
      ensures Valid() && Ended(p, StateOf(candidates))
      ensures p.splits > 0 ==> amountRebalanced == p.amount || candidates == []
      ensures StateOf(candidates) == Rounds(p, old(StateOf(candidates)), world, m)
      ensures totalAttempts == old(totalAttempts) + Attempts(world, m)
      ensures forall k: nat :: k < m ==> Rounds(p, old(StateOf(candidates)), world, k).running != []
    {
      hide Legal, After, Sats, Guard, Delivered, FireAll;
      var n: nat := 0;
      InFlightCounts();
      while inFlightAmount > 0
        invariant Valid() && (!Guard(p, StateOf(candidates)) || candidates == [])
        invariant Amounts(p, StateOf(candidates)) && Remaining(p, StateOf(candidates)) >= 0
        invariant StateOf(candidates) == Rounds(p, old(StateOf(candidates)), world, n)
        invariant totalAttempts == old(totalAttempts) + Attempts(world, n)
        invariant forall k: nat :: k < n ==> Rounds(p, old(StateOf(candidates)), world, k).running != []
        decreases Remaining(p, StateOf(candidates)), |candidates| + |running|
      {
        assert running != [];
        NextResult(world(n));
        n := n + 1;
        InFlightCounts();
      }
      m := n;
      EndsEmpty();
    }

    lemma InFlightCounts()
      requires Valid()
      ensures Amounts(p, StateOf(candidates)) && Remaining(p, StateOf(candidates)) >= 0
    {
      RunIsSafe(p, found, peersAtStart, history);
      RemainingNotNegative(p, StateOf(candidates));
    }

    /** What the run behind a valid object guarantees. */
    lemma Finished()
      requires Valid()
      ensures amountRebalanced == p.splitAmount * successes <= p.amount
      ensures forall c :: c in candidates ==> c in found
    {
      hide Legal, After;
      RunIsSafe(p, found, peersAtStart, history);
      InFlightCounts();
      QueueWasFound(StateOf(candidates), found);
    }

    lemma NotDrained()
      requires Valid() && p.target !in found && Solvent(peersAtStart)
      ensures forall c :: c in found && c in peersAtStart ==>
                SafeBalance(p, peersAtStart, StateOf(candidates), c, multiset(found)[c])
    {
      hide Legal, After, SafeBalance;
      forall c | c in found && c in peersAtStart
        ensures SafeBalance(p, peersAtStart, StateOf(candidates), c, multiset(found)[c])
      {
        RunKeepsBalances(p, found, peersAtStart, history, c);
      }
    }

    lemma TargetKept()
      requires Valid() && p.target !in found && Solvent(peersAtStart)
      ensures TargetBooked(p, peersAtStart, StateOf(candidates))
    {
      hide Legal, After, TargetBooked;
      RunBooksTarget(p, found, peersAtStart, history);
    }

    /** A candidate that no split within the amount can overshoot keeps its threshold. */
    lemma ThresholdsKept()
      requires Valid() && Distinct(found) && p.target !in found && Solvent(peersAtStart)
      ensures forall c :: c in found && c in peersAtStart && NoneOvershoots(p, peersAtStart, c) ==>
                c in peers && Spare(p, peers[c]) >= Min(Spare(p, peersAtStart[c]), Threshold(p, peersAtStart[c]))
    {
      hide Legal, After, Overshoots, Threshold;
      forall c | c in found && c in peersAtStart && NoneOvershoots(p, peersAtStart, c)
        ensures c in peers && Spare(p, peers[c]) >= Min(Spare(p, peersAtStart[c]), Threshold(p, peersAtStart[c]))
      {
        PromiseKeptIff(p, peersAtStart, found, c);
        assert KeepsThreshold(p, peersAtStart, found, c, history);
      }
    }

    lemma EndsEmpty()
      requires Valid() && Amounts(p, StateOf(candidates)) && inFlightAmount <= 0
      requires !Guard(p, StateOf(candidates)) || candidates == []
      ensures Ended(p, StateOf(candidates))
      ensures p.splits > 0 ==> amountRebalanced == p.amount || candidates == []
    {
      if running != [] { MulMonotone(1, |running|, p.splitAmount); }
      EndIsComplete(p, StateOf(candidates));
    }
  }
}
