/**
 * The documented promise about the threshold, "at least this much is left": when every run of a
 * pull or push keeps it for a candidate.
 */
module Depletion {
  import opened Base
  import opened Scheduler

  /** One of the candidates found, which are distinct and do not include the target. */
  ghost predicate Candidate(p: Params, peers: map<Scid, PeerChannel>, found: seq<Scid>, c: Scid) {
    ValidParams(p) && Distinct(found) && c in found && p.target !in found && c in peers && Solvent(peers)
  }

  /** The balance after `n` splits. */
  function Left(p: Params, peers: map<Scid, PeerChannel>, c: Scid, n: nat): int
    requires c in peers
  {
    Spare(p, peers[c]) - Moved(p) * n
  }

  /** After `n` splits the target is a channel that can take one more. */
  predicate TargetTakes(p: Params, peers: map<Scid, PeerChannel>, n: nat) {
    p.target in peers && peers[p.target].normal && Room(p, peers[p.target]) >= Moved(p) * n + p.splitAmount
  }

  /** The `n + 1`st split can still be taken from the candidate, and takes it below the threshold. */
  predicate Overshoots(p: Params, peers: map<Scid, PeerChannel>, c: Scid, n: nat)
    requires p.whole > 0 && c in peers
  {
    && peers[c].normal && p.splits > 0 && p.splitAmount * (n + 1) <= p.amount && TargetTakes(p, peers, n)
    && Left(p, peers, c, n) >= Threshold(p, peers[c]) && Left(p, peers, c, n) >= p.splitAmount
    && Left(p, peers, c, n + 1) < Threshold(p, peers[c])
  }

  /** After these steps the threshold is left on the candidate, or what it started with if that is less. */
  ghost predicate KeepsThreshold(p: Params, peers: map<Scid, PeerChannel>, found: seq<Scid>, c: Scid, steps: seq<Step>)
    requires Candidate(p, peers, found, c) && Legal(p, Start(found, peers), steps)
  {
    var s := After(p, Start(found, peers), steps);
    c in s.peers && Spare(p, s.peers[c]) >= Min(Spare(p, peers[c]), Threshold(p, peers[c]))
  }

  /** No run takes the candidate below its threshold. */
  ghost predicate PromiseKept(p: Params, peers: map<Scid, PeerChannel>, found: seq<Scid>, c: Scid)
    requires Candidate(p, peers, found, c)
  {
    forall steps :: Legal(p, Start(found, peers), steps) ==> KeepsThreshold(p, peers, found, c, steps)
  }

  // ---------------------------------------------------------------- what a run takes from a candidate

  ghost predicate Takes(s: State, step: Step, c: Scid) {
    step.Deliver? && step.ok && step.k < |s.running| && s.running[step.k] == c
  }

  /** How many of the successes of a run are the candidate's. */
  ghost function Taken(p: Params, s: State, steps: seq<Step>, c: Scid): nat
    requires ValidParams(p) && Legal(p, s, steps)
    decreases |steps|
  {
    if steps == [] then 0
    else
      var init := steps[..|steps| - 1];
      Taken(p, s, init, c) + if Takes(After(p, s, init), steps[|steps| - 1], c) then 1 else 0
  }

  /** The candidate lost `n` splits, no more than there were successes; only a normal one runs. */
  ghost predicate Traced(p: Params, peers: map<Scid, PeerChannel>, c: Scid, s: State, n: nat)
    requires c in peers
  {
    && c in s.peers && Spare(p, s.peers[c]) == Left(p, peers, c, n) && n <= s.successes
    && s.peers[c].normal == peers[c].normal && (c in s.running ==> peers[c].normal)
  }

  lemma StepIsTraced(p: Params, peers: map<Scid, PeerChannel>, found: seq<Scid>, c: Scid, s: State, step: Step, n: nat)
    requires Candidate(p, peers, found, c) && Enabled(p, s, step) && Conserved(s, found)
    requires SafeBalance(p, peers, s, c, 1) && Traced(p, peers, c, s, n)
    ensures Traced(p, peers, c, Apply(p, s, step), n + if Takes(s, step, c) then 1 else 0)
  {
    if step.Deliver? {
      hide Distinct, Solvent, Conserved, SafeBalance, Enabled, Apply, Traced;
      RunningAreCandidates(s, found, step.k);
      DeliverIsTraced(p, peers, c, s, step, n);
    } else {
      hide Distinct, Solvent, Conserved, Guard, Threshold, Moved;
    }
  }

  lemma DeliverIsTraced(p: Params, peers: map<Scid, PeerChannel>, c: Scid, s: State, step: Step, n: nat)
    requires ValidParams(p) && c in peers && step.Deliver? && Enabled(p, s, step)
    requires c != p.target && s.running[step.k] != p.target
    requires SafeBalance(p, peers, s, c, 1) && Traced(p, peers, c, s, n)
    ensures Traced(p, peers, c, Apply(p, s, step), n + if Takes(s, step, c) then 1 else 0)
  {
    hide Moved, Threshold, Settle, Liquid, Without, Spare, Floor;
    StillIn(s.running, step.k, c);
    OnlyBalances(p, s.peers, s.running[step.k], c);
    if step.ok { SettleOn(p, s, s.running[step.k], c); }
    assert Moved(p) * (n + 1) == Moved(p) * n + Moved(p);
  }

  lemma StillIn(s: seq<Scid>, k: nat, x: Scid)
    requires k < |s|
    ensures x in Without(s, k) ==> x in s
  {
  }

  lemma OnlyBalances(p: Params, peers: map<Scid, PeerChannel>, d: Scid, c: Scid)
    requires c in peers
    ensures var t := Settle(p, peers, d);
            c in t && t[c].normal == peers[c].normal && t[c].connected == peers[c].connected
  {
  }

  lemma QueuedOnce(found: seq<Scid>, c: Scid)
    requires Distinct(found) && c in found
    ensures multiset(found)[c] == 1
  {
    OnceInDistinct(found, c);
  }

  /** The only rebalance of a distinct candidate keeps it above the bound for one. */
  lemma SafeOnce(p: Params, peers: map<Scid, PeerChannel>, found: seq<Scid>, c: Scid, steps: seq<Step>)
    requires Candidate(p, peers, found, c) && Legal(p, Start(found, peers), steps)
    ensures SafeBalance(p, peers, After(p, Start(found, peers), steps), c, 1)
  {
    hide Legal, After, SafeBalance, Distinct, Solvent;
    RunKeepsBalances(p, found, peers, steps, c);
    QueuedOnce(found, c);
  }

  lemma TakenNext(p: Params, s: State, steps: seq<Step>, c: Scid)
    requires ValidParams(p) && Legal(p, s, steps) && steps != []
    ensures var init, step := steps[..|steps| - 1], steps[|steps| - 1];
            && Legal(p, s, init) && Enabled(p, After(p, s, init), step)
            && After(p, s, steps) == Apply(p, After(p, s, init), step)
            && Taken(p, s, steps, c) == Taken(p, s, init, c) + if Takes(After(p, s, init), step, c) then 1 else 0
  {
    hide Apply, Enabled, Takes;
  }

  lemma TakenNone(p: Params, peers: map<Scid, PeerChannel>, found: seq<Scid>, c: Scid)
    requires ValidParams(p) && c in peers
    ensures Legal(p, Start(found, peers), []) && Traced(p, peers, c, After(p, Start(found, peers), []), 0)
    ensures Taken(p, Start(found, peers), [], c) == 0
  {
    hide Moved;
    assert Moved(p) * 0 == 0;
  }

  lemma {:induction false} RunIsTraced(p: Params, peers: map<Scid, PeerChannel>, found: seq<Scid>, c: Scid,
                                       steps: seq<Step>)
    requires Candidate(p, peers, found, c) && Legal(p, Start(found, peers), steps)
    ensures Traced(p, peers, c, After(p, Start(found, peers), steps), Taken(p, Start(found, peers), steps, c))
    decreases |steps|
  {
    hide Traced, Takes, Apply, Enabled, Conserved, Amounts, SafeBalance, Distinct, Solvent, Legal, After, Taken;
    if steps == [] {
      TakenNone(p, peers, found, c);
    } else {
      TakenNext(p, Start(found, peers), steps, c);
      var init := steps[..|steps| - 1];
      RunIsTraced(p, peers, found, c, init);
      RunIsSafe(p, found, peers, init);
      SafeOnce(p, peers, found, c, init);
      var s, n := After(p, Start(found, peers), init), Taken(p, Start(found, peers), init, c);
      StepIsTraced(p, peers, found, c, s, steps[|steps| - 1], n);
    }
  }

  /** While its only rebalance is in flight the candidate is not below its threshold. */
  lemma RunningIsAbove(p: Params, peers: map<Scid, PeerChannel>, found: seq<Scid>, c: Scid, s: State)
    requires Candidate(p, peers, found, c) && Conserved(s, found) && SafeBalance(p, peers, s, c, 1) && c in s.running
    ensures Spare(p, s.peers[c]) >= Threshold(p, peers[c])
  {
    hide Moved, Threshold, Spare;
    QueuedOnce(found, c);
    assert Copies(s, c) == 1;
    assert multiset(s.running)[c] == 1;
    assert Moved(p) * 0 == 0;
  }

  /** The step that goes below the threshold is a success of the candidate, at a split that overshoots. */
  lemma CrossingOvershoots(p: Params, peers: map<Scid, PeerChannel>, found: seq<Scid>, c: Scid, s: State, step: Step,
                           n: nat)
    requires Candidate(p, peers, found, c) && Enabled(p, s, step) && Conserved(s, found) && Amounts(p, s)
    requires SafeBalance(p, peers, s, c, 1) && Traced(p, peers, c, s, n) && TargetBooked(p, peers, s)
    requires Spare(p, s.peers[c]) >= Min(Spare(p, peers[c]), Threshold(p, peers[c]))
    requires Traced(p, peers, c, Apply(p, s, step), n + if Takes(s, step, c) then 1 else 0)
    requires Spare(p, Apply(p, s, step).peers[c]) < Min(Spare(p, peers[c]), Threshold(p, peers[c]))
    ensures Overshoots(p, peers, c, n)
  {
    hide Conserved, Amounts, Apply, Enabled, Threshold, Moved, Left, Distinct, Solvent;
    hide SafeBalance, TargetBooked, TargetTakes;
    assert Takes(s, step, c);
    TakenFits(p, s, step, c);
    RunningIsAbove(p, peers, found, c, s);
    TargetTook(p, peers, s, step, c, n);
    OneLess(p, peers, c, n + 1);
    MulMonotone(n + 1, s.successes + 1, p.splitAmount);
  }

  lemma TakenFits(p: Params, s: State, step: Step, c: Scid)
    requires ValidParams(p) && Enabled(p, s, step) && Amounts(p, s) && Takes(s, step, c)
    ensures c in s.running && c in s.peers && Spare(p, s.peers[c]) >= p.splitAmount
    ensures p.splits > 0 && p.splitAmount * (s.successes + 1) <= p.amount
  {
    hide Settle;
    StepKeepsAmounts(p, s, step);
  }

  /** At a success the target still had room, and had more when only this candidate's successes are counted. */
  lemma TargetTook(p: Params, peers: map<Scid, PeerChannel>, s: State, step: Step, c: Scid, n: nat)
    requires ValidParams(p) && Enabled(p, s, step) && Takes(s, step, c) && TargetBooked(p, peers, s) && n <= s.successes
    ensures TargetTakes(p, peers, n)
  {
    hide Moved, Room;
    MulMonotone(n, s.successes, Moved(p));
  }

  /** A run that goes below the threshold overshoots at some split. */
  lemma {:induction false} BelowMeansOvershot(p: Params, peers: map<Scid, PeerChannel>, found: seq<Scid>, c: Scid,
                                              steps: seq<Step>)
    returns (n: nat)
    requires Candidate(p, peers, found, c) && Legal(p, Start(found, peers), steps)
    requires !KeepsThreshold(p, peers, found, c, steps)
    ensures Overshoots(p, peers, c, n)
    decreases |steps|
  {
    var init, step := steps[..|steps| - 1], steps[|steps| - 1];
    if !KeepsThreshold(p, peers, found, c, init) {
      n := BelowMeansOvershot(p, peers, found, c, init);
    } else {
      RunIsTraced(p, peers, found, c, init);
      RunIsTraced(p, peers, found, c, steps);
      RunIsSafe(p, found, peers, init);
      SafeOnce(p, peers, found, c, init);
      RunBooksTarget(p, found, peers, init);
      n := Taken(p, Start(found, peers), init, c);
      TracedKnown(p, peers, c, After(p, Start(found, peers), steps), Taken(p, Start(found, peers), steps, c));
      hide Amounts, Conserved, SafeBalance, Overshoots, Enabled, Apply, Threshold, Traced, Takes, TargetBooked;
      CrossingOvershoots(p, peers, found, c, After(p, Start(found, peers), init), step, n);
    }
  }

  lemma TracedKnown(p: Params, peers: map<Scid, PeerChannel>, c: Scid, s: State, n: nat)
    requires c in peers && Traced(p, peers, c, s, n)
    ensures c in s.peers
  {
  }

  // ---------------------------------------------------------------- the run that overshoots

  /** Only the candidate and the target stay connected; the `i` channels queued before it are dropped. */
  function Reach(p: Params, c: Scid, i: nat): seq<Step> {
    if i == 0 then [Connectivity({c, p.target})] else Reach(p, c, i - 1) + [Discard]
  }

  /** Then it is fired and delivered successfully, `n` times. */
  function Cycle(p: Params, c: Scid, i: nat, n: nat): seq<Step> {
    if n == 0 then Reach(p, c, i) else Cycle(p, c, i, n - 1) + [Fire] + [Deliver(0, true, true)]
  }

  /** Nothing in flight, the first `i` channels dropped, only the candidate and the target connected. */
  ghost predicate Reached(p: Params, peers: map<Scid, PeerChannel>, found: seq<Scid>, c: Scid, s: State, i: nat)
    requires i <= |found| && c in peers
  {
    && s.queue == found[i..] && s.running == [] && s.inFlight == 0 && s.rebalanced == 0 && s.successes == 0
    && s.peers.Keys == peers.Keys && s.peers[c] == peers[c].(connected := true)
    && (p.target in peers ==> s.peers[p.target] == peers[p.target].(connected := true))
    && forall x :: x in s.peers && x != c && x != p.target ==> !s.peers[x].connected
  }

  lemma {:induction false} ReachRuns(p: Params, peers: map<Scid, PeerChannel>, found: seq<Scid>, c: Scid, i: nat)
    requires Candidate(p, peers, found, c) && p.splits > 0 && i <= |found| && c !in found[..i]
    ensures Legal(p, Start(found, peers), Reach(p, c, i))
    ensures Reached(p, peers, found, c, After(p, Start(found, peers), Reach(p, c, i)), i)
  {
    hide Legal, After, Apply, Enabled, Distinct, Solvent, Reached;
    var start := Start(found, peers);
    if i == 0 {
      ReachFirst(p, peers, found, c);
      assert Legal(p, start, []) && After(p, start, []) == start by { NoSteps(p, start); }
      AfterOneMore(p, start, [], Connectivity({c, p.target}));
      assert [] + [Connectivity({c, p.target})] == [Connectivity({c, p.target})];
    } else {
      assert found[..i] == found[..i - 1] + [found[i - 1]];
      ReachRuns(p, peers, found, c, i - 1);
      ReachDiscard(p, peers, found, c, After(p, start, Reach(p, c, i - 1)), i - 1);
      AfterOneMore(p, start, Reach(p, c, i - 1), Discard);
    }
  }

  lemma NoSteps(p: Params, s: State)
    requires ValidParams(p)
    ensures Legal(p, s, []) && After(p, s, []) == s
  {
  }

  lemma ReachFirst(p: Params, peers: map<Scid, PeerChannel>, found: seq<Scid>, c: Scid)
    requires ValidParams(p) && c in peers
    ensures Enabled(p, Start(found, peers), Connectivity({c, p.target}))
    ensures Reached(p, peers, found, c, Apply(p, Start(found, peers), Connectivity({c, p.target})), 0)
  {
  }

  lemma ReachDiscard(p: Params, peers: map<Scid, PeerChannel>, found: seq<Scid>, c: Scid, s: State, i: nat)
    requires ValidParams(p) && p.splits > 0 && c in peers && i < |found| && found[i] != c && found[i] != p.target
    requires Reached(p, peers, found, c, s, i)
    ensures Enabled(p, s, Discard) && Reached(p, peers, found, c, Apply(p, s, Discard), i + 1)
  {
    hide Threshold;
    SplitsInFlight(p.splitAmount, 0);
    assert s.queue[0] == found[i] && s.queue[1..] == found[i + 1..];
  }

  /** In front of the queue with nothing in flight, and `n` splits less. */
  ghost predicate Idle(p: Params, peers: map<Scid, PeerChannel>, c: Scid, s: State, n: nat)
    requires c in peers
  {
    && s.queue != [] && s.queue[0] == c && s.running == [] && s.inFlight == 0 && s.rebalanced == p.splitAmount * n
    && s.successes == n && TargetBooked(p, peers, s)
    && c in s.peers && s.peers[c].total == peers[c].total && s.peers[c].normal && s.peers[c].connected
    && s.peers[c].toUs <= s.peers[c].total
    && Spare(p, s.peers[c]) == Left(p, peers, c, n)
  }

  lemma {:induction false} CycleRuns(p: Params, peers: map<Scid, PeerChannel>, found: seq<Scid>, c: Scid, i: nat,
                                     n: nat)
    requires Candidate(p, peers, found, c) && p.splits > 0 && peers[c].normal && p.splitAmount * n <= p.amount
    requires i < |found| && found[i] == c && c !in found[..i]
    requires n > 0 ==> Left(p, peers, c, n - 1) >= Threshold(p, peers[c]) && Left(p, peers, c, n - 1) >= p.splitAmount
    requires n > 0 ==> TargetTakes(p, peers, n - 1)
    ensures Legal(p, Start(found, peers), Cycle(p, c, i, n))
    ensures Idle(p, peers, c, After(p, Start(found, peers), Cycle(p, c, i, n)), n)
  {
    hide Legal, After, Threshold, Moved;
    if n == 0 {
      ReachRuns(p, peers, found, c, i);
      RunBooksTarget(p, found, peers, Reach(p, c, i));
      hide Candidate, TargetBooked;
      assert Solvent(peers);
    } else {
      OneLess(p, peers, c, n);
      if n > 1 { FewerTaken(p, peers, n - 1); }
      CycleRuns(p, peers, found, c, i, n - 1);
      hide Candidate, Idle, Left;
      CycleOnce(p, peers, found, c, Cycle(p, c, i, n - 1), n - 1);
    }
  }

  lemma OneLess(p: Params, peers: map<Scid, PeerChannel>, c: Scid, n: nat)
    requires c in peers && n > 0
    ensures p.splitAmount * n == p.splitAmount * (n - 1) + p.splitAmount
    ensures Left(p, peers, c, n) == Left(p, peers, c, n - 1) - Moved(p)
    ensures n > 1 ==> Left(p, peers, c, n - 2) == Left(p, peers, c, n - 1) + Moved(p)
  {
    hide Moved;
    assert Moved(p) * n == Moved(p) * (n - 1) + Moved(p);
    if n > 1 { assert Moved(p) * (n - 1) == Moved(p) * (n - 2) + Moved(p); }
  }

  lemma FewerTaken(p: Params, peers: map<Scid, PeerChannel>, n: nat)
    requires n > 0 && TargetTakes(p, peers, n)
    ensures TargetTakes(p, peers, n - 1)
  {
    hide Moved;
    MulMonotone(n - 1, n, Moved(p));
  }

  lemma CycleOnce(p: Params, peers: map<Scid, PeerChannel>, found: seq<Scid>, c: Scid, steps: seq<Step>, n: nat)
    requires Candidate(p, peers, found, c) && p.splits > 0 && Legal(p, Start(found, peers), steps)
    requires Idle(p, peers, c, After(p, Start(found, peers), steps), n) && p.splitAmount * (n + 1) <= p.amount
    requires Left(p, peers, c, n) >= Threshold(p, peers[c]) && Left(p, peers, c, n) >= p.splitAmount
    requires TargetTakes(p, peers, n)
    ensures Legal(p, Start(found, peers), steps + [Fire] + [Deliver(0, true, true)])
    ensures Idle(p, peers, c, After(p, Start(found, peers), steps + [Fire] + [Deliver(0, true, true)]), n + 1)
  {
    hide Legal, After;
    var s := After(p, Start(found, peers), steps);
    IdleFires(p, peers, c, s, n);
    AfterOneMore(p, Start(found, peers), steps, Fire);
    hide Apply, Enabled, Idle;
    AfterOneMore(p, Start(found, peers), steps + [Fire], Deliver(0, true, true));
  }

  /** From idle the candidate can be fired and delivered, which leads to idle again. */
  lemma IdleFires(p: Params, peers: map<Scid, PeerChannel>, c: Scid, s: State, n: nat)
    requires ValidParams(p) && p.splits > 0 && c != p.target && c in peers && peers[c].total < UINT64
    requires Idle(p, peers, c, s, n) && p.splitAmount * (n + 1) <= p.amount
    requires Left(p, peers, c, n) >= Threshold(p, peers[c]) && Left(p, peers, c, n) >= p.splitAmount
    requires TargetTakes(p, peers, n)
    ensures Enabled(p, s, Fire) && Enabled(p, Apply(p, s, Fire), Deliver(0, true, true))
    ensures Idle(p, peers, c, Apply(p, Apply(p, s, Fire), Deliver(0, true, true)), n + 1)
  {
    hide Moved;
    SplitsInFlight(p.splitAmount, 0);
    OneLess(p, peers, c, n + 1);
    var t := Apply(p, s, Fire);
    assert t.running == [c];
    SettleOn(p, t, c, c);
    SettleTarget(p, t.peers, c);
    OnlyBalances(p, t.peers, c, c);
  }

  // ---------------------------------------------------------------- the promise

  /**
   * The documentation promises that the threshold is left on the channel. Over any distinct
   * candidates, every run keeps the promise for one of them exactly if no number of splits within
   * the amount overshoots.
   */
  lemma PromiseKeptIff(p: Params, peers: map<Scid, PeerChannel>, found: seq<Scid>, c: Scid)
    requires Candidate(p, peers, found, c)
    ensures PromiseKept(p, peers, found, c) <==> forall n: nat :: !Overshoots(p, peers, c, n)
  {
    hide Overshoots, KeepsThreshold, Distinct, Solvent;
    if n: nat :| Overshoots(p, peers, c, n) {
      BreaksPromise(p, peers, found, c, n);
    } else {
      forall steps | Legal(p, Start(found, peers), steps) ensures KeepsThreshold(p, peers, found, c, steps) {
        if !KeepsThreshold(p, peers, found, c, steps) {
          var n := BelowMeansOvershot(p, peers, found, c, steps);
        }
      }
    }
  }

  lemma BreaksPromise(p: Params, peers: map<Scid, PeerChannel>, found: seq<Scid>, c: Scid, n: nat)
    requires Candidate(p, peers, found, c) && Overshoots(p, peers, c, n)
    ensures !PromiseKept(p, peers, found, c)
  {
    hide Threshold, Legal, After, Moved, Distinct, Solvent;
    var i := FirstPlace(found, c);
    CycleRuns(p, peers, found, c, i, n + 1);
    MulMonotone(0, n, Moved(p));
    assert !KeepsThreshold(p, peers, found, c, Cycle(p, c, i, n + 1));
  }

  lemma {:induction false} FirstPlace(s: seq<Scid>, x: Scid) returns (i: nat)
    requires x in s
    ensures i < |s| && s[i] == x && x !in s[..i]
  {
    if s[0] == x {
      i := 0;
    } else {
      var j := FirstPlace(s[1..], x);
      i := j + 1;
      assert s[..i] == [s[0]] + s[1..][..j];
    }
  }

  /** How many splits of the amount the target can take. */
  function Takable(p: Params, peers: map<Scid, PeerChannel>): nat
    requires p.splitAmount > 0
  {
    var all := p.amount / p.splitAmount;
    if !TargetTakes(p, peers, 0) then 0
    else if Moved(p) == 0 then all
    else Min(all, Quotient(Room(p, peers[p.target]) - p.splitAmount, Moved(p)) + 1)
  }

  function Quotient(a: int, k: nat): nat {
    if a >= 0 && k > 0 then a / k else 0
  }

  lemma TakableIff(p: Params, peers: map<Scid, PeerChannel>, n: nat)
    requires ValidParams(p)
    ensures n < Takable(p, peers) <==> p.splitAmount * (n + 1) <= p.amount && TargetTakes(p, peers, n)
  {
    var all := p.amount / p.splitAmount;
    WithinAmount(p, n);
    hide Moved, Room;
    if TargetTakes(p, peers, 0) {
      var over := Room(p, peers[p.target]) - p.splitAmount;
      assert Moved(p) * 0 == 0;
      if Moved(p) > 0 { AtMostQuotient(over, Moved(p), n); }
    } else if TargetTakes(p, peers, n) {
      MulMonotone(0, n, Moved(p));
      assert false;
    }
  }

  lemma WithinAmount(p: Params, n: nat)
    requires ValidParams(p)
    ensures n < p.amount / p.splitAmount <==> p.splitAmount * (n + 1) <= p.amount
  {
    AtMostQuotient(p.amount, p.splitAmount, n + 1);
  }

  lemma AtMostQuotient(a: nat, k: nat, n: nat)
    requires k > 0
    ensures n <= a / k <==> k * n <= a
  {
    var q := a / k;
    assert k * q <= a < k * q + k;
    if n <= q { MulMonotone(n, q, k); } else { MulStrict(q, n, k); }
  }

  /**
   * For a usable candidate and a threshold of at least one split: exactly if it starts above the
   * threshold by what all the splits move that the amount allows and the target can take.
   */
  lemma PromiseNeedsWholeAmount(p: Params, peers: map<Scid, PeerChannel>, found: seq<Scid>, c: Scid)
    requires Candidate(p, peers, found, c) && p.splits > 0 && peers[c].normal
    requires Spare(p, peers[c]) >= Threshold(p, peers[c]) >= p.splitAmount
    ensures PromiseKept(p, peers, found, c)
       <==> Spare(p, peers[c]) >= Threshold(p, peers[c]) + Moved(p) * Takable(p, peers)
  {
    PromiseKeptIff(p, peers, found, c);
    hide PromiseKept, Threshold, Moved, Takable, TargetTakes, Distinct, Solvent, Spare;
    var all := Takable(p, peers);
    if Spare(p, peers[c]) < Threshold(p, peers[c]) + Moved(p) * all {
      var n := SplitsAbove(Spare(p, peers[c]) - Threshold(p, peers[c]), Moved(p), all);
      TakableIff(p, peers, n);
      assert Overshoots(p, peers, c, n);
    } else {
      forall n: nat ensures !Overshoots(p, peers, c, n) {
        TakableIff(p, peers, n);
        if n < all { MulMonotone(n + 1, all, Moved(p)); }
      }
    }
  }

  /** The number of splits that stay above, if not all of them do. */
  lemma {:induction false} SplitsAbove(above: nat, split: nat, all: nat) returns (n: nat)
    requires above < split * all
    ensures n < all && split * n <= above < split * (n + 1)
  {
    if above < split * (all - 1) {
      n := SplitsAbove(above, split, all - 1);
    } else {
      n := all - 1;
    }
  }

  // ---------------------------------------------------------------- a candidate queued more than once

  /** `m` splits of one satoshi, all at once, from a channel at its threshold of `m` satoshis. */
  function RepeatedParams(m: nat): Params {
    Params(Pull, 0, 1000 * m, 1000, m, 1000 * m, 1, 1)
  }

  function RepeatedPeers(m: nat, n: nat): map<Scid, PeerChannel>
    requires n <= m
  {
    map[0 := PeerChannel(1000 * m, 1000 * n, true, true), 1 := PeerChannel(1000 * m, 1000 * (m - n), true, true)]
  }

  function Copied(n: nat): seq<Scid> {
    seq(n, _ => 1)
  }

  /** All `j` fired copies are in flight. */
  function FiredTimes(j: nat): seq<Step> {
    if j == 0 then [] else FiredTimes(j - 1) + [Fire]
  }

  /** Then `n` of them succeed. */
  function DeliveredTimes(m: nat, n: nat): seq<Step> {
    if n == 0 then FiredTimes(m) else DeliveredTimes(m, n - 1) + [Deliver(0, true, false)]
  }

  lemma RepeatedIsValid(m: nat)
    requires m > 0
    ensures ValidParams(RepeatedParams(m))
  {
  }

  /** `j` copies fired, none delivered. */
  function RepeatedFired(m: nat, j: nat): State
    requires j <= m
  {
    State(Copied(m - j), Copied(j), [], 0, 1000 * j, j, 0, 0, RepeatedPeers(m, 0))
  }

  lemma {:induction false} RepeatedFires(m: nat, j: nat)
    requires 0 < m && j <= m && ValidParams(RepeatedParams(m))
    ensures var p, start := RepeatedParams(m), Start(Copied(m), RepeatedPeers(m, 0));
            Legal(p, start, FiredTimes(j)) && After(p, start, FiredTimes(j)) == RepeatedFired(m, j)
  {
    hide Legal, After, Apply, Enabled, ValidParams, RepeatedPeers, RepeatedParams;
    var p, start := RepeatedParams(m), Start(Copied(m), RepeatedPeers(m, 0));
    if j == 0 {
      NoSteps(p, start);
      assert Copied(0) == [];
    } else {
      RepeatedFires(m, j - 1);
      RepeatedFire(m, j);
      AfterOneMore(p, start, FiredTimes(j - 1), Fire);
    }
  }

  lemma RepeatedFire(m: nat, j: nat)
    requires 0 < j <= m && ValidParams(RepeatedParams(m))
    ensures var p, s := RepeatedParams(m), RepeatedFired(m, j - 1);
            Enabled(p, s, Fire) && Apply(p, s, Fire) == RepeatedFired(m, j)
  {
    hide ValidParams;
    assert Copied(m - j + 1)[1..] == Copied(m - j) && Copied(j - 1) + [1] == Copied(j);
    assert 1000 * (j - 1) / 1000 == j - 1;
    CopiedFirst(m - j + 1);
    hide Copied;
  }

  /** All fired, `n` of them delivered. */
  function RepeatedState(m: nat, n: nat): State
    requires n <= m
  {
    State([], Copied(m - n), Copied(n), 1000 * n, 1000 * (m - n), m, n, 0, RepeatedPeers(m, n))
  }

  lemma {:induction false} RepeatedDelivers(m: nat, n: nat)
    requires 0 < m && n <= m && 1000 * m < UINT64 && ValidParams(RepeatedParams(m))
    ensures var p, start := RepeatedParams(m), Start(Copied(m), RepeatedPeers(m, 0));
            Legal(p, start, DeliveredTimes(m, n)) && After(p, start, DeliveredTimes(m, n)) == RepeatedState(m, n)
  {
    hide Legal, After, Apply, Enabled, ValidParams, RepeatedPeers;
    if n == 0 {
      RepeatedFires(m, m);
      assert Copied(0) == [];
    } else {
      var p, start := RepeatedParams(m), Start(Copied(m), RepeatedPeers(m, 0));
      RepeatedDelivers(m, n - 1);
      RepeatedStep(m, n);
      hide RepeatedState;
      AfterOneMore(p, start, DeliveredTimes(m, n - 1), Deliver(0, true, false));
    }
  }

  lemma RepeatedStep(m: nat, n: nat)
    requires 0 < n <= m && 1000 * m < UINT64 && ValidParams(RepeatedParams(m))
    ensures var p, s := RepeatedParams(m), RepeatedState(m, n - 1);
            Enabled(p, s, Deliver(0, true, false)) && Apply(p, s, Deliver(0, true, false)) == RepeatedState(m, n)
  {
    hide ValidParams;
    assert Without(Copied(m - n + 1), 0) == Copied(m - n) && Copied(n - 1) + [1] == Copied(n);
    RepeatedSettles(m, n);
    hide Without, Copied, Settle;
    assert Copied(m - n + 1)[0] == 1 && |Copied(m - n + 1)| > 0 by { CopiedFirst(m - n + 1); }
  }

  lemma CopiedFirst(n: nat)
    requires n > 0
    ensures |Copied(n)| > 0 && Copied(n)[0] == 1
  {
  }

  lemma RepeatedSettles(m: nat, n: nat)
    requires 0 < n <= m && 1000 * m < UINT64
    ensures Settle(RepeatedParams(m), RepeatedPeers(m, n - 1), 1) == RepeatedPeers(m, n)
  {
  }

  /**
   * The bound for a candidate queued `m` times is reached: a run takes all `m` splits from a channel
   * that starts at its threshold.
   */
  lemma RepeatedFloorIsTight(m: nat)
    returns (p: Params, peers: map<Scid, PeerChannel>, found: seq<Scid>, c: Scid, steps: seq<Step>)
    requires 0 < m && 1000 * m < UINT64
    ensures ValidParams(p) && p.target !in found && Solvent(peers) && c in found && c in peers
    ensures multiset(found)[c] == m && Legal(p, Start(found, peers), steps)
    ensures var s := After(p, Start(found, peers), steps);
            && Spare(p, peers[c]) == Threshold(p, peers[c])
            && c in s.peers && Spare(p, s.peers[c]) == Floor(p, peers, c, m)
            && Floor(p, peers, c, m) == Threshold(p, peers[c]) - p.splitAmount * m
  {
    p, peers, found, c, steps := RepeatedParams(m), RepeatedPeers(m, 0), Copied(m), 1, DeliveredTimes(m, m);
    hide Legal, After, ValidParams, DeliveredTimes, RepeatedParams, RepeatedPeers, Spare, Threshold, Floor;
    RepeatedIsValid(m);
    RepeatedDelivers(m, m);
    RepeatedValues(m, 0);
    RepeatedValues(m, m);
    CopiedCount(m);
    assert Copied(m)[0] == 1;
  }

  lemma RepeatedValues(m: nat, n: nat)
    requires 0 < m && n <= m && 1000 * m < UINT64
    ensures var p, peers := RepeatedParams(m), RepeatedPeers(m, n);
            && p.target == 0 && p.splitAmount == 1000 && p.whole == 1 && Solvent(peers)
            && 1 in peers && Spare(p, peers[1]) == 1000 * (m - n) && Threshold(p, peers[1]) == 1000 * m
            && Floor(p, peers, 1, m) == 0
  {
    assert Moved(RepeatedParams(m)) == 1000;
  }

  lemma {:induction false} CopiedCount(n: nat)
    ensures multiset(Copied(n))[1] == n
  {
    if n > 0 {
      CopiedCount(n - 1);
      assert Copied(n) == Copied(n - 1) + [1];
    }
  }
}
