/** Where candidates come from, and when they are distinct. */
module Candidates {
  import opened Base
  import opened Channels
  import opened Fees
  import opened Scheduler

  /** Our peers and the channels with each. */
  type Peers = map<NodeId, seq<Scid>>

  /** No channel is listed twice, with one peer or with two. */
  ghost predicate Proper(peers: Peers) {
    && (forall id :: id in peers ==> Distinct(peers[id]))
    && (forall a, b :: a in peers && b in peers && a != b ==> forall x :: x in peers[a] ==> x !in peers[b])
  }

  /** The graph's view of a channel of ours, in the two directions; `bound` is the price bound of the request. */
  datatype Market = Market(kind: Kind, splitAmount: nat, maxPPM: nat, bound: nat,
                           outgoing: Scid -> Option<Gossip>, incoming: Scid -> Option<Gossip>)

  /** `IsGoodCandidate`, and the lookup of the channel in the candidate's direction. */
  predicate IsGood(m: Market, scid: Scid)
    requires m.splitAmount > 0
  {
    match m.kind
    case Pull =>
      m.outgoing(scid).Some? && ComputeFeePPM(m.outgoing(scid).value, m.splitAmount) < m.bound
    case Push =>
      && m.incoming(scid).Some? && ComputeFeePPM(m.incoming(scid).value, m.splitAmount) <= m.maxPPM
      && m.outgoing(scid).Some? && ComputeFeePPM(m.outgoing(scid).value, m.splitAmount) > m.bound
  }

  const DEFAULT_MAX_OUT_PPM: nat := 50
  const DEFAULT_MIN_OUT_PPM: nat := 50
  const UNBOUNDED_PPM: nat := 0x8000_0000_0000_0000

  /** The price bound of a pull: a list of peers sets it to "infinity", then the default fills a zero. */
  function PullBound(listed: bool, maxOutPPM: nat): nat {
    var bound := if listed then UNBOUNDED_PPM else maxOutPPM;
    if bound == 0 then DEFAULT_MAX_OUT_PPM else bound
  }

  /** The price bound of a push: a list of peers sets it to zero, then the default fills the zero. */
  function PushBound(listed: bool, minOutPPM: nat): nat {
    var bound := if listed then 0 else minOutPPM;
    if bound == 0 then DEFAULT_MIN_OUT_PPM else bound
  }

  /**
   * Who is good, in fees for the split amount: in a pull our own is below the bound, in a push the
   * peer's is within the price limit and our own above the bound, each rounded down to whole ppm.
   */
  lemma GoodIff(m: Market, x: Scid)
    requires m.splitAmount > 0
    ensures m.kind == Pull ==>
              (IsGood(m, x) <==>
                 && m.outgoing(x).Some?
                 && ComputeFee(m.outgoing(x).value, m.splitAmount) * 1000000 < m.bound * m.splitAmount)
    ensures m.kind == Push ==>
              (IsGood(m, x) <==>
                 && m.incoming(x).Some?
                 && ComputeFee(m.incoming(x).value, m.splitAmount) * 1000000 < (m.maxPPM + 1) * m.splitAmount
                 && m.outgoing(x).Some?
                 && ComputeFee(m.outgoing(x).value, m.splitAmount) * 1000000 >= (m.bound + 1) * m.splitAmount)
  {
    hide ComputeFee, ComputeFeePPM;
    if m.incoming(x).Some? { ChannelPriceIff(m.incoming(x).value, m.splitAmount, m.maxPPM); }
    if m.outgoing(x).Some? {
      ChannelPriceIff(m.outgoing(x).value, m.splitAmount, m.bound);
      if m.bound > 0 { ChannelPriceIff(m.outgoing(x).value, m.splitAmount, m.bound - 1); }
    }
  }

  function GoodOf(m: Market, scids: seq<Scid>): (r: seq<Scid>)
    requires m.splitAmount > 0
    ensures forall x :: x in r <==> x in scids && IsGood(m, x)
  {
    if scids == [] then []
    else GoodOf(m, scids[..|scids| - 1]) + if IsGood(m, scids[|scids| - 1]) then [scids[|scids| - 1]] else []
  }

  /** What peer `id` contributes: nothing if it is excluded or not a peer. */
  function From(m: Market, peers: Peers, exclude: NodeId, id: NodeId): seq<Scid>
    requires m.splitAmount > 0
  {
    if id == exclude || id !in peers then [] else GoodOf(m, peers[id])
  }

  function FoundIn(m: Market, peers: Peers, exclude: NodeId, ids: seq<NodeId>): seq<Scid>
    requires m.splitAmount > 0
  {
    if ids == [] then []
    else FoundIn(m, peers, exclude, ids[..|ids| - 1]) + From(m, peers, exclude, ids[|ids| - 1])
  }

  datatype FindError = NoCandidates

  /** `FindCandidates` over the peers of `ids`, the request's list or all peers in any order. */
  method FindCandidates(m: Market, peers: Peers, exclude: NodeId,
                        ids: seq<NodeId>) returns (r: Result<seq<Scid>, FindError>)
    requires m.splitAmount > 0
    ensures var found := FoundIn(m, peers, exclude, ids);
            r == if found == [] then Err(NoCandidates) else Ok(found)
  {
    hide IsGood, GoodOf;
    var candidates: seq<Scid> := [];
    for i := 0 to |ids|
      invariant candidates == FoundIn(m, peers, exclude, ids[..i])
    {
      assert ids[..i + 1][..i] == ids[..i];
      if ids[i] == exclude || ids[i] !in peers { continue; }
      var good := GoodChannels(m, peers[ids[i]]);
      candidates := candidates + good;
    }
    assert ids[..|ids|] == ids;
    return if |candidates| == 0 then Err(NoCandidates) else Ok(candidates);
  }

  /** The inner loop: the good channels of one peer, in order. */
  method GoodChannels(m: Market, scids: seq<Scid>) returns (good: seq<Scid>)
    requires m.splitAmount > 0
    ensures good == GoodOf(m, scids)
  {
    good := [];
    for j := 0 to |scids|
      invariant good == GoodOf(m, scids[..j])
    {
      assert scids[..j + 1][..j] == scids[..j];
      if IsGood(m, scids[j]) { good := good + [scids[j]]; }
    }
    assert scids[..|scids|] == scids;
  }

  lemma {:induction false} GoodOfConcat(m: Market, a: seq<Scid>, b: seq<Scid>)
    requires m.splitAmount > 0
    ensures GoodOf(m, a + b) == GoodOf(m, a) + GoodOf(m, b)
  {
    if b == [] {
      assert a + b == a;
    } else {
      assert (a + b)[..|a + b| - 1] == a + b[..|b| - 1];
      GoodOfConcat(m, a, b[..|b| - 1]);
    }
  }

  lemma {:induction false} FoundInConcat(m: Market, peers: Peers, exclude: NodeId, a: seq<NodeId>, b: seq<NodeId>)
    requires m.splitAmount > 0
    ensures FoundIn(m, peers, exclude, a + b) == FoundIn(m, peers, exclude, a) + FoundIn(m, peers, exclude, b)
  {
    if b == [] {
      assert a + b == a;
    } else {
      assert (a + b)[..|a + b| - 1] == a + b[..|b| - 1];
      FoundInConcat(m, peers, exclude, a, b[..|b| - 1]);
    }
  }

  /**
   * The order of candidates is that of the peers asked, and of each peer's channels: what is asked
   * first is found first.
   */
  lemma FoundInOrder(m: Market, peers: Peers, exclude: NodeId, a: seq<NodeId>, b: seq<NodeId>,
                     id: NodeId, left: seq<Scid>, x: Scid, right: seq<Scid>)
    requires m.splitAmount > 0 && id in peers && peers[id] == left + [x] + right
    ensures FoundIn(m, peers, exclude, a + [id] + b) ==
            FoundIn(m, peers, exclude, a)
            + (if id == exclude then [] else GoodOf(m, left) + (if IsGood(m, x) then [x] else []) + GoodOf(m, right))
            + FoundIn(m, peers, exclude, b)
  {
    hide IsGood;
    FoundInConcat(m, peers, exclude, a + [id], b);
    FoundInConcat(m, peers, exclude, a, [id]);
    assert [id][..0] == [] && [x][..0] == [];
    assert FoundIn(m, peers, exclude, [id]) == From(m, peers, exclude, id);
    GoodOfConcat(m, left + [x], right);
    GoodOfConcat(m, left, [x]);
    assert GoodOf(m, [x]) == if IsGood(m, x) then [x] else [];
  }

  lemma {:induction false} GoodDistinct(m: Market, scids: seq<Scid>)
    requires m.splitAmount > 0 && Distinct(scids)
    ensures Distinct(GoodOf(m, scids))
  {
    if scids != [] { GoodDistinct(m, scids[..|scids| - 1]); }
  }

  lemma {:induction false} FoundFrom(m: Market, peers: Peers, exclude: NodeId, ids: seq<NodeId>, x: Scid)
    requires m.splitAmount > 0
    ensures x in FoundIn(m, peers, exclude, ids) <==> exists i :: 0 <= i < |ids| && x in From(m, peers, exclude, ids[i])
  {
    hide IsGood, GoodOf, From;
    if ids != [] {
      var init := ids[..|ids| - 1];
      FoundFrom(m, peers, exclude, init, x);
      assert forall i :: 0 <= i < |init| ==> init[i] == ids[i];
    }
  }

  /** A channel of a listed peer that is ours and not excluded. */
  ghost predicate Offered(peers: Peers, exclude: NodeId, ids: seq<NodeId>, x: Scid) {
    exists id :: id in ids && id != exclude && id in peers && x in peers[id]
  }

  /** The candidates are the good channels among those offered. */
  lemma FoundIffOffered(m: Market, peers: Peers, exclude: NodeId, ids: seq<NodeId>, x: Scid)
    requires m.splitAmount > 0
    ensures x in FoundIn(m, peers, exclude, ids) <==> Offered(peers, exclude, ids, x) && IsGood(m, x)
  {
    hide IsGood, FoundIn;
    FoundFrom(m, peers, exclude, ids, x);
    if id :| id in ids && id != exclude && id in peers && x in peers[id] && IsGood(m, x) {
      var i :| 0 <= i < |ids| && ids[i] == id;
      assert x in From(m, peers, exclude, ids[i]);
    }
  }

  /** Our price for the split amount on channel `x`. */
  function OutgoingPPM(m: Market, x: Scid): nat
    requires m.splitAmount > 0 && m.outgoing(x).Some?
  {
    ComputeFeePPM(m.outgoing(x).value, m.splitAmount)
  }

  /** What the documentation says of a list of peers: whatever our own price, these channels are candidates. */
  predicate Documented(m: Market, x: Scid)
    requires m.splitAmount > 0
  {
    && m.outgoing(x).Some?
    && (m.kind == Push ==> m.incoming(x).Some? && ComputeFeePPM(m.incoming(x).value, m.splitAmount) <= m.maxPPM)
  }

  /** The candidates found are the documented ones, all of them. */
  ghost predicate FindsDocumented(m: Market, peers: Peers, exclude: NodeId, ids: seq<NodeId>)
    requires m.splitAmount > 0
  {
    forall x :: x in FoundIn(m, peers, exclude, ids) <==> Offered(peers, exclude, ids, x) && Documented(m, x)
  }

  /** A pull over a list of peers finds what is documented exactly if no channel of theirs costs us 2^63 ppm or more. */
  lemma ListedPullFindsDocumentedIff(m: Market, maxOutPPM: nat, peers: Peers, exclude: NodeId, ids: seq<NodeId>)
    requires m.splitAmount > 0 && m.kind == Pull && m.bound == PullBound(true, maxOutPPM)
    ensures FindsDocumented(m, peers, exclude, ids)
       <==> forall x :: Offered(peers, exclude, ids, x) && Documented(m, x) ==> OutgoingPPM(m, x) < UNBOUNDED_PPM
  {
    forall x
      ensures (x in FoundIn(m, peers, exclude, ids) <==> Offered(peers, exclude, ids, x) && Documented(m, x))
         <==> (Offered(peers, exclude, ids, x) && Documented(m, x) ==> OutgoingPPM(m, x) < UNBOUNDED_PPM)
    {
      FoundIffOffered(m, peers, exclude, ids, x);
    }
  }

  /**
   * A push over a list of peers is documented to ignore our own price as well. It finds what is
   * documented, whatever lower bound was asked for, exactly if each such channel costs more than
   * the default of 50 ppm.
   */
  lemma ListedPushFindsDocumentedIff(m: Market, minOutPPM: nat, peers: Peers, exclude: NodeId, ids: seq<NodeId>)
    requires m.splitAmount > 0 && m.kind == Push && m.bound == PushBound(true, minOutPPM)
    ensures FindsDocumented(m, peers, exclude, ids)
       <==> forall x :: Offered(peers, exclude, ids, x) && Documented(m, x) ==> OutgoingPPM(m, x) > 50
  {
    forall x
      ensures (x in FoundIn(m, peers, exclude, ids) <==> Offered(peers, exclude, ids, x) && Documented(m, x))
         <==> (Offered(peers, exclude, ids, x) && Documented(m, x) ==> OutgoingPPM(m, x) > 50)
    {
      FoundIffOffered(m, peers, exclude, ids, x);
    }
  }

  lemma DistinctConcat(a: seq<Scid>, b: seq<Scid>)
    ensures Distinct(a + b) <==> Distinct(a) && Distinct(b) && forall x :: x in a ==> x !in b
  {
    var s := a + b;
    if Distinct(s) {
      forall i, j | 0 <= i < j < |b| ensures b[i] != b[j] { assert s[|a| + i] != s[|a| + j]; }
      forall i, j | 0 <= i < j < |a| ensures a[i] != a[j] { assert s[i] != s[j]; }
      forall x | x in a ensures x !in b {
        var i :| 0 <= i < |a| && a[i] == x;
        forall j | 0 <= j < |b| ensures b[j] != x { assert s[i] != s[|a| + j]; }
      }
    } else {
      var i, j :| 0 <= i < j < |s| && s[i] == s[j];
      if j < |a| { assert a[i] == a[j]; }
      else if i < |a| { assert a[i] in a && a[i] == b[j - |a|]; }
      else { assert b[i - |a|] == b[j - |a|]; }
    }
  }

  /** No peer that contributes a candidate is listed twice. */
  ghost predicate ListedOnce(m: Market, peers: Peers, exclude: NodeId, ids: seq<NodeId>)
    requires m.splitAmount > 0
  {
    forall i, j :: 0 <= i < j < |ids| && ids[i] == ids[j] ==> From(m, peers, exclude, ids[i]) == []
  }

  /** The candidates are distinct exactly if no contributing peer is repeated in the list. */
  lemma {:induction false} FoundDistinctIff(m: Market, peers: Peers, exclude: NodeId, ids: seq<NodeId>)
    requires m.splitAmount > 0 && Proper(peers)
    ensures Distinct(FoundIn(m, peers, exclude, ids)) <==> ListedOnce(m, peers, exclude, ids)
  {
    if ids != [] {
      var init, last := ids[..|ids| - 1], ids[|ids| - 1];
      var a, b := FoundIn(m, peers, exclude, init), From(m, peers, exclude, last);
      FoundDistinctIff(m, peers, exclude, init);
      if last in peers { GoodDistinct(m, peers[last]); }
      DistinctConcat(a, b);
      ClashIff(m, peers, exclude, init, last);
      SplitListedOnce(m, peers, exclude, ids);
    }
  }

  lemma SplitListedOnce(m: Market, peers: Peers, exclude: NodeId, ids: seq<NodeId>)
    requires m.splitAmount > 0 && ids != []
    ensures var init, last := ids[..|ids| - 1], ids[|ids| - 1];
            ListedOnce(m, peers, exclude, ids) <==>
              ListedOnce(m, peers, exclude, init) && (last in init ==> From(m, peers, exclude, last) == [])
  {
    var init, last := ids[..|ids| - 1], ids[|ids| - 1];
    if ListedOnce(m, peers, exclude, ids) {
      forall i, j | 0 <= i < j < |init| && init[i] == init[j] ensures From(m, peers, exclude, init[i]) == [] {
        assert ids[i] == ids[j];
      }
      if last in init {
        var i :| 0 <= i < |init| && init[i] == last;
        assert ids[i] == ids[|ids| - 1];
      }
    } else {
      var i, j :| 0 <= i < j < |ids| && ids[i] == ids[j] && From(m, peers, exclude, ids[i]) != [];
      if j < |init| { assert init[i] == init[j]; } else { assert init[i] == last; }
    }
  }

  lemma SamePeer(m: Market, peers: Peers, exclude: NodeId, a: NodeId, b: NodeId, x: Scid)
    requires m.splitAmount > 0 && Proper(peers)
    requires x in From(m, peers, exclude, a) && x in From(m, peers, exclude, b)
    ensures a == b
  {
  }

  /** The last peer's candidates clash with earlier ones exactly if it was listed before and has any. */
  lemma ClashIff(m: Market, peers: Peers, exclude: NodeId, init: seq<NodeId>, last: NodeId)
    requires m.splitAmount > 0 && Proper(peers)
    ensures (forall x :: x in FoundIn(m, peers, exclude, init) ==> x !in From(m, peers, exclude, last))
       <==> (last in init ==> From(m, peers, exclude, last) == [])
  {
    var b := From(m, peers, exclude, last);
    if last in init && b != [] {
      var i :| 0 <= i < |init| && init[i] == last;
      FoundFrom(m, peers, exclude, init, b[0]);
    } else {
      forall x | x in FoundIn(m, peers, exclude, init) ensures x !in b {
        FoundFrom(m, peers, exclude, init, x);
        var i :| 0 <= i < |init| && x in From(m, peers, exclude, init[i]);
        if x in b { SamePeer(m, peers, exclude, init[i], last, x); }
      }
    }
  }

  /** The target's peer is excluded, so the target is not among the candidates. */
  lemma TargetNotFound(m: Market, peers: Peers, exclude: NodeId, ids: seq<NodeId>, target: Scid)
    requires m.splitAmount > 0 && Proper(peers) && exclude in peers && target in peers[exclude]
    ensures target !in FoundIn(m, peers, exclude, ids)
  {
    FoundFrom(m, peers, exclude, ids, target);
  }

  /** How often a peer's good channel is found: as often as the peer is asked. */
  lemma {:induction false} FoundTimes(m: Market, peers: Peers, exclude: NodeId, ids: seq<NodeId>, id: NodeId, x: Scid)
    requires m.splitAmount > 0 && Proper(peers) && id in peers && id != exclude && x in peers[id] && IsGood(m, x)
    ensures multiset(FoundIn(m, peers, exclude, ids))[x] == multiset(ids)[id]
  {
    hide IsGood, GoodOf;
    if ids != [] {
      var init, last := ids[..|ids| - 1], ids[|ids| - 1];
      FoundTimes(m, peers, exclude, init, id, x);
      assert ids == init + [last];
      FoundFromOne(m, peers, exclude, last, id, x);
    }
  }

  lemma FoundFromOne(m: Market, peers: Peers, exclude: NodeId, last: NodeId, id: NodeId, x: Scid)
    requires m.splitAmount > 0 && Proper(peers) && id in peers && id != exclude && x in peers[id] && IsGood(m, x)
    ensures multiset(From(m, peers, exclude, last))[x] == if last == id then 1 else 0
  {
    hide IsGood;
    var from := From(m, peers, exclude, last);
    if last == id {
      GoodDistinct(m, peers[id]);
      OnceInDistinct(from, x);
      assert x in from;
    } else {
      assert x !in from;
    }
  }

  /** A pull or push keeps a candidate above the bound for as many splits as its peer is asked times. */
  lemma AskedTimesKeepsBalances(m: Market, peers: Peers, exclude: NodeId, ids: seq<NodeId>, p: Params,
                                balances: map<Scid, PeerChannel>, steps: seq<Step>, id: NodeId, c: Scid)
    requires m.splitAmount > 0 && Proper(peers) && exclude in peers && p.target in peers[exclude]
    requires ValidParams(p) && Solvent(balances) && id in peers && c in peers[id]
    requires var found := FoundIn(m, peers, exclude, ids);
             c in found && c in balances && Legal(p, Start(found, balances), steps)
    ensures var found := FoundIn(m, peers, exclude, ids);
            SafeBalance(p, balances, After(p, Start(found, balances), steps), c, multiset(ids)[id])
  {
    hide SafeBalance, FoundIn, Legal, After, IsGood;
    AskedPeer(m, peers, exclude, ids, id, c);
    FoundTimes(m, peers, exclude, ids, id, c);
    TargetNotFound(m, peers, exclude, ids, p.target);
    RunKeepsBalances(p, FoundIn(m, peers, exclude, ids), balances, steps, c);
  }

  lemma AskedPeer(m: Market, peers: Peers, exclude: NodeId, ids: seq<NodeId>, id: NodeId, c: Scid)
    requires m.splitAmount > 0 && Proper(peers) && id in peers && c in peers[id] && c in FoundIn(m, peers, exclude, ids)
    ensures id != exclude && IsGood(m, c)
  {
    hide IsGood, FoundIn;
    FoundIffOffered(m, peers, exclude, ids, c);
    var a :| a in ids && a != exclude && a in peers && c in peers[a];
    assert a == id;
  }
}
