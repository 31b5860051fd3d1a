/** The life of a payment in the database: preimage, timeout marker, recorded outcome. */
module Payments {
  import opened Base
  import opened Channels
  import opened Liquidity
  import Store
  import opened Graphs

  /** A payment hash, fresh for every attempt. */
  type Hash = int

  /** Database keys: the bare hash, or the hash behind a prefix. Hashes have a fixed length, so they never clash. */
  datatype Key = PreimageKey(h: Hash) | TimeoutKey(h: Hash) | FailureKey(h: Hash) | SuccessKey(h: Hash)

  type Value = int

  datatype LiquidityUpdate = LiquidityUpdate(amount: nat, scid: Scid, direction: int)

  /** A failure notification: the amount at the erring channel, and that channel. */
  datatype FailureData = FailureData(hash: Hash, msat: nat, scid: Scid, direction: int)

  /** `outcomes` lists the payments whose outcome was taken as ours, in order. */
  datatype State = State(db: map<Key, Value>, updates: seq<LiquidityUpdate>, outcomes: seq<Hash>)

  const TIMEOUT: Value := 0

  datatype Event =
    | Generated(h: Hash, preimage: Value)
    | TimedOut(h: Hash)
    | Failed(f: FailureData)
    | Succeeded(h: Hash)
    | Expired(k: Key)

  predicate Ours(s: State, h: Hash) {
    PreimageKey(h) in s.db || TimeoutKey(h) in s.db
  }

  /** `deleteIfOurs`: the preimage goes first, the timeout marker only if there is no preimage. */
  function Forget(s: State, h: Hash): State
    requires Ours(s, h)
  {
    s.(db := s.db - {if PreimageKey(h) in s.db then PreimageKey(h) else TimeoutKey(h)},
       outcomes := s.outcomes + [h])
  }

  function Save(s: State, saveStats: bool, k: Key): State {
    if saveStats then s.(db := s.db[k := TIMEOUT]) else s
  }

  function UpdateOf(f: FailureData): LiquidityUpdate {
    LiquidityUpdate(FailureAmount(f.msat), f.scid, f.direction)
  }

  function Handle(s: State, saveStats: bool, e: Event): State {
    match e
    case Generated(h, preimage) => s.(db := s.db[PreimageKey(h) := preimage])
    case TimedOut(h) => s.(db := (s.db - {PreimageKey(h)})[TimeoutKey(h) := TIMEOUT])
    case Failed(f) =>
      if Ours(s, f.hash)
      then Save(Forget(s, f.hash), saveStats, FailureKey(f.hash)).(updates := s.updates + [UpdateOf(f)])
      else s
    case Succeeded(h) =>
      if Ours(s, h) then Save(Forget(s, h), saveStats, SuccessKey(h)) else s
    case Expired(k) => s.(db := s.db - {k})
  }

  function Start(): State {
    State(map[], [], [])
  }

  function Run(saveStats: bool, events: seq<Event>): State {
    if events == [] then Start()
    else Handle(Run(saveStats, events[..|events| - 1]), saveStats, events[|events| - 1])
  }

  predicate About(e: Event, h: Hash) {
    match e
    case Generated(g, _) => g == h
    case TimedOut(g) => g == h
    case Failed(f) => f.hash == h
    case Succeeded(g) => g == h
    case Expired(_) => false
  }

  /** A hash is generated before anything else is heard of it, and once. */
  ghost predicate Fresh(events: seq<Event>) {
    forall i, j :: 0 <= i < j < |events| && events[j].Generated? ==> !About(events[i], events[j].h)
  }

  lemma FreshPrefix(events: seq<Event>)
    requires events != [] && Fresh(events)
    ensures Fresh(events[..|events| - 1])
  {
    var init := events[..|events| - 1];
    assert forall i :: 0 <= i < |init| ==> init[i] == events[i];
  }

  /** A hash nobody has heard of has left no trace. */
  lemma {:induction false} UnheardAbsent(saveStats: bool, events: seq<Event>, h: Hash)
    requires forall i :: 0 <= i < |events| ==> !About(events[i], h)
    ensures var s := Run(saveStats, events);
            !Ours(s, h) && h !in s.outcomes
  {
    if events != [] {
      var init := events[..|events| - 1];
      assert forall i :: 0 <= i < |init| ==> init[i] == events[i];
      assert !About(events[|events| - 1], h);
      UnheardAbsent(saveStats, init, h);
    }
  }

  /** A preimage and its timeout marker never stand in the database together. */
  lemma {:induction false} NeverBoth(saveStats: bool, events: seq<Event>, h: Hash)
    requires Fresh(events)
    ensures var db := Run(saveStats, events).db;
            !(PreimageKey(h) in db && TimeoutKey(h) in db)
  {
    if events != [] {
      var init, e := events[..|events| - 1], events[|events| - 1];
      FreshPrefix(events);
      NeverBoth(saveStats, init, h);
      if e.Generated? && e.h == h {
        assert forall i :: 0 <= i < |init| ==> init[i] == events[i];
        UnheardAbsent(saveStats, init, h);
      }
    }
  }

  predicate Closes(e: Event, h: Hash) {
    About(e, h) && !e.Generated?
  }

  /** Once a payment timed out, failed or succeeded, no HTLC with its hash is resolved any more. */
  lemma {:induction false} ClosedStaysClosed(saveStats: bool, events: seq<Event>, h: Hash)
    requires Fresh(events) && exists i :: 0 <= i < |events| && Closes(events[i], h)
    ensures PreimageKey(h) !in Run(saveStats, events).db
  {
    var init, e := events[..|events| - 1], events[|events| - 1];
    assert forall i :: 0 <= i < |init| ==> init[i] == events[i];
    FreshPrefix(events);
    if !Closes(e, h) {
      ClosedStaysClosed(saveStats, init, h);
      assert !(e.Generated? && e.h == h);
    }
  }

  /** The preimage `x` was generated for `h`, and nothing was heard of the payment since. */
  ghost predicate Holds(events: seq<Event>, h: Hash, x: Value) {
    exists i :: && 0 <= i < |events| && events[i] == Generated(h, x)
                && forall j :: i < j < |events| ==> !About(events[j], h) && events[j] != Expired(PreimageKey(h))
  }

  lemma HoldsNext(events: seq<Event>, h: Hash, x: Value)
    requires events != []
    ensures var init, e := events[..|events| - 1], events[|events| - 1];
            Holds(events, h, x) <==>
              e == Generated(h, x) || (Holds(init, h, x) && !About(e, h) && e != Expired(PreimageKey(h)))
  {
    var init, e := events[..|events| - 1], events[|events| - 1];
    assert forall i :: 0 <= i < |init| ==> init[i] == events[i];
    if i :| && 0 <= i < |init| && init[i] == Generated(h, x)
            && forall j :: i < j < |init| ==> !About(init[j], h) && init[j] != Expired(PreimageKey(h)) {
      if !About(e, h) && e != Expired(PreimageKey(h)) { assert events[i] == Generated(h, x); }
    }
    if i :| && 0 <= i < |events| && events[i] == Generated(h, x)
            && forall j :: i < j < |events| ==> !About(events[j], h) && events[j] != Expired(PreimageKey(h)) {
      if i < |init| { assert init[i] == Generated(h, x); }
    }
  }

  lemma PreimageNext(s: State, saveStats: bool, e: Event, h: Hash, x: Value)
    ensures var db := Handle(s, saveStats, e).db;
            PreimageKey(h) in db && db[PreimageKey(h)] == x <==>
              || e == Generated(h, x)
              || (PreimageKey(h) in s.db && s.db[PreimageKey(h)] == x && !About(e, h) && e != Expired(PreimageKey(h)))
  {
  }

  /**
   * An HTLC with hash `h` finds the preimage `x` exactly if that is what was generated for `h`, and
   * the payment neither timed out nor was notified nor expired since.
   */
  lemma {:induction false} PreimageHeldIff(saveStats: bool, events: seq<Event>, h: Hash, x: Value)
    ensures var db := Run(saveStats, events).db;
            PreimageKey(h) in db && db[PreimageKey(h)] == x <==> Holds(events, h, x)
  {
    if events != [] {
      hide Handle, Holds, About;
      var init, e := events[..|events| - 1], events[|events| - 1];
      PreimageHeldIff(saveStats, init, h, x);
      HoldsNext(events, h, x);
      PreimageNext(Run(saveStats, init), saveStats, e, h, x);
    }
  }

  // ---------------------------------------------------------------- at most one outcome

  /** How often the outcome of `h` was taken, and could still be taken. */
  ghost function Taken(s: State, h: Hash): nat {
    multiset(s.outcomes)[h]
  }

  ghost function Pending(s: State, h: Hash): nat {
    (if PreimageKey(h) in s.db then 1 else 0) + (if TimeoutKey(h) in s.db then 1 else 0)
  }

  /** The payment's outcome is taken at most once, now and after any notifications to come. */
  ghost predicate Once(s: State, h: Hash) {
    Taken(s, h) + Pending(s, h) <= 1
  }

  /** Taking an outcome uses up what is pending. */
  lemma ForgetTakes(s: State, g: Hash, h: Hash)
    requires Ours(s, g)
    ensures Taken(Forget(s, g), h) == Taken(s, h) + (if g == h then 1 else 0)
    ensures Pending(Forget(s, g), h) == Pending(s, h) - (if g == h then 1 else 0)
  {
  }

  lemma HandleKeepsOnce(s: State, saveStats: bool, e: Event, h: Hash)
    requires Once(s, h)
    requires e.Generated? && e.h == h ==> Taken(s, h) + Pending(s, h) == 0
    requires e.TimedOut? && e.h == h ==> Ours(s, h) || Taken(s, h) == 0
    ensures Once(Handle(s, saveStats, e), h)
  {
    match e
    case Failed(f) => if Ours(s, f.hash) { ForgetTakes(s, f.hash, h); }
    case Succeeded(g) => if Ours(s, g) { ForgetTakes(s, g, h); }
    case _ =>
  }

  /** A notification of the outcome of the payment with hash `h`. */
  predicate Notifies(e: Event, h: Hash) {
    (e.Failed? && e.f.hash == h) || (e.Succeeded? && e.h == h)
  }

  /** The state after `notes`, oldest first. */
  function HandleAll(s: State, saveStats: bool, notes: seq<Event>): State {
    if notes == [] then s else Handle(HandleAll(s, saveStats, notes[..|notes| - 1]), saveStats, notes[|notes| - 1])
  }

  ghost predicate NotesOf(notes: seq<Event>, h: Hash) {
    forall i :: 0 <= i < |notes| ==> Notifies(notes[i], h)
  }

  /** Notifications use up what is pending: `n` of them take `min(n, pending)` outcomes. */
  lemma {:induction false} NotificationsTakePending(s: State, saveStats: bool, h: Hash, notes: seq<Event>)
    requires NotesOf(notes, h)
    ensures var t, n := HandleAll(s, saveStats, notes), Min(|notes|, Pending(s, h));
            Taken(t, h) == Taken(s, h) + n && Pending(t, h) == Pending(s, h) - n
  {
    if notes != [] {
      var init, e := notes[..|notes| - 1], notes[|notes| - 1];
      assert forall i :: 0 <= i < |init| ==> init[i] == notes[i];
      NotificationsTakePending(s, saveStats, h, init);
      NoteTakes(HandleAll(s, saveStats, init), saveStats, e, h);
    }
  }

  lemma NoteTakes(s: State, saveStats: bool, e: Event, h: Hash)
    requires Notifies(e, h)
    ensures var t, n := Handle(s, saveStats, e), if Ours(s, h) then 1 else 0;
            Taken(t, h) == Taken(s, h) + n && Pending(t, h) == Pending(s, h) - n
  {
    if Ours(s, h) { ForgetTakes(s, h, h); }
  }

  /** However the payment is notified from here on, at most one outcome is taken exactly if `Once` holds. */
  lemma OnceIff(s: State, saveStats: bool, h: Hash)
    ensures Once(s, h) <==> forall notes :: NotesOf(notes, h) ==> Taken(HandleAll(s, saveStats, notes), h) <= 1
  {
    if Once(s, h) {
      forall notes | NotesOf(notes, h) ensures Taken(HandleAll(s, saveStats, notes), h) <= 1 {
        NotificationsTakePending(s, saveStats, h, notes);
      }
    } else {
      var notes := [Succeeded(h), Succeeded(h)];
      NotificationsTakePending(s, saveStats, h, notes);
      assert Taken(HandleAll(s, saveStats, notes), h) > 1;
    }
  }

  /** Handling a timeout keeps that exactly if the payment is still pending or was never resolved. */
  lemma TimeoutKeepsOnceIff(s: State, saveStats: bool, h: Hash)
    requires Once(s, h)
    ensures Once(Handle(s, saveStats, TimedOut(h)), h) <==> Ours(s, h) || Taken(s, h) == 0
  {
  }

  /** Every timeout of `h` is handled while the payment is pending, or before any outcome was taken. */
  ghost predicate TimelyTimeouts(saveStats: bool, events: seq<Event>, h: Hash) {
    forall i :: 0 <= i < |events| && events[i] == TimedOut(h) ==>
      Ours(Run(saveStats, events[..i]), h) || Taken(Run(saveStats, events[..i]), h) == 0
  }

  /** After each event the outcome of `h` is taken at most once, whatever is notified next. */
  ghost predicate AlwaysOnce(saveStats: bool, events: seq<Event>, h: Hash) {
    forall i :: 0 <= i <= |events| ==> Once(Run(saveStats, events[..i]), h)
  }

  lemma NextEvent(saveStats: bool, events: seq<Event>, i: nat)
    requires i < |events|
    ensures Run(saveStats, events[..i + 1]) == Handle(Run(saveStats, events[..i]), saveStats, events[i])
  {
    assert events[..i + 1] == events[..i] + [events[i]];
    RunOneMore(saveStats, events[..i], events[i]);
  }

  lemma {:induction false} TimelyIsOnce(saveStats: bool, events: seq<Event>, h: Hash, i: nat)
    requires Fresh(events) && TimelyTimeouts(saveStats, events, h) && i <= |events|
    ensures Once(Run(saveStats, events[..i]), h)
  {
    if i > 0 {
      hide Run, Handle;
      TimelyIsOnce(saveStats, events, h, i - 1);
      NextEvent(saveStats, events, i - 1);
      var e := events[i - 1];
      if e.Generated? && e.h == h { UnheardAbsent(saveStats, events[..i - 1], h); }
      HandleKeepsOnce(Run(saveStats, events[..i - 1]), saveStats, e, h);
    } else {
      assert Run(saveStats, events[..0]) == Start();
    }
  }

  /**
   * Over every run in which hashes are fresh, the outcome of a payment is taken at most once,
   * however often it is notified, exactly if each of its timeouts is handled in time.
   */
  lemma OutcomeOnceIff(saveStats: bool, events: seq<Event>, h: Hash)
    requires Fresh(events)
    ensures AlwaysOnce(saveStats, events, h) <==> TimelyTimeouts(saveStats, events, h)
  {
    hide Run, Handle, Once, Ours, Taken;
    if TimelyTimeouts(saveStats, events, h) {
      forall i | 0 <= i <= |events| ensures Once(Run(saveStats, events[..i]), h) {
        TimelyIsOnce(saveStats, events, h, i);
      }
    }
    if AlwaysOnce(saveStats, events, h) {
      forall i | 0 <= i < |events| && events[i] == TimedOut(h)
        ensures Ours(Run(saveStats, events[..i]), h) || Taken(Run(saveStats, events[..i]), h) == 0
      {
        NextEvent(saveStats, events, i);
        assert Once(Run(saveStats, events[..i + 1]), h);
        TimeoutKeepsOnceIff(Run(saveStats, events[..i]), saveStats, h);
      }
    }
  }

  /** A success, a late timeout, the success notified again. */
  function LateTimeout(h: Hash): seq<Event> {
    [Generated(h, 1)] + [Succeeded(h)] + [TimedOut(h)] + [Succeeded(h)]
  }

  /** A timeout handled after the payment was resolved lets a repeated notification be taken again. */
  lemma LateTimeoutTakesTwice(saveStats: bool, h: Hash)
    ensures Fresh(LateTimeout(h)) && Taken(Run(saveStats, LateTimeout(h)), h) == 2
  {
    hide Handle, Run;
    var g, ok, late := Generated(h, 1), Succeeded(h), TimedOut(h);
    RunOne(saveStats, g);
    RunOneMore(saveStats, [g], ok);
    RunOneMore(saveStats, [g] + [ok], late);
    RunOneMore(saveStats, [g] + [ok] + [late], ok);
    GeneratedThenResolved(saveStats, h);
    ResolvedThenLate(Run(saveStats, [g] + [ok]), saveStats, h);
    assert multiset([h, h])[h] == 2;
  }

  lemma RunOne(saveStats: bool, e: Event)
    ensures Run(saveStats, [e]) == Handle(Start(), saveStats, e)
  {
    assert [e][..0] == [];
  }

  lemma ResolvedThenLate(s: State, saveStats: bool, h: Hash)
    requires s.outcomes == [h] && !Ours(s, h)
    ensures Handle(Handle(s, saveStats, TimedOut(h)), saveStats, Succeeded(h)).outcomes == [h, h]
  {
  }

  lemma GeneratedThenResolved(saveStats: bool, h: Hash)
    ensures var s := Handle(Handle(Start(), saveStats, Generated(h, 1)), saveStats, Succeeded(h));
            s.outcomes == [h] && !Ours(s, h)
  {
  }

  lemma RunOneMore(saveStats: bool, events: seq<Event>, e: Event)
    ensures Run(saveStats, events + [e]) == Handle(Run(saveStats, events), saveStats, e)
  {
    assert (events + [e])[..|events|] == events;
  }

  // ---------------------------------------------------------------- what is recorded

  /** What one event adds to the records. */
  lemma RecordedBy(s: State, saveStats: bool, e: Event, h: Hash)
    ensures var db := Handle(s, saveStats, e).db;
            && (FailureKey(h) in db ==> FailureKey(h) in s.db || (saveStats && e.Failed? && e.f.hash == h))
            && (SuccessKey(h) in db ==> SuccessKey(h) in s.db || (saveStats && e == Succeeded(h)))
  {
  }

  ghost predicate FailureIn(events: seq<Event>, h: Hash) {
    exists f :: Failed(f) in events && f.hash == h
  }

  lemma NotedNext(events: seq<Event>, h: Hash)
    requires events != []
    ensures var init, e := events[..|events| - 1], events[|events| - 1];
            && (FailureIn(init, h) || (e.Failed? && e.f.hash == h) ==> FailureIn(events, h))
            && (Succeeded(h) in init || e == Succeeded(h) ==> Succeeded(h) in events)
  {
    var init, e := events[..|events| - 1], events[|events| - 1];
    assert events == init + [e];
    if f :| Failed(f) in init && f.hash == h { assert Failed(f) in events; }
    if e.Failed? { assert Failed(e.f) in events; }
  }

  /** Recorded outcomes stem from notifications of that kind. */
  lemma {:induction false} RecordsMatchNotifications(saveStats: bool, events: seq<Event>, h: Hash)
    ensures var db := Run(saveStats, events).db;
            && (FailureKey(h) in db ==> saveStats && FailureIn(events, h))
            && (SuccessKey(h) in db ==> saveStats && Succeeded(h) in events)
  {
    if events != [] {
      var init, e := events[..|events| - 1], events[|events| - 1];
      RecordsMatchNotifications(saveStats, init, h);
      RecordedBy(Run(saveStats, init), saveStats, e, h);
      NotedNext(events, h);
      hide Handle, FailureIn;
    }
  }

  ghost predicate CausedBy(events: seq<Event>, u: LiquidityUpdate) {
    exists f :: Failed(f) in events && u == UpdateOf(f)
  }

  /** Every liquidity update stems from a failure notification. */
  lemma {:induction false} UpdatesAreFailures(saveStats: bool, events: seq<Event>, u: LiquidityUpdate)
    requires u in Run(saveStats, events).updates
    ensures CausedBy(events, u)
  {
    var init, e := events[..|events| - 1], events[|events| - 1];
    assert events == init + [e];
    if u in Run(saveStats, init).updates {
      UpdatesAreFailures(saveStats, init, u);
      var f :| Failed(f) in init && u == UpdateOf(f);
      assert Failed(f) in events;
    } else {
      assert Failed(e.f) in events;
    }
  }

  /** The preimage of `h` was generated, and no outcome of it notified since. */
  ghost predicate Awaited(events: seq<Event>, h: Hash) {
    (exists i :: 0 <= i < |events| && events[i].Generated? && events[i].h == h)
    && forall i :: 0 <= i < |events| ==> !Notifies(events[i], h)
  }

  /** Neither entry of the payment expires, and its timeouts find it pending. */
  ghost predicate Kept(saveStats: bool, events: seq<Event>, h: Hash) {
    forall i :: 0 <= i < |events| ==>
      && events[i] != Expired(PreimageKey(h)) && events[i] != Expired(TimeoutKey(h))
      && (events[i] == TimedOut(h) ==> Ours(Run(saveStats, events[..i]), h))
  }

  lemma KeptPrefix(saveStats: bool, events: seq<Event>, h: Hash)
    requires events != [] && Kept(saveStats, events, h)
    ensures Kept(saveStats, events[..|events| - 1], h)
  {
    hide Ours, Run;
    var init := events[..|events| - 1];
    assert forall i :: 0 <= i < |init| ==> init[i] == events[i] && init[..i] == events[..i];
  }

  lemma AwaitedNext(events: seq<Event>, h: Hash)
    requires events != []
    ensures var init, e := events[..|events| - 1], events[|events| - 1];
            Fresh(events) ==>
              (Awaited(events, h) <==> !Notifies(e, h) && (Awaited(init, h) || (e.Generated? && e.h == h)))
  {
    var init, e := events[..|events| - 1], events[|events| - 1];
    assert forall i :: 0 <= i < |init| ==> init[i] == events[i];
    if i :| 0 <= i < |init| && init[i].Generated? && init[i].h == h { assert events[i].Generated?; }
  }

  /** A payment is held for our own exactly from its generation to the first notification, timed out or not. */
  lemma {:induction false} OursIffAwaited(saveStats: bool, events: seq<Event>, h: Hash)
    requires Fresh(events) && Kept(saveStats, events, h)
    ensures Ours(Run(saveStats, events), h) <==> Awaited(events, h)
  {
    if events != [] {
      var init, e := events[..|events| - 1], events[|events| - 1];
      FreshPrefix(events);
      KeptPrefix(saveStats, events, h);
      OursIffAwaited(saveStats, init, h);
      NeverBoth(saveStats, init, h);
      AwaitedNext(events, h);
      assert events[..|events| - 1] == init;
      assert e == TimedOut(h) ==> Ours(Run(saveStats, init), h);
      OursNext(Run(saveStats, init), saveStats, e, h);
    }
  }

  lemma OursNext(s: State, saveStats: bool, e: Event, h: Hash)
    requires !(PreimageKey(h) in s.db && TimeoutKey(h) in s.db)
    requires e != Expired(PreimageKey(h)) && e != Expired(TimeoutKey(h)) && (e == TimedOut(h) ==> Ours(s, h))
    ensures Ours(Handle(s, saveStats, e), h) <==> !Notifies(e, h) && (Ours(s, h) || (e.Generated? && e.h == h))
  {
  }

  /**
   * The first notification of each payment of ours is taken, even after a timeout: a failure
   * queues the update of what was learned. Later ones, and those of strangers, change nothing.
   */
  lemma FirstNotificationIsTaken(saveStats: bool, events: seq<Event>, f: FailureData)
    requires Fresh(events) && Kept(saveStats, events, f.hash)
    ensures var s, t := Run(saveStats, events), Run(saveStats, events + [Failed(f)]);
            if Awaited(events, f.hash)
            then && t.updates == s.updates + [UpdateOf(f)] && t.outcomes == s.outcomes + [f.hash]
                 && (saveStats ==> FailureKey(f.hash) in t.db)
            else t == s
  {
    OursIffAwaited(saveStats, events, f.hash);
    RunOneMore(saveStats, events, Failed(f));
  }

  /** So is the first success notification: it is recorded, and teaches nothing. */
  lemma FirstSuccessIsTaken(saveStats: bool, events: seq<Event>, h: Hash)
    requires Fresh(events) && Kept(saveStats, events, h)
    ensures var s, t := Run(saveStats, events), Run(saveStats, events + [Succeeded(h)]);
            if Awaited(events, h)
            then && t.updates == s.updates && t.outcomes == s.outcomes + [h]
                 && (saveStats ==> SuccessKey(h) in t.db)
            else t == s
  {
    OursIffAwaited(saveStats, events, h);
    RunOneMore(saveStats, events, Succeeded(h));
  }

  // ---------------------------------------------------------------- the node object

  /** `direction ^ 1`. */
  function Flip(direction: int): int {
    if direction % 2 == 0 then direction + 1 else direction - 1
  }

  lemma FlipIsOpposite(scid: Scid, direction: int)
    requires direction == 0 || direction == 1
    ensures ChannelId(scid, Flip(direction)) == Opposite(ChannelId(scid, direction))
  {
  }

  /** One turn of the update loop: the update is applied to the channel and its opposite direction. */
  function Turn(net: Store.Network, u: LiquidityUpdate, now: int): Store.Network {
    Store.Update(net, ChannelId(u.scid, u.direction), ChannelId(u.scid, Flip(u.direction)), u.amount, now)
  }

  class PaymentNode {
    var db: map<Key, Value>
    var updates: seq<LiquidityUpdate>
    const saveStats: bool
    ghost var outcomes: seq<Hash>

    ghost function View(): State
      reads this
    {
      State(db, updates, outcomes)
    }

    constructor (saveStats: bool)
      ensures View() == Start() && this.saveStats == saveStats
    {
      db, updates, outcomes, this.saveStats := map[], [], [], saveStats;
    }

    method GeneratePreimageHashPair(h: Hash, preimage: Value)
      modifies this
      ensures View() == Handle(old(View()), saveStats, Generated(h, preimage))
    {
      db := db[PreimageKey(h) := preimage];
    }

    method ManageTimeout(h: Hash)
      modifies this
      ensures View() == Handle(old(View()), saveStats, TimedOut(h))
    {
      db := db - {PreimageKey(h)};
      db := db[TimeoutKey(h) := TIMEOUT];
    }

    method DeleteIfOurs(h: Hash) returns (ours: bool)
      modifies this
      ensures ours == Ours(old(View()), h)
      ensures View() == if ours then Forget(old(View()), h) else old(View())
    {
      var key := PreimageKey(h);
      if key !in db {
        key := TimeoutKey(h);
        if key !in db { return false; }
      }
      db := db - {key};
      outcomes := outcomes + [h];
      return true;
    }

    method OnPaymentFailure(f: FailureData)
      modifies this
      ensures View() == Handle(old(View()), saveStats, Failed(f))
    {
      var ours := DeleteIfOurs(f.hash);
      if !ours { return; }
      if saveStats { db := db[FailureKey(f.hash) := TIMEOUT]; }
      updates := updates + [LiquidityUpdate(f.msat - Min(f.msat, 1000000), f.scid, f.direction)];
    }

    method OnPaymentSuccess(h: Hash)
      modifies this
      ensures View() == Handle(old(View()), saveStats, Succeeded(h))
    {
      var ours := DeleteIfOurs(h);
      if !ours { return; }
      if saveStats { db := db[SuccessKey(h) := TIMEOUT]; }
    }

    /** One turn of the update loop: the oldest update is applied to the graph. */
    method UpdateLiquidity(g: Graph, now: int)
      requires g.Keyed() && |updates| > 0
      modifies this`updates, g.channels.Values
      ensures updates == old(updates)[1..] && g.Keyed()
      ensures g.Net() == Turn(old(g.Net()), old(updates)[0], now)
    {
      var u := updates[0];
      updates := updates[1..];
      g.UpdateChannel(ChannelId(u.scid, u.direction), ChannelId(u.scid, Flip(u.direction)), u.amount, now);
    }

    /** An HTLC is resolved exactly while its preimage is in the database. */
    method OnHtlcAccepted(h: Hash) returns (r: Option<Value>)
      ensures r == if PreimageKey(h) in db then Some(db[PreimageKey(h)]) else None
    {
      if PreimageKey(h) !in db { return None; }
      return Some(db[PreimageKey(h)]);
    }
  }
}
