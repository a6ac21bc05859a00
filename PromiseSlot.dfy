/** A single stored promise guarded by a busy flag, as both file managers
    keep one: the Android `FileManager` (`promisePending`, `unsafePromise`)
    and the iOS `DeviceFileManager` (`uploadResolver`/`uploadRejecter`,
    busy while the library runs a transfer).

    A request arriving while busy is refused with the platform's refusal.
    The guarded form leaves the slot alone when it refuses; the storing-first
    form, which Android's `write` and iOS's `upload` follow, stores the new
    promise whether or not it was refused. A callback settles the stored
    promise only while busy and makes the slot idle. */
module PromiseSlot {
  import opened Bridge

  /** Busy flag, stored promise, and everything done so far. */
  datatype Guard = Guard(pending: bool, stored: Option<PromiseId>, effects: seq<Effect>)

  const Idle: Guard := Guard(false, None, [])

  /** The guarded start: while busy, the new promise is refused and the call
      returns; otherwise it becomes the stored one. */
  function Begin(g: Guard, p: PromiseId, refusal: Outcome): Guard
  {
    if g.pending then g.(effects := g.effects + [Settled(Settlement(p, refusal))])
    else g.(pending := true, stored := Some(p))
  }

  /** The storing-first start: the new promise is stored (and the slot busy)
      even when it has just been refused. */
  function BeginStoringFirst(g: Guard, p: PromiseId, refusal: Outcome): Guard
  {
    var effects := if g.pending then g.effects + [Settled(Settlement(p, refusal))] else g.effects;
    Guard(true, Some(p), effects)
  }

  /** Settles the stored promise only while busy, making the slot idle first. */
  function Settle(g: Guard, o: Outcome): Guard
  {
    if g.stored.Some? && g.pending then
      Guard(false, g.stored, g.effects + [Settled(Settlement(g.stored.value, o))])
    else g
  }

  /** A request that fails before it reaches the slot rejects its own
      promise and leaves the slot alone. */
  function Decline(g: Guard, p: PromiseId, o: Outcome): Guard
  {
    g.(effects := g.effects + [Settled(Settlement(p, o))])
  }

  /** A call reaching the slot: a request carrying a fresh promise, started
      in the guarded or the storing-first form or declined with its own
      rejection, or a callback settling the stored promise. */
  datatype Call =
    | Guarded(p: PromiseId)
    | StoringFirst(p: PromiseId)
    | Declined(p: PromiseId, o: Outcome)
    | Callback(o: Outcome)

  /** One call with every request guarded (the intended contract). */
  function Step(g: Guard, refusal: Outcome, c: Call): Guard
  {
    match c
    case Guarded(p) => Begin(g, p, refusal)
    case StoringFirst(p) => Begin(g, p, refusal)
    case Declined(p, o) => Decline(g, p, o)
    case Callback(o) => Settle(g, o)
  }

  /** One call with the storing-first requests as written. */
  function StepAsWritten(g: Guard, refusal: Outcome, c: Call): Guard
  {
    match c
    case Guarded(p) => Begin(g, p, refusal)
    case StoringFirst(p) => BeginStoringFirst(g, p, refusal)
    case Declined(p, o) => Decline(g, p, o)
    case Callback(o) => Settle(g, o)
  }

  function Run(g: Guard, refusal: Outcome, calls: seq<Call>): Guard
    decreases |calls|
  {
    if calls == [] then g else Run(Step(g, refusal, calls[0]), refusal, calls[1..])
  }

  function RunAsWritten(g: Guard, refusal: Outcome, calls: seq<Call>): Guard
    decreases |calls|
  {
    if calls == [] then g else RunAsWritten(StepAsWritten(g, refusal, calls[0]), refusal, calls[1..])
  }

  /** The promises the requests of a call sequence carry, in order. */
  function Requested(calls: seq<Call>): seq<PromiseId>
  {
    if calls == [] then []
    else (if calls[0].Callback? then [] else [calls[0].p]) + Requested(calls[1..])
  }

  /** Every promise is settled at most once, and the stored one, while busy,
      not yet. */
  predicate Consistent(g: Guard)
  {
    && SettledAtMostOnce(g.effects)
    && (g.pending ==> g.stored.Some? && g.stored.value !in SettledPromises(g.effects))
  }

  /** Each request brings a promise of its own, never seen by the slot before. */
  predicate FreshFor(g: Guard, calls: seq<Call>)
  {
    var ps := Requested(calls);
    && (forall i, j | 0 <= i < j < |ps| :: ps[i] != ps[j])
    && (forall i | 0 <= i < |ps| :: ps[i] !in SettledPromises(g.effects) && g.stored != Some(ps[i]))
  }

  /** A guarded request while busy refuses its own promise and leaves the
      slot as it was. */
  lemma BusyLeavesSlotAlone(g: Guard, p: PromiseId, refusal: Outcome)
    requires g.pending
    ensures var g' := Begin(g, p, refusal);
      && g'.pending == g.pending && g'.stored == g.stored
      && Settlements(g'.effects) == Settlements(g.effects) + [Settlement(p, refusal)]
  {
    SettlementsSnoc(g.effects, Settled(Settlement(p, refusal)));
  }

  /** A storing-first request while busy refuses its own promise and still
      replaces the stored one with it. */
  lemma StoringFirstReplacesStored(g: Guard, p: PromiseId, refusal: Outcome)
    requires g.pending
    ensures var g' := BeginStoringFirst(g, p, refusal);
      && g'.pending && g'.stored == Some(p)
      && Settlements(g'.effects) == Settlements(g.effects) + [Settlement(p, refusal)]
  {
    SettlementsSnoc(g.effects, Settled(Settlement(p, refusal)));
  }

  /** A callback settles exactly the stored promise while busy, nothing
      otherwise, and leaves the slot idle. */
  lemma SettleSettlesStored(g: Guard, o: Outcome)
    ensures g.stored.Some? && g.pending ==> !Settle(g, o).pending && Settle(g, o).stored == g.stored
    ensures !(g.stored.Some? && g.pending) ==> Settle(g, o) == g
    ensures Settlements(Settle(g, o).effects) ==
      Settlements(g.effects) + (if g.stored.Some? && g.pending then [Settlement(g.stored.value, o)] else [])
  {
    if g.stored.Some? && g.pending {
      SettlementsSnoc(g.effects, Settled(Settlement(g.stored.value, o)));
    }
  }

  /** A second callback after a settlement settles nothing. */
  lemma SettleOnlyOnce(g: Guard, o1: Outcome, o2: Outcome)
    ensures Settle(Settle(g, o1), o2) == Settle(g, o1)
  {
  }

  /** What freshness of `[c] + rest` says about `rest` and about `c`'s own
      promise. */
  lemma FreshTail(g: Guard, c: Call, rest: seq<Call>)
    requires FreshFor(g, [c] + rest)
    ensures var rs := Requested(rest);
      && (forall i, j | 0 <= i < j < |rs| :: rs[i] != rs[j])
      && (forall i | 0 <= i < |rs| :: rs[i] !in SettledPromises(g.effects) && g.stored != Some(rs[i]))
    ensures !c.Callback? ==>
      && (forall i | 0 <= i < |Requested(rest)| :: Requested(rest)[i] != c.p)
      && c.p !in SettledPromises(g.effects) && g.stored != Some(c.p)
  {
    var calls := [c] + rest;
    assert calls[0] == c && calls[1..] == rest;
    var ps := Requested(calls);
    var rs := Requested(rest);
    var k := if c.Callback? then 0 else 1;
    assert ps == (if c.Callback? then [] else [c.p]) + rs;
    forall i | 0 <= i < |rs|
      ensures rs[i] == ps[i + k]
    {
    }
    if !c.Callback? {
      assert ps[0] == c.p;
    }
  }

  /** A callback keeps the slot consistent and the remaining calls fresh. */
  lemma CallbackKeepsConsistent(g: Guard, o: Outcome, rest: seq<Call>)
    requires Consistent(g) && FreshFor(g, [Callback(o)] + rest)
    ensures Consistent(Settle(g, o)) && FreshFor(Settle(g, o), rest)
  {
    FreshTail(g, Callback(o), rest);
    if g.stored.Some? && g.pending {
      SettleFresh(g.effects, Settlement(g.stored.value, o));
    }
  }

  /** A declined request keeps the slot consistent and the remaining calls
      fresh. */
  lemma DeclinedKeepsConsistent(g: Guard, c: Call, rest: seq<Call>)
    requires c.Declined?
    requires Consistent(g) && FreshFor(g, [c] + rest)
    ensures Consistent(Decline(g, c.p, c.o)) && FreshFor(Decline(g, c.p, c.o), rest)
  {
    FreshTail(g, c, rest);
    SettleFresh(g.effects, Settlement(c.p, c.o));
  }

  /** A guarded request keeps the slot consistent and the remaining calls fresh. */
  lemma RequestKeepsConsistent(g: Guard, refusal: Outcome, c: Call, rest: seq<Call>)
    requires c.Guarded? || c.StoringFirst?
    requires Consistent(g) && FreshFor(g, [c] + rest)
    ensures Consistent(Begin(g, c.p, refusal)) && FreshFor(Begin(g, c.p, refusal), rest)
  {
    FreshTail(g, c, rest);
    if g.pending {
      SettleFresh(g.effects, Settlement(c.p, refusal));
    }
  }

  /** One guarded call keeps the slot consistent and the remaining calls fresh. */
  lemma StepKeepsConsistent(g: Guard, refusal: Outcome, c: Call, rest: seq<Call>)
    requires Consistent(g) && FreshFor(g, [c] + rest)
    ensures Consistent(Step(g, refusal, c)) && FreshFor(Step(g, refusal, c), rest)
  {
    match c
    case Callback(o) => CallbackKeepsConsistent(g, o, rest);
    case Declined(_, _) => DeclinedKeepsConsistent(g, c, rest);
    case _ => RequestKeepsConsistent(g, refusal, c, rest);
  }

  /** Two slots alike in all but the effects that settle nothing. */
  predicate SameSlot(g: Guard, h: Guard)
  {
    g.pending == h.pending && g.stored == h.stored && Settlements(g.effects) == Settlements(h.effects)
  }

  /** Consistency and freshness depend on the settlements alone. */
  lemma SameSlotKeepsConsistent(g: Guard, h: Guard, calls: seq<Call>)
    requires SameSlot(g, h) && Consistent(h) && FreshFor(h, calls)
    ensures Consistent(g) && FreshFor(g, calls)
  {
    assert SettledPromises(g.effects) == SettledPromises(h.effects);
  }

  /** Whatever order requests and callbacks arrive in, as long as each request
      brings its own promise, the guarded slot settles no promise twice. */
  lemma {:induction false} RunKeepsConsistent(g: Guard, refusal: Outcome, calls: seq<Call>)
    requires Consistent(g) && FreshFor(g, calls)
    ensures Consistent(Run(g, refusal, calls))
    decreases |calls|
  {
    if calls != [] {
      assert calls == [calls[0]] + calls[1..];
      StepKeepsConsistent(g, refusal, calls[0], calls[1..]);
      RunKeepsConsistent(Step(g, refusal, calls[0]), refusal, calls[1..]);
    }
  }

  /** From an idle slot, each promise is settled at most once. */
  lemma SettledAtMostOnceFromIdle(refusal: Outcome, calls: seq<Call>)
    requires forall i, j | 0 <= i < j < |Requested(calls)| :: Requested(calls)[i] != Requested(calls)[j]
    ensures SettledAtMostOnce(Run(Idle, refusal, calls).effects)
  {
    RunKeepsConsistent(Idle, refusal, calls);
  }

  /** The three calls of the example below: a request is in flight when a
      storing-first request arrives, then the first one's result comes back. */
  function InterleavedCalls(result: Outcome): seq<Call>
  {
    [Guarded(1), StoringFirst(2), Callback(result)]
  }

  lemma InterleavedAsWritten(refusal: Outcome, result: Outcome)
    ensures RunAsWritten(Idle, refusal, InterleavedCalls(result))
      == Guard(false, Some(2), [Settled(Settlement(2, refusal)), Settled(Settlement(2, result))])
  {
    var calls := InterleavedCalls(result);
    var w1 := StepAsWritten(Idle, refusal, calls[0]);
    var w2 := StepAsWritten(w1, refusal, calls[1]);
    assert w2 == Guard(true, Some(2), [Settled(Settlement(2, refusal))]);
    assert calls[1..][1..][1..] == [];
    assert RunAsWritten(w2, refusal, calls[1..][1..]) == StepAsWritten(w2, refusal, calls[2]);
  }

  lemma InterleavedGuarded(refusal: Outcome, result: Outcome)
    ensures Run(Idle, refusal, InterleavedCalls(result))
      == Guard(false, Some(1), [Settled(Settlement(2, refusal)), Settled(Settlement(1, result))])
  {
    var calls := InterleavedCalls(result);
    var g1 := Step(Idle, refusal, calls[0]);
    var g2 := Step(g1, refusal, calls[1]);
    assert g2 == Guard(true, Some(1), [Settled(Settlement(2, refusal))]);
    assert calls[1..][1..][1..] == [];
    assert Run(g2, refusal, calls[1..][1..]) == Step(g2, refusal, calls[2]);
  }

  /** As written, a storing-first request while another is in flight settles
      its own promise twice (refused, then with the running operation's
      result) and the running operation's promise never; guarded, each is
      settled once. */
  lemma StoringFirstWhileBusySettlesTwice(refusal: Outcome, result: Outcome)
    ensures Settlements(RunAsWritten(Idle, refusal, InterleavedCalls(result)).effects)
         == [Settlement(2, refusal), Settlement(2, result)]
    ensures !SettledAtMostOnce(RunAsWritten(Idle, refusal, InterleavedCalls(result)).effects)
    ensures Settlements(Run(Idle, refusal, InterleavedCalls(result)).effects)
         == [Settlement(2, refusal), Settlement(1, result)]
  {
    InterleavedAsWritten(refusal, result);
    InterleavedGuarded(refusal, result);
    var e1 := Settled(Settlement(2, refusal));
    SettlementsSnoc([], e1);
    assert [e1, Settled(Settlement(2, result))] == [e1] + [Settled(Settlement(2, result))];
    assert [e1, Settled(Settlement(1, result))] == [e1] + [Settled(Settlement(1, result))];
    SettlementsSnoc([e1], Settled(Settlement(2, result)));
    SettlementsSnoc([e1], Settled(Settlement(1, result)));
    var twice := Settlements(RunAsWritten(Idle, refusal, InterleavedCalls(result)).effects);
    assert twice[0].promise == twice[1].promise;
  }

  /** No storing-first request arrives while the slot is busy. */
  predicate StoresOnlyWhenIdle(g: Guard, refusal: Outcome, calls: seq<Call>)
    decreases |calls|
  {
    calls != [] ==>
      && (calls[0].StoringFirst? ==> !g.pending)
      && StoresOnlyWhenIdle(Step(g, refusal, calls[0]), refusal, calls[1..])
  }

  /** As long as storing-first requests only arrive while idle, the code as
      written behaves as the guarded contract. */
  lemma {:induction false} AsWrittenAgreesWhenIdle(g: Guard, refusal: Outcome, calls: seq<Call>)
    requires StoresOnlyWhenIdle(g, refusal, calls)
    ensures RunAsWritten(g, refusal, calls) == Run(g, refusal, calls)
    decreases |calls|
  {
    if calls != [] {
      assert StepAsWritten(g, refusal, calls[0]) == Step(g, refusal, calls[0]);
      AsWrittenAgreesWhenIdle(Step(g, refusal, calls[0]), refusal, calls[1..]);
    }
  }
}
