/** The daily cap over whole runs against the mock merchant. A cap can be exceeded in one way only: an order of a
    negative total makes room for others, and is then cancelled. So the cap holds exactly if no cancellation takes
    off less than what the day is over the cap; and it always holds if prices and quantities are not negative. */
module PurchaseCaps {
  import opened Results
  import opened Quotes
  import opened PurchaseFlow
  import opened PurchaseInvariants
  import opened PurchaseSafety
  import opened PurchaseSpending
  import P = Policy

  predicate Capped(r: P.Rules, cap: int) {
    0 < r.maxPerDay <= cap
  }

  /** The step does not give the user rules with a larger daily cap, or none. */
  predicate KeepsCap(op: Op, user: string, cap: int) {
    op.Happens? && op.change.RulesChange? && op.change.user == user ==> Capped(op.change.rules, cap)
  }

  /** The guard of a cancellation: what it takes off the day's ledger is no less than what that leaves over the cap. */
  predicate Spares(w: World, op: Op, user: string, currency: string, cap: int) {
    var k := TakenOff(w, op);
    k.Some? && OnLedger(w.record.orders[k.value], user, currency, w.env.now.day)
    ==> w.record.orders[k.value].total.minorUnits >= SpendToday(w, user, currency) - cap
  }

  // ----- one step

  lemma {:induction false} PlacedDay(w: World, n: nat, o: Order, remote: Result<Quote, Error>, user: string,
                                     currency: string, cap: int)
    requires WellPlaced(w, n, o, remote) && Capped(RulesFor(w, user), cap)
    requires SpendToday(w, user, currency) <= cap
    ensures SpendSince(w.record.orders + [o], user, currency, w.env.now.day) <= cap
  {
    SpendAppended(w.record.orders, o, user, currency, w.env.now.day);
  }

  lemma {:induction false} GrownDay(w: World, t: World, user: string, currency: string, cap: int)
    requires Grows(w, t) && t.env == w.env && Capped(RulesFor(w, user), cap) && SpendToday(w, user, currency) <= cap
    ensures SpendToday(t, user, currency) <= cap
  {
    if t.record.orders != w.record.orders {
      var n, o, remote :| WellPlaced(w, n, o, remote) && t.record.orders == w.record.orders + [o];
      PlacedDay(w, n, o, remote, user, currency, cap);
    }
  }

  lemma {:induction false} LaterDay(w: World, t: World, user: string, currency: string, cap: int)
    requires t.record == w.record && Later(w.env.now, t.env.now) && Timely(w.record.orders, w.env.now.day)
    requires cap > 0 && SpendToday(w, user, currency) <= cap
    ensures SpendToday(t, user, currency) <= cap
  {
    if w.env.now.day < t.env.now.day {
      SpendLater(w.record.orders, user, currency, w.env.now.day, t.env.now.day);
    }
  }

  /** With the day within the cap before it, a step leaves it within the cap exactly if its guard holds. */
  lemma {:induction false} DayAfter(w: World, op: Op, t: World, user: string, currency: string, cap: int)
    requires Evolves(w, op, t) && Timely(w.record.orders, w.env.now.day)
    requires if op.Happens? then t.record == w.record && Later(w.env.now, t.env.now) else t.env == w.env
    requires Capped(RulesFor(w, user), cap) && SpendToday(w, user, currency) <= cap
    ensures SpendToday(t, user, currency) <= cap <==> Spares(w, op, user, currency, cap)
  {
    if op.Happens? {
      LaterDay(w, t, user, currency, cap);
    } else if TakenOff(w, op).Some? {
      SpendCancelled(w.record.orders, TakenOff(w, op).value, user, currency, w.env.now.day);
    } else {
      GrownDay(w, t, user, currency, cap);
    }
  }

  lemma {:induction false} StepTimely(w: World, op: Op, t: World)
    requires Evolves(w, op, t) && Later(w.env.now, t.env.now) && Timely(w.record.orders, w.env.now.day)
    ensures Timely(t.record.orders, t.env.now.day)
  {
    if TakenOff(w, op).None? && t.record.orders != w.record.orders {
      var n, o, remote :| WellPlaced(w, n, o, remote) && t.record.orders == w.record.orders + [o];
    }
  }

  lemma {:induction false} StepCap(w: World, op: Op, user: string, currency: string, cap: int)
    requires Inv(w) && w.env.cfg.remotes == {} && KeepsCap(op, user, cap) && Timely(w.record.orders, w.env.now.day)
    requires Capped(RulesFor(w, user), cap) && SpendToday(w, user, currency) <= cap
    ensures var t := Step(w, op);
            && Capped(RulesFor(t, user), cap) && Timely(t.record.orders, t.env.now.day)
            && (SpendToday(t, user, currency) <= cap <==> Spares(w, op, user, currency, cap))
  {
    StepEvolves(w, op);
    StepClock(w, op);
    StepTimely(w, op, Step(w, op));
    DayAfter(w, op, Step(w, op), user, currency, cap);
    RulesStayCapped(w, op, user, cap);
  }

  lemma {:induction false} RulesStayCapped(w: World, op: Op, user: string, cap: int)
    requires Inv(w) && KeepsCap(op, user, cap) && Capped(RulesFor(w, user), cap)
    ensures Capped(RulesFor(Step(w, op), user), cap)
  {
    StepClock(w, op);
  }

  // ----- whole runs, exactly

  /** The first `k` steps left the day within the cap. */
  predicate Within(w: World, ops: seq<Op>, k: nat, user: string, currency: string, cap: int)
    requires k <= |ops|
  {
    SpendToday(Run(w, ops[..k]), user, currency) <= cap
  }

  predicate SparesAt(w: World, ops: seq<Op>, k: nat, user: string, currency: string, cap: int)
    requires k < |ops|
  {
    Spares(Run(w, ops[..k]), ops[k], user, currency, cap)
  }

  lemma {:induction false} StepAt(w: World, ops: seq<Op>, k: nat, user: string, currency: string, cap: int)
    requires Fresh(w) && w.env.cfg.remotes == {} && k < |ops| && KeepsCap(ops[k], user, cap)
    requires var u := Run(w, ops[..k]);
             && Capped(RulesFor(u, user), cap) && Timely(u.record.orders, u.env.now.day)
             && SpendToday(u, user, currency) <= cap
    ensures var t := Run(w, ops[..k + 1]); Capped(RulesFor(t, user), cap) && Timely(t.record.orders, t.env.now.day)
    ensures Within(w, ops, k + 1, user, currency, cap) <==> SparesAt(w, ops, k, user, currency, cap)
  {
    assert ops[..k + 1][..k] == ops[..k];
    Reachable(w, ops[..k]);
    StepCap(Run(w, ops[..k]), ops[k], user, currency, cap);
  }

  /** The day stayed within the cap up to step `k`, and every step before it kept the guard. */
  ghost predicate Throughout(w: World, ops: seq<Op>, k: nat, user: string, currency: string, cap: int)
    requires k <= |ops|
  {
    Within(w, ops, k, user, currency, cap) && (k > 0 ==> Throughout(w, ops, k - 1, user, currency, cap))
  }

  ghost predicate Guarded(w: World, ops: seq<Op>, k: nat, user: string, currency: string, cap: int)
    requires k <= |ops|
  {
    k > 0 ==> SparesAt(w, ops, k - 1, user, currency, cap) && Guarded(w, ops, k - 1, user, currency, cap)
  }

  lemma {:induction false} ThroughoutAt(w: World, ops: seq<Op>, k: nat, j: nat, user: string, currency: string,
                                        cap: int)
    requires j <= k <= |ops| && Throughout(w, ops, k, user, currency, cap)
    ensures Within(w, ops, j, user, currency, cap)
  {
    if j < k {
      ThroughoutAt(w, ops, k - 1, j, user, currency, cap);
    }
  }

  lemma {:induction false} ThroughoutFrom(w: World, ops: seq<Op>, k: nat, user: string, currency: string, cap: int)
    requires k <= |ops| && forall j | 0 <= j <= k :: Within(w, ops, j, user, currency, cap)
    ensures Throughout(w, ops, k, user, currency, cap)
  {
    if k > 0 {
      ThroughoutFrom(w, ops, k - 1, user, currency, cap);
    }
  }

  lemma {:induction false} GuardedAt(w: World, ops: seq<Op>, k: nat, j: nat, user: string, currency: string, cap: int)
    requires j < k <= |ops| && Guarded(w, ops, k, user, currency, cap)
    ensures SparesAt(w, ops, j, user, currency, cap)
  {
    if j < k - 1 {
      GuardedAt(w, ops, k - 1, j, user, currency, cap);
    }
  }

  lemma {:induction false} GuardedFrom(w: World, ops: seq<Op>, k: nat, user: string, currency: string, cap: int)
    requires k <= |ops| && forall j | 0 <= j < k :: SparesAt(w, ops, j, user, currency, cap)
    ensures Guarded(w, ops, k, user, currency, cap)
  {
    if k > 0 {
      GuardedFrom(w, ops, k - 1, user, currency, cap);
    }
  }

  lemma {:induction false} CapHoldsUpTo(w: World, ops: seq<Op>, k: nat, user: string, currency: string, cap: int)
    requires Fresh(w) && w.env.cfg.remotes == {} && Capped(RulesFor(w, user), cap) && k <= |ops|
    requires forall j | 0 <= j < |ops| :: KeepsCap(ops[j], user, cap)
    ensures Throughout(w, ops, k, user, currency, cap) <==> Guarded(w, ops, k, user, currency, cap)
    ensures Throughout(w, ops, k, user, currency, cap) ==>
              var t := Run(w, ops[..k]); Capped(RulesFor(t, user), cap) && Timely(t.record.orders, t.env.now.day)
  {
    if k == 0 {
      assert ops[..0] == [];
    } else {
      CapHoldsUpTo(w, ops, k - 1, user, currency, cap);
      if Throughout(w, ops, k - 1, user, currency, cap) {
        StepAt(w, ops, k - 1, user, currency, cap);
      }
    }
  }

  /** Against the mock merchant, for a user whose rules always cap the day at `cap`: the day stays within the cap
      throughout a run exactly if no cancellation in it takes off less than what that leaves over the cap. */
  lemma {:induction false} CapHoldsExactly(w: World, ops: seq<Op>, user: string, currency: string, cap: int)
    requires Fresh(w) && w.env.cfg.remotes == {} && Capped(RulesFor(w, user), cap)
    requires forall j | 0 <= j < |ops| :: KeepsCap(ops[j], user, cap)
    ensures (forall j | 0 <= j <= |ops| :: Within(w, ops, j, user, currency, cap))
            <==> (forall j | 0 <= j < |ops| :: SparesAt(w, ops, j, user, currency, cap))
  {
    CapHoldsUpTo(w, ops, |ops|, user, currency, cap);
    if Throughout(w, ops, |ops|, user, currency, cap) {
      forall j | 0 <= j <= |ops| ensures Within(w, ops, j, user, currency, cap) {
        ThroughoutAt(w, ops, |ops|, j, user, currency, cap);
      }
      forall j | 0 <= j < |ops| ensures SparesAt(w, ops, j, user, currency, cap) {
        GuardedAt(w, ops, |ops|, j, user, currency, cap);
      }
    } else {
      if forall j | 0 <= j <= |ops| :: Within(w, ops, j, user, currency, cap) {
        ThroughoutFrom(w, ops, |ops|, user, currency, cap);
      }
      if forall j | 0 <= j < |ops| :: SparesAt(w, ops, j, user, currency, cap) {
        GuardedFrom(w, ops, |ops|, user, currency, cap);
      }
    }
  }
}
