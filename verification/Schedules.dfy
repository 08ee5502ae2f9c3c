/** Schedules of callers on one approval of one purchase intent, step by step: approval 0 of intent 0, at
    tolerance 0. */
module Schedules {
  import opened Approvals
  import opened ExecutionProtocol
  import I = PurchaseStates
  import P = PaymentStates

  /** The approval's row, the intent's status, the callers, and what has been counted so far. */
  datatype Scene = Scene(
    row: Row,
    status: I.State,
    callers: seq<Caller>,
    grants: seq<Grant>,
    wins: seq<nat>,
    charges: seq<Charge>)

  function Load(c: Scene): Sys {
    Sys(map[0 := c.row], map[Purchase(0) := 0], map[0 := c.status], map[], c.callers, c.grants, c.wins, c.charges)
  }

  /** What a step does to a scene. */
  function After(c: Scene, i: nat, f: Effect): Scene
    requires i < |c.callers|
  {
    var t := c.(callers := c.callers[i := f.to]);
    match f
    case PutRow(_, _, row) => t.(row := row)
    case PutGrant(_, aid, row) => t.(row := row, grants := c.grants + [Grant(aid, row.amount)])
    case Won(_, aid) => t.(row := c.row.(status := Consumed), wins := c.wins + [aid])
    case Charged(_, charge) => t.(charges := c.charges + [charge])
    case PutIntent(_, _, st) => t.(status := st)
    case _ => t
  }

  /** The step stays with approval 0 and intent 0. */
  predicate Local(f: Effect) {
    match f
    case Go(_) => true
    case PutRow(_, aid, _) => aid == 0
    case PutGrant(_, aid, _) => aid == 0
    case Insert(_, _, _) => false
    case Won(_, aid) => aid == 0
    case Charged(_, _) => true
    case PutIntent(_, n, _) => n == 0
    case PutPayment(_, _, _) => false
  }

  lemma {:induction false} AfterIsApply(c: Scene, i: nat, f: Effect)
    requires i < |c.callers| && Local(f)
    ensures Apply(Load(c), i, f) == Load(After(c, i, f))
  {
    assert forall row :: map[0 := c.row][0 := row] == map[0 := row];
    assert forall st :: map[0 := c.status][0 := st] == map[0 := st];
  }

  predicate Moves(events: seq<Event>) {
    forall k | 0 <= k < |events| :: events[k].Move?
  }

  /** Some schedule of the callers leads from the one state to the other. */
  ghost predicate Reaches(start: Sys, s: Sys) {
    exists events :: Moves(events) && Run(0, start, events) == s
  }

  /** A set of states that no step of a caller leaves. The lemmas below are about any such set, so that a run can be
      followed without its schedule. */
  ghost predicate Closed(r: iset<Sys>) {
    forall s, i, e | s in r :: Next(0, s, Move(i, e)) in r
  }

  ghost function From(start: Sys): iset<Sys> {
    iset s | Reaches(start, s)
  }

  lemma {:induction false} FromIsClosed(start: Sys)
    ensures Closed(From(start)) && start in From(start)
  {
    assert Moves([]) && Run(0, start, []) == start;
    forall s, i, e | s in From(start)
      ensures Next(0, s, Move(i, e)) in From(start)
    {
      Goes(start, s, i, e);
    }
  }

  lemma {:induction false} ScheduleTo(start: Sys, s: Sys) returns (events: seq<Event>)
    requires s in From(start)
    ensures Moves(events) && Run(0, start, events) == s
  {
    events :| Moves(events) && Run(0, start, events) == s;
  }

  lemma {:induction false} OneMore(start: Sys, events: seq<Event>, i: nat, e: Env)
    requires Moves(events)
    ensures var more := events + [Move(i, e)];
            Moves(more) && Run(0, start, more) == Next(0, Run(0, start, events), Move(i, e))
  {
    assert (events + [Move(i, e)])[..|events|] == events;
  }

  lemma {:induction false} Goes(start: Sys, s: Sys, i: nat, e: Env)
    requires Reaches(start, s)
    ensures Reaches(start, Next(0, s, Move(i, e)))
  {
    var events :| Moves(events) && Run(0, start, events) == s;
    OneMore(start, events, i, e);
  }

  /** A caller's next step, given what it does. */
  lemma {:induction false} Plays(r: iset<Sys>, c: Scene, i: nat, e: Env, f: Effect) returns (t: Scene)
    requires Closed(r) && Load(c) in r && i < |c.callers| && Local(f)
    requires StepEffect(0, Load(c), c.callers[i], e) == f
    ensures Load(t) in r && t == After(c, i, f)
  {
    assert Next(0, Load(c), Move(i, e)) in r;
    AfterIsApply(c, i, f);
    t := After(c, i, f);
  }

  function Sees(amount: int, check: Check): Env {
    Env(false, false, amount, check, I.Failed, P.Failed)
  }

  // ----- one step of each kind of caller

  /** Only the caller has moved, and nothing new was counted. */
  ghost predicate Uncounted(b: Scene, t: Scene, i: nat, to: Caller) {
    && i < |b.callers| && t.callers == b.callers[i := to]
    && t.grants == b.grants && t.wins == b.wins && t.charges == b.charges
  }

  ghost predicate Reading(b: Scene, t: Scene, i: nat, to: Caller) {
    Uncounted(b, t, i, to) && t.row == b.row && t.status == b.status
  }

  lemma {:induction false} ReadsIntent(r: iset<Sys>, c: Scene, i: nat) returns (t: Scene)
    requires Closed(r) && Load(c) in r && i < |c.callers| && c.callers[i] == LoadIntent(0) && c.status == I.Approved
    ensures Load(t) in r && Reading(c, t, i, LoadApproval(0, I.Approved))
  {
    t := Plays(r, c, i, Sees(0, Allowed), Go(LoadApproval(0, I.Approved)));
  }

  lemma {:induction false} ReadsApproval(r: iset<Sys>, c: Scene, i: nat) returns (t: Scene)
    requires Closed(r) && Load(c) in r && i < |c.callers| && c.callers[i] == LoadApproval(0, I.Approved)
    requires c.row.status == Approved
    ensures Load(t) in r && Reading(c, t, i, RefreshAndCheck(0, I.Approved, 0, c.row))
  {
    var f := Go(RefreshAndCheck(0, I.Approved, 0, c.row));
    assert Load(c).latest[Purchase(0)] == 0 && Load(c).approvals[0] == c.row;
    assert PurchaseEffect(0, Load(c), LoadApproval(0, I.Approved), Sees(0, Allowed)) == f;
    t := Plays(r, c, i, Sees(0, Allowed), f);
  }

  lemma {:induction false} Checks(r: iset<Sys>, c: Scene, i: nat, row: Row) returns (t: Scene)
    requires Closed(r) && Load(c) in r && i < |c.callers| && c.callers[i] == RefreshAndCheck(0, I.Approved, 0, row)
    ensures Load(t) in r && Reading(c, t, i, Claim(0, I.Approved, 0, row, row.amount))
  {
    t := Plays(r, c, i, Sees(row.amount, Allowed), Go(Claim(0, I.Approved, 0, row, row.amount)));
  }

  /** The refreshed quote has drifted. */
  lemma {:induction false} Drifts(r: iset<Sys>, c: Scene, i: nat, row: Row) returns (t: Scene)
    requires Closed(r) && Load(c) in r && i < |c.callers| && c.callers[i] == RefreshAndCheck(0, I.Approved, 0, row)
    ensures Load(t) in r && Reading(c, t, i, FlagApproval(0, I.Approved, 0, row))
  {
    t := Plays(r, c, i, Sees(0, Drifted), Go(FlagApproval(0, I.Approved, 0, row)));
  }

  lemma {:induction false} Flags(r: iset<Sys>, c: Scene, i: nat, row: Row) returns (t: Scene)
    requires Closed(r) && Load(c) in r && i < |c.callers| && c.callers[i] == FlagApproval(0, I.Approved, 0, row)
    ensures Load(t) in r && Uncounted(c, t, i, StoreIntent(0, I.Approved, [I.ReapprovalRequired]))
    ensures t.row == row.(status := ReapprovalRequired) && t.status == c.status
  {
    t := Plays(r, c, i, Sees(0, Allowed),
               PutRow(StoreIntent(0, I.Approved, [I.ReapprovalRequired]), 0, row.(status := ReapprovalRequired)));
  }

  lemma {:induction false} Stores(r: iset<Sys>, c: Scene, i: nat, mine: I.State, to: I.State) returns (t: Scene)
    requires Closed(r) && Load(c) in r && i < |c.callers| && c.callers[i] == StoreIntent(0, mine, [to])
    ensures Load(t) in r && t.row == c.row
    ensures I.CanTransition(mine, to) ==> t.status == to && Uncounted(c, t, i, StoreIntent(0, to, []))
    ensures !I.CanTransition(mine, to) ==> Reading(c, t, i, Done)
  {
    assert [to][1..] == [];
    t := Plays(r, c, i, Sees(0, Allowed),
               if I.CanTransition(mine, to) then PutIntent(StoreIntent(0, to, []), 0, to) else Go(Done));
  }

  lemma {:induction false} Wins(r: iset<Sys>, c: Scene, i: nat, row: Row, verified: int) returns (t: Scene)
    requires Closed(r) && Load(c) in r && i < |c.callers| && c.callers[i] == Claim(0, I.Approved, 0, row, verified)
    requires c.row.status == Approved
    ensures Load(t) in r && t.callers == c.callers[i := EnterExecuting(0, I.Approved, 0, row, verified)]
    ensures t == Scene(c.row.(status := Consumed), c.status, t.callers, c.grants, c.wins + [0], c.charges)
  {
    t := Plays(r, c, i, Sees(0, Allowed), Won(EnterExecuting(0, I.Approved, 0, row, verified), 0));
  }

  lemma {:induction false} Enters(r: iset<Sys>, c: Scene, i: nat, row: Row, verified: int) returns (t: Scene)
    requires Closed(r) && Load(c) in r && i < |c.callers|
             && c.callers[i] == EnterExecuting(0, I.Approved, 0, row, verified)
    ensures Load(t) in r && Uncounted(c, t, i, CallConnector(0, I.Executing, 0, row, verified))
    ensures t.row == c.row && t.status == I.Executing
  {
    t := Plays(r, c, i, Sees(0, Allowed), PutIntent(CallConnector(0, I.Executing, 0, row, verified), 0, I.Executing));
  }

  lemma {:induction false} Calls(r: iset<Sys>, c: Scene, i: nat, row: Row, verified: int) returns (t: Scene)
    requires Closed(r) && Load(c) in r && i < |c.callers|
             && c.callers[i] == CallConnector(0, I.Executing, 0, row, verified)
    ensures Load(t) in r && t.callers == c.callers[i := StoreIntent(0, I.Executing, [I.Failed])]
    ensures t == Scene(c.row, c.status, t.callers, c.grants, c.wins, c.charges + [Charge(0, verified)])
  {
    t := Plays(r, c, i, Sees(0, Allowed), Charged(StoreIntent(0, I.Executing, [I.Failed]), Charge(0, verified)));
  }

  /** A user reads the approval to grant it; a reapproval takes over the amount just quoted. */
  lemma {:induction false} ReadsToGrant(r: iset<Sys>, c: Scene, i: nat, verdict: Verdict, amount: int)
    returns (t: Scene)
    requires Closed(r) && Load(c) in r && i < |c.callers| && c.callers[i] == LoadDecided(0, verdict)
    requires (verdict == ApproveIt && c.row.status == Pending && amount == c.row.amount)
             || (verdict == ReapproveIt && c.row.status == ReapprovalRequired)
    ensures Load(t) in r && Reading(c, t, i, WriteDecision(0, c.row.(amount := amount), verdict))
  {
    assert c.row.(amount := c.row.amount) == c.row;
    t := Plays(r, c, i, Sees(amount, Allowed), Go(WriteDecision(0, c.row.(amount := amount), verdict)));
  }

  lemma {:induction false} Grants(r: iset<Sys>, c: Scene, i: nat, row: Row, verdict: Verdict) returns (t: Scene)
    requires Closed(r) && Load(c) in r && i < |c.callers| && c.callers[i] == WriteDecision(0, row, verdict)
             && verdict != RejectIt
    ensures Load(t) in r && t.callers == c.callers[i := LoadParent(row.parent, verdict)]
    ensures t.row == row.(status := Approved) && t.status == c.status
    ensures t.grants == c.grants + [Grant(0, row.amount)] && t.wins == c.wins && t.charges == c.charges
  {
    t := Plays(r, c, i, Sees(0, Allowed), PutGrant(LoadParent(row.parent, verdict), 0, row.(status := Approved)));
  }

  /** A cancellation reads the intent. */
  lemma {:induction false} ReadsToCancel(r: iset<Sys>, c: Scene, i: nat) returns (t: Scene)
    requires Closed(r) && Load(c) in r && i < |c.callers| && c.callers[i] == LoadCancelled(0)
    ensures Load(t) in r && Reading(c, t, i, StoreIntent(0, c.status, [I.Cancelled]))
  {
    t := Plays(r, c, i, Sees(0, Allowed), Go(StoreIntent(0, c.status, [I.Cancelled])));
  }

  lemma {:induction false} ReadsParent(r: iset<Sys>, c: Scene, i: nat, verdict: Verdict) returns (t: Scene)
    requires Closed(r) && Load(c) in r && i < |c.callers| && c.callers[i] == LoadParent(Purchase(0), verdict)
             && verdict != RejectIt
    ensures Load(t) in r && Reading(c, t, i, StoreIntent(0, c.status, [I.Approved]))
  {
    t := Plays(r, c, i, Sees(0, Allowed), Go(StoreIntent(0, c.status, [I.Approved])));
  }
}
