/** What a cancellation does not stop: an executor that read the intent and its approval before both were withdrawn
    goes on with its copies. When the approval is granted again, for another amount, it claims that grant, and checks
    out on the amount it had verified against the old one, for an intent that is CANCELLED. */
module StaleReapprovals {
  import opened Results
  import opened Approvals
  import opened ExecutionProtocol
  import opened ExecutionTerms
  import opened Schedules
  import opened StaleGrants
  import I = PurchaseStates

  const WITHDRAWN: Row := Row(Purchase(0), 100, ReapprovalRequired)
  const RENEWED: Grant := Grant(0, 200)
  const COPIED: Caller := RefreshAndCheck(0, I.Approved, 0, GRANTED)
  const POISED: Caller := Claim(0, I.Approved, 0, GRANTED, 100)
  const AGREES: Caller := LoadDecided(0, ReapproveIt)

  /** The policy service, about to create the approval as granted; two executors, a user who will approve again, and
      an agent that will cancel. */
  const BEGIN: Sys :=
    Sys(map[], map[], map[0 := I.PolicyCheck], map[],
        [Create(0, GRANTED), LoadIntent(0), LoadIntent(0), AGREES, LoadCancelled(0)], [], [], [])

  const ALLOWING: Caller := StoreIntent(0, I.PolicyCheck, [I.Approved])

  const MADE: Scene :=
    Scene(GRANTED, I.PolicyCheck, [ALLOWING, LoadIntent(0), LoadIntent(0), AGREES, LoadCancelled(0)], [ONE], [], [])

  lemma {:induction false} MadeFirst(r: iset<Sys>)
    requires Closed(r) && BEGIN in r
    ensures Load(MADE) in r
  {
    assert Next(0, BEGIN, Move(0, Sees(0, Allowed))) in r;
    assert Next(0, BEGIN, Move(0, Sees(0, Allowed))) == Apply(BEGIN, 0, Insert(ALLOWING, 0, GRANTED));
    assert BEGIN.callers[0 := ALLOWING] == MADE.callers && [] + [ONE] == [ONE];
  }

  /** The intent is APPROVED once its approval is there. */
  lemma {:induction false} IsApproved(r: iset<Sys>, b: Scene) returns (c: Scene)
    requires Closed(r) && Load(b) in r && Waits(b, LoadIntent(0), LoadIntent(0), AGREES) && b.callers[0] == ALLOWING
    ensures Load(c) in r && c.row == b.row && c.status == I.Approved && Waits(c, LoadIntent(0), LoadIntent(0), AGREES)
    ensures c.grants == b.grants && c.wins == b.wins && c.charges == b.charges
  {
    c := Stores(r, b, 0, I.PolicyCheck, I.Approved);
  }

  ghost predicate Waits(c: Scene, first: Caller, second: Caller, user: Caller) {
    |c.callers| == 5 && c.callers[1] == first && c.callers[2] == second && c.callers[3] == user
    && c.callers[4] == LoadCancelled(0)
  }

  lemma {:induction false} TakesCopy(r: iset<Sys>, b: Scene, i: nat) returns (c: Scene)
    requires Closed(r) && Load(b) in r && b.row == GRANTED && b.status == I.Approved
    requires i < |b.callers| && b.callers[i] == LoadIntent(0)
    ensures Load(c) in r && Reading(b, c, i, COPIED)
  {
    var read := ReadsIntent(r, b, i);
    c := ReadsApproval(r, read, i);
  }

  lemma {:induction false} BothTakeCopies(r: iset<Sys>, b: Scene) returns (c: Scene)
    requires Closed(r) && Load(b) in r && b.row == GRANTED && b.status == I.Approved
    requires Waits(b, LoadIntent(0), LoadIntent(0), AGREES)
    ensures Load(c) in r && c.row == GRANTED && c.status == I.Approved && Waits(c, COPIED, COPIED, AGREES)
    ensures c.grants == b.grants && c.wins == b.wins && c.charges == b.charges
  {
    var one := TakesCopy(r, b, 1);
    c := TakesCopy(r, one, 2);
  }

  lemma {:induction false} DriftFlagged(r: iset<Sys>, b: Scene) returns (c: Scene)
    requires Closed(r) && Load(b) in r && Waits(b, POISED, COPIED, AGREES)
    ensures Load(c) in r && Waits(c, POISED, StoreIntent(0, I.Approved, [I.ReapprovalRequired]), AGREES)
    ensures c.row == WITHDRAWN && c.grants == b.grants && c.wins == b.wins && c.charges == b.charges
  {
    var drifted := Drifts(r, b, 2, GRANTED);
    c := Flags(r, drifted, 2, GRANTED);
  }

  /** The first executor verifies its amount; the second finds a drift, and withdraws approval and intent. */
  lemma {:induction false} Withdraws(r: iset<Sys>, b: Scene) returns (c: Scene)
    requires Closed(r) && Load(b) in r && b.row == GRANTED && b.status == I.Approved && Waits(b, COPIED, COPIED, AGREES)
    ensures Load(c) in r && Waits(c, POISED, StoreIntent(0, I.ReapprovalRequired, []), AGREES)
    ensures c.row == WITHDRAWN && c.status == I.ReapprovalRequired
    ensures c.grants == b.grants && c.wins == b.wins && c.charges == b.charges
  {
    var poised := Checks(r, b, 1, GRANTED);
    var flagged := DriftFlagged(r, poised);
    c := Stores(r, flagged, 2, I.Approved, I.ReapprovalRequired);
  }

  /** The agent cancels the withdrawn intent. */
  lemma {:induction false} Cancels(r: iset<Sys>, b: Scene) returns (c: Scene)
    requires Closed(r) && Load(b) in r && b.status == I.ReapprovalRequired
    requires Waits(b, POISED, StoreIntent(0, I.ReapprovalRequired, []), AGREES)
    ensures Load(c) in r && c.status == I.Cancelled && c.row == b.row && Poised(c)
    ensures c.grants == b.grants && c.wins == b.wins && c.charges == b.charges
  {
    c := ReadsToCancel(r, b, 4);
    c := Stores(r, c, 4, I.ReapprovalRequired, I.Cancelled);
  }

  /** The first executor and the user are where they were. */
  ghost predicate Poised(c: Scene) {
    |c.callers| == 5 && c.callers[1] == POISED && c.callers[3] == AGREES
  }

  /** The user grants new terms; the move of the cancelled intent is refused, but the grant stands. */
  lemma {:induction false} GrantedAgain(r: iset<Sys>, b: Scene) returns (c: Scene)
    requires Closed(r) && Load(b) in r && b.row == WITHDRAWN && b.status == I.Cancelled
    requires Poised(b)
    ensures Load(c) in r && |c.callers| == 5 && c.callers[1] == POISED && c.row.status == Approved
            && c.status == I.Cancelled
    ensures c.grants == b.grants + [RENEWED] && c.wins == b.wins && c.charges == b.charges
  {
    var reading := ReadsToGrant(r, b, 3, ReapproveIt, 200);
    var granted := Grants(r, reading, 3, b.row.(amount := 200), ReapproveIt);
    var parent := ReadsParent(r, granted, 3, ReapproveIt);
    c := Stores(r, parent, 3, I.Cancelled, I.Approved);
  }

  /** The first executor claims the new grant, and checks out on what it verified against the old one. */
  lemma {:induction false} ClaimsTheNewGrant(r: iset<Sys>, b: Scene) returns (c: Scene)
    requires Closed(r) && Load(b) in r && 1 < |b.callers| && b.callers[1] == POISED && b.row.status == Approved
    ensures Load(c) in r && c.status == I.Executing && c.grants == b.grants && c.charges == b.charges + [Charge(0, 100)]
  {
    var holding := Wins(r, b, 1, GRANTED, 100);
    var calling := Enters(r, holding, 1, GRANTED, 100);
    c := Calls(r, calling, 1, GRANTED, 100);
  }

  lemma {:induction false} IsWithdrawn(r: iset<Sys>, b: Scene) returns (c: Scene)
    requires Closed(r) && Load(b) in r && b.row == GRANTED && Waits(b, LoadIntent(0), LoadIntent(0), AGREES)
    requires b.callers[0] == ALLOWING
    ensures Load(c) in r && c.status == I.Cancelled && c.row == WITHDRAWN && Poised(c)
    ensures c.grants == b.grants && c.charges == b.charges
  {
    var approved := IsApproved(r, b);
    var copied := BothTakeCopies(r, approved);
    var withdrawn := Withdraws(r, copied);
    c := Cancels(r, withdrawn);
  }

  lemma {:induction false} BeforeCancelling() returns (before: seq<Event>, c: Scene)
    ensures Moves(before) && Run(0, BEGIN, before) == Load(c)
    ensures c.status == I.Cancelled && c.row == WITHDRAWN && Poised(c) && c.grants == [ONE] && c.charges == []
  {
    FromIsClosed(BEGIN);
    MadeFirst(From(BEGIN));
    c := IsWithdrawn(From(BEGIN), MADE);
    before := ScheduleTo(BEGIN, Load(c));
  }

  lemma {:induction false} AfterCancelling(b: Scene) returns (after: seq<Event>, c: Scene)
    requires b.row == WITHDRAWN && b.status == I.Cancelled
    requires Poised(b) && b.grants == [ONE]
             && b.charges == []
    ensures Moves(after) && Run(0, Load(b), after) == Load(c)
    ensures c.status == I.Executing && c.charges == [Charge(0, 100)] && LastGrant(c.grants, 0) == Some(200)
  {
    FromIsClosed(Load(b));
    var granted := GrantedAgain(From(Load(b)), b);
    c := ClaimsTheNewGrant(From(Load(b)), granted);
    after := ScheduleTo(Load(b), Load(c));
    LastAppended([ONE], RENEWED, 0);
  }

  /** A run in which an intent is cancelled before anything has been charged for it, and is charged all the same, for
      a verified amount that the last grant does not cover. Every step is one of Evaluate, Execute, Cancel or
      Reapprove. */
  lemma {:induction false} ChargedAfterCancellation() returns (start: Sys, before: seq<Event>, after: seq<Event>)
    ensures Initial(start) && Moves(before) && Moves(after)
    ensures var u := Run(0, start, before);
            var t := Run(0, u, after);
            && 0 in u.approvals && u.approvals[0].parent == Purchase(0)
            && u.intents == map[0 := I.Cancelled] && u.charges == [] && !Settled(u, Purchase(0))
            && t.charges == [Charge(0, 100)] && LastGrant(t.grants, 0) == Some(200)
            && !Within(t.charges[0].verified, 200, 0)
  {
    start := BEGIN;
    BeginsInitial();
    var b, c;
    before, b := BeforeCancelling();
    PoisedIsLive(b);
    after, c := AfterCancelling(b);
  }

  lemma {:induction false} BeginsInitial()
    ensures Initial(BEGIN)
  {
  }

  lemma {:induction false} PoisedIsLive(b: Scene)
    requires Poised(b)
    ensures !Settled(Load(b), Purchase(0))
  {
    assert HoldsLiveCopy(b.callers[1], Purchase(0));
  }
}
