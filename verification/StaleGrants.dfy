/** Why single use is per grant: two approvers who both read the approval while it was PENDING can each set it
    APPROVED, the second one after the first grant has been claimed, and then it is charged twice. */
module StaleGrants {
  import opened Approvals
  import opened ExecutionProtocol
  import opened Schedules
  import I = PurchaseStates

  const OPEN: Row := Row(Purchase(0), 100, Pending)
  const GRANTED: Row := Row(Purchase(0), 100, Approved)
  const USED: Row := Row(Purchase(0), 100, Consumed)
  const ONE: Grant := Grant(0, 100)

  /** The policy service, about to create the approval of an intent in POLICY_CHECK; two approvers and two executors,
      whose reads will all come before the first claim. */
  const START: Sys :=
    Sys(map[], map[], map[0 := I.PolicyCheck], map[],
        [Create(0, OPEN), LoadDecided(0, ApproveIt), LoadDecided(0, ApproveIt), LoadIntent(0), LoadIntent(0)], [], [],
        [])

  const ASKING: Caller := StoreIntent(0, I.PolicyCheck, [I.ApprovalRequired])

  const CREATED: Scene :=
    Scene(OPEN, I.PolicyCheck,
          [ASKING, LoadDecided(0, ApproveIt), LoadDecided(0, ApproveIt), LoadIntent(0), LoadIntent(0)], [], [], [])

  lemma {:induction false} CreationComesFirst(r: iset<Sys>)
    requires Closed(r) && START in r
    ensures Load(CREATED) in r
  {
    assert Next(0, START, Move(0, Sees(0, Allowed))) in r;
    assert Next(0, START, Move(0, Sees(0, Allowed))) == Apply(START, 0, Insert(ASKING, 0, OPEN));
    assert START.callers[0 := ASKING] == CREATED.callers;
  }

  /** Where the callers are at the end of each part of the run. */
  ghost predicate At(c: Scene, writer: Caller, early: Caller, late: Caller) {
    |c.callers| == 5 && c.callers[2] == writer && c.callers[3] == early && c.callers[4] == late
  }

  const STALE: Caller := WriteDecision(0, OPEN, ApproveIt)
  const READ: Caller := LoadApproval(0, I.Approved)
  const HOLDING: Caller := EnterExecuting(0, I.Approved, 0, GRANTED, 100)

  /** The intent waits for an approval. */
  lemma {:induction false} IntentAsks(r: iset<Sys>, b: Scene) returns (c: Scene)
    requires Closed(r) && Load(b) in r && |b.callers| == 5 && b.callers[0] == ASKING
    ensures Load(c) in r && c.status == I.ApprovalRequired && c.row == b.row && |c.callers| == 5
    ensures forall i | 1 <= i < 5 :: c.callers[i] == b.callers[i]
    ensures c.grants == b.grants && c.wins == b.wins && c.charges == b.charges
  {
    c := Stores(r, b, 0, I.PolicyCheck, I.ApprovalRequired);
  }

  const GRANTING: Caller := LoadParent(Purchase(0), ApproveIt)

  /** The first grant moves the intent to APPROVED. */
  lemma {:induction false} IntentMoves(r: iset<Sys>, b: Scene) returns (c: Scene)
    requires Closed(r) && Load(b) in r && b.status == I.ApprovalRequired && |b.callers| == 5 && b.callers[1] == GRANTING
    ensures Load(c) in r && c.status == I.Approved && c.row == b.row && At(c, b.callers[2], b.callers[3], b.callers[4])
    ensures c.grants == b.grants && c.wins == b.wins && c.charges == b.charges
  {
    c := ReadsParent(r, b, 1, ApproveIt);
    c := Stores(r, c, 1, I.ApprovalRequired, I.Approved);
  }

  /** Both approvers read PENDING, and the first grants. */
  lemma {:induction false} ApproversRead(r: iset<Sys>, b: Scene) returns (c: Scene)
    requires Closed(r) && Load(b) in r && b.row == OPEN && |b.callers| == 5
    requires b.callers[1] == b.callers[2] == LoadDecided(0, ApproveIt)
    ensures Load(c) in r && c.row == GRANTED && c.status == b.status
    ensures At(c, STALE, b.callers[3], b.callers[4]) && c.callers[1] == GRANTING
    ensures c.grants == b.grants + [ONE] && c.wins == b.wins && c.charges == b.charges
  {
    c := ReadsToGrant(r, b, 1, ApproveIt, 100);
    c := ReadsToGrant(r, c, 2, ApproveIt, 100);
    c := Grants(r, c, 1, OPEN, ApproveIt);
  }

  /** Both executors read the intent. */
  lemma {:induction false} ExecutorsRead(r: iset<Sys>, b: Scene, writer: Caller) returns (c: Scene)
    requires Closed(r) && Load(b) in r && b.row == GRANTED && b.status == I.Approved
             && At(b, writer, LoadIntent(0), LoadIntent(0))
    ensures Load(c) in r && c.row == GRANTED && At(c, writer, READ, READ)
    ensures c.grants == b.grants && c.wins == b.wins && c.charges == b.charges
  {
    c := ReadsIntent(r, b, 3);
    c := ReadsIntent(r, c, 4);
  }

  /** From reading the approval to winning the claim. */
  lemma {:induction false} ClaimsNext(r: iset<Sys>, b: Scene, i: nat) returns (c: Scene)
    requires Closed(r) && Load(b) in r && i < |b.callers| && b.callers[i] == READ && b.row == GRANTED
    ensures Load(c) in r && c.callers == b.callers[i := HOLDING]
    ensures c.row == USED && c.grants == b.grants && c.wins == b.wins + [0] && c.charges == b.charges
  {
    c := ReadsApproval(r, b, i);
    var claiming := Checks(r, c, i, GRANTED);
    c := Wins(r, claiming, i, GRANTED, 100);
  }

  /** The second approver's grant comes between the two claims. */
  lemma {:induction false} BothClaim(r: iset<Sys>, b: Scene) returns (c: Scene)
    requires Closed(r) && Load(b) in r && b.row == GRANTED && At(b, STALE, READ, READ)
    ensures Load(c) in r && At(c, LoadParent(Purchase(0), ApproveIt), HOLDING, HOLDING)
    ensures c.grants == b.grants + [ONE] && c.wins == b.wins + [0] + [0] && c.charges == b.charges
  {
    c := ClaimsNext(r, b, 3);
    c := Grants(r, c, 2, OPEN, ApproveIt);
    c := ClaimsNext(r, c, 4);
  }

  lemma {:induction false} ChargesNext(r: iset<Sys>, b: Scene, i: nat) returns (c: Scene)
    requires Closed(r) && Load(b) in r && i < |b.callers| && b.callers[i] == HOLDING
    ensures Load(c) in r && c.callers == b.callers[i := StoreIntent(0, I.Executing, [I.Failed])]
    ensures c.grants == b.grants && c.wins == b.wins && c.charges == b.charges + [Charge(0, 100)]
  {
    c := Enters(r, b, i, GRANTED, 100);
    c := Calls(r, c, i, GRANTED, 100);
  }

  /** Creation, both reads, the first grant, and the move of the intent. */
  lemma {:induction false} FirstGranted(r: iset<Sys>, b: Scene) returns (c: Scene)
    requires Closed(r) && Load(b) in r && Begun(b)
    ensures Load(c) in r && c.row == GRANTED && c.status == I.Approved && At(c, STALE, LoadIntent(0), LoadIntent(0))
    ensures c.grants == b.grants + [ONE] && c.wins == b.wins && c.charges == b.charges
  {
    var waiting := IntentAsks(r, b);
    var granted := ApproversRead(r, waiting);
    c := IntentMoves(r, granted);
  }

  /** The approval has just been created. */
  ghost predicate Begun(b: Scene) {
    && b.row == OPEN && At(b, LoadDecided(0, ApproveIt), LoadIntent(0), LoadIntent(0))
    && b.callers[0] == ASKING && b.callers[1] == LoadDecided(0, ApproveIt)
  }

  lemma {:induction false} BothCharge(r: iset<Sys>, b: Scene) returns (c: Scene)
    requires Closed(r) && Load(b) in r && Begun(b)
    ensures Load(c) in r && c.grants == b.grants + [ONE] + [ONE] && c.wins == b.wins + [0] + [0]
    ensures c.charges == b.charges + [Charge(0, 100)] + [Charge(0, 100)]
  {
    var granted := FirstGranted(r, b);
    var read := ExecutorsRead(r, granted, STALE);
    var claimed := BothClaim(r, read);
    var charged := ChargesNext(r, claimed, 3);
    c := ChargesNext(r, charged, 4);
  }

  /** The bounds are met: two callers that can grant an approval, racing each other, both grant it, and it is
      charged twice. */
  lemma {:induction false} GrantedTwiceChargedTwice() returns (start: Sys, events: seq<Event>)
    ensures Initial(start)
    ensures var t := Run(0, start, events);
            && ChargesOf(t.charges, 0) == 2 && WinsOf(t.wins, 0) == 2 && GrantsOf(t.grants, 0) == 2
            && Granters(start.callers, 0) == 2
  {
    start := START;
    TwoGranters();
    FromIsClosed(START);
    CreationComesFirst(From(START));
    var t := DoubleCharge(From(START), CREATED);
    events := ScheduleTo(START, t);
  }

  lemma {:induction false} DoubleCharge(r: iset<Sys>, b: Scene) returns (t: Sys)
    requires Closed(r) && Load(b) in r && Begun(b)
    requires b.grants == [] && b.wins == [] && b.charges == []
    ensures t in r && ChargesOf(t.charges, 0) == 2 && WinsOf(t.wins, 0) == 2 && GrantsOf(t.grants, 0) == 2
  {
    var c := BothCharge(r, b);
    t := Load(c);
    CountsTwo(t);
  }

  lemma {:induction false} TwoGranters()
    ensures Granters(START.callers, 0) == 2
  {
    var c := START.callers;
    assert c[..4][..3] == c[..3] && c[..3][..2] == c[..2] && c[..2][..1] == c[..1] && c[..1][..0] == [];
    assert Granters(c[..1], 0) == 0;
    assert Granters(c[..2], 0) == 1;
    assert Granters(c[..3], 0) == 2;
    assert Granters(c[..4], 0) == 2;
  }

  lemma {:induction false} CountsTwo(s: Sys)
    requires s.grants == [] + [ONE] + [ONE] && s.wins == [] + [0] + [0]
             && s.charges == [] + [Charge(0, 100)] + [Charge(0, 100)]
    ensures ChargesOf(s.charges, 0) == 2 && WinsOf(s.wins, 0) == 2 && GrantsOf(s.grants, 0) == 2
  {
    GrantAppended([] + [ONE], ONE, 0);
    GrantAppended([], ONE, 0);
    WinAppended([] + [0], 0, 0);
    WinAppended([], 0, 0);
    ChargeAppended([] + [Charge(0, 100)], Charge(0, 100), 0);
    ChargeAppended([], Charge(0, 100), 0);
  }
}
