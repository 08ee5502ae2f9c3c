/** One payment execution, exactly: when preparation fails, and when money moves. */
module PaymentKeys {
  import opened Results
  import opened Approvals
  import opened PaymentFlow
  import opened PaymentExecution
  import opened PaymentSafety
  import S = PaymentStates
  import D = PaymentDemo

  /** The demo provider refuses to prepare exactly when the tolerance is negative; then the approval is still
      APPROVED and nothing is paid. */
  lemma {:induction false} FailedPreparationSparesApproval(w: World, key: string, agent: string, n: nat,
                                                           scenario: D.Scenario,
                                                           others: Others)
    requires Inv(w, others) && Ready(w, agent, n).Ok?
    ensures var a := Ready(w, agent, n).value;
            var (t, r) := ExecuteOnce(w, key, agent, n, scenario);
            && a in t.deals.approvals
            && (w.deals.intents[n].request.tolerance < 0 ==>
                  && r == Ok(Outcome(S.ProviderUnavailable, None))
                  && t.deals.approvals[a] == w.deals.approvals[a] && t.deals.approvals[a].status == Approved
                  && D.Keeps(w.demo, t.demo))
            && (w.deals.intents[n].request.tolerance >= 0 ==> t.deals.approvals[a].status == Consumed)
  {
    var a := Ready(w, agent, n).value;
    var pi := w.deals.intents[n];
    PrepareResult(w.demo, pi.user, pi.request, w.deals.approvals[a].expiresAt, w.env.now);
    PrepareKeeps(w.demo, pi.user, pi.request, w.deals.approvals[a].expiresAt, w.env.now);
    var (u, c) := Preparing(w, n, a);
    if c.Ok? {
      PayConsumes(u, key, n, a, c.value, scenario);
    }
  }

  lemma {:induction false} PayConsumes(w: World, key: string, n: nat, a: nat, c: nat, scenario: D.Scenario)
    requires n in w.deals.intents && a in w.deals.approvals
    ensures a in Pay(w, key, n, a, c, scenario).0.deals.approvals
    ensures Pay(w, key, n, a, c, scenario).0.deals.approvals[a].status == Consumed
  {
  }

  predicate Used(d: D.Demo, key: string) {
    key != "" && key in d.book.byKey
  }

  /** What a payment on a prepared credential comes to: a new transaction for the intent's own amount if the key
      was not used before, and otherwise that key's first result, with no money moved. */
  lemma {:induction false} KeyDecides(w: World, key: string, n: nat, a: nat, c: nat)
    requires n in w.deals.intents && a in w.deals.approvals && D.Sound(w.demo)
    requires Prepared(w.demo, c, w.deals.intents[n].user, w.deals.intents[n].request, w.deals.approvals[a].expiresAt,
                      w.env.now)
    ensures var q := w.deals.intents[n].request;
            var (t, o) := Pay(w, key, n, a, c, D.Plain);
            && o.result.Some?
            && (Used(w.demo, key) ==> o.result.value == w.demo.book.byKey[key] && t.demo == w.demo)
            && (!Used(w.demo, key) ==>
                  && o.result.value.transaction == Some(w.demo.next) && w.demo.next !in w.demo.book.results
                  && o.result.value.amount == q.amount && o.result.value.currency == q.currency
                  && t.demo.book.results == w.demo.book.results[w.demo.next := o.result.value])
  {
    var q := w.deals.intents[n].request;
    var u := Claimed(w, n, a);
    assert u.demo == w.demo && u.env == w.env;
    if !Used(w.demo, key) {
      D.PaidFresh(w.demo, key, c, q.amount, q.currency, D.Plain, w.env.now);
    }
  }
}
