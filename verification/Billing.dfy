/** Plans, the subscription row and its webhooks (internal/app/billing_service.go, internal/domain/billing). */
module Billing {
  import opened Results

  datatype Plan = Developer | Growth

  /** The gateway's status strings; `Unset` is the empty string, `Other` any string without a constant. */
  datatype Status =
    | Created
    | Authenticated
    | Active
    | Pending
    | Halted
    | Cancelled
    | Completed
    | Expired
    | Unset
    | Other(name: string)

  predicate Grants(s: Status) {
    s == Authenticated || s == Active || s == Pending
  }

  predicate Terminal(s: Status) {
    s == Cancelled || s == Completed || s == Expired || s == Halted
  }

  datatype Subscription = Subscription(
    plan: Plan,
    providerId: nat,
    status: Status,
    periodStart: Option<int>,
    periodEnd: Option<int>,
    cancelAtPeriodEnd: bool,
    createdAt: int,
    updatedAt: int)

  datatype GatewayView = GatewayView(status: Status, start: Option<int>, end: Option<int>)

  /** One row per user, the processed event ids, how many subscriptions the gateway has created, and the plan
      ids cached per price. The gateway numbers subscriptions, so every id it returns is new. */
  datatype Store = Store(rows: map<string, Subscription>, events: set<string>, issued: nat,
                         plans: map<(int, string), string>)

  /** The configured plan id, if any, and the price it is looked up or created for otherwise. */
  datatype Pricing = Pricing(planId: string, amount: int, currency: string)

  /** What the gateway answers: to the creation of a plan, and to that of a subscription. */
  datatype Gateway = Gateway(plan: Result<string, Error>, subscription: Result<(), Error>)

  ghost predicate Consistent(s: Store) {
    && (forall u | u in s.rows :: s.rows[u].providerId < s.issued)
    && (forall u, v | u in s.rows && v in s.rows && s.rows[u].providerId == s.rows[v].providerId :: u == v)
  }

  const DAY: int := 86_400

  /** apply: adopts the gateway's view, except that it never goes back to created. */
  function Applied(sub: Subscription, gs: GatewayView, now: int): Subscription {
    var status := if gs.status != Unset && !(gs.status == Created && sub.status != Created) then gs.status
                  else sub.status;
    sub.(status := status,
         periodStart := if gs.start.Some? then gs.start else sub.periodStart,
         periodEnd := if gs.end.Some? then gs.end else sub.periodEnd,
         cancelAtPeriodEnd := if Terminal(status) then false else sub.cancelAtPeriodEnd,
         updatedAt := now)
  }

  // ----- operations on the store

  /** growthPlanID: configured, else cached for the price, else created and cached. */
  function PlanFor(s: Store, p: Pricing, created: Result<string, Error>): (Store, Result<string, Error>) {
    if p.planId != "" then (s, Ok(p.planId))
    else if (p.amount, p.currency) in s.plans then (s, Ok(s.plans[(p.amount, p.currency)]))
    else if p.amount <= 0 then (s, Err(Invalid))
    else if created.Err? then (s, Err(created.error))
    else (s.(plans := s.plans[(p.amount, p.currency) := created.value]), Ok(created.value))
  }

  function Checkout(s: Store, user: string, p: Pricing, g: Gateway, now: int): (Store, Result<nat, Error>) {
    if user in s.rows && Grants(s.rows[user].status) then (s, Err(Conflict))
    else if user in s.rows && s.rows[user].status == Created && now - s.rows[user].createdAt < DAY then
      (s, Ok(s.rows[user].providerId))
    else
      var (t, plan) := PlanFor(s, p, g.plan);
      if plan.Err? then (t, Err(plan.error))
      else if g.subscription.Err? then (t, Err(g.subscription.error))
      else
        var row := Subscription(Growth, s.issued, Created, None, None, false, now, now);
        (t.(rows := s.rows[user := row], issued := s.issued + 1), Ok(s.issued))
  }

  /** A price gets one plan: once one was found for it, every later checkout at that price finds the same one,
      whatever the gateway would answer by then, and creates none. */
  lemma {:induction false} OnePlanPerPrice(s: Store, p: Pricing, created: Result<string, Error>,
                                           again: Result<string, Error>)
    requires PlanFor(s, p, created).1.Ok?
    ensures var (t, plan) := PlanFor(s, p, created); PlanFor(t, p, again) == (t, plan)
  {
  }

  function Confirmed(s: Store, user: string, providerId: nat, signed: bool, gateway: Result<GatewayView, Error>,
                     now: int)
    : (Store, Option<Error>)
  {
    if !signed then (s, Some(Unauthorized))
    else if user !in s.rows || s.rows[user].providerId != providerId then (s, Some(NotFound))
    else if gateway.Err? then (s, Some(gateway.error))
    else
      var sub := Applied(s.rows[user], gateway.value, now);
      (s.(rows := s.rows[user := if sub.status == Created then sub.(status := Authenticated) else sub]), None)
  }

  function CancelledAtGateway(s: Store, user: string, gateway: Result<GatewayView, Error>, now: int)
    : (Store, Option<Error>)
  {
    if user !in s.rows || Terminal(s.rows[user].status) then (s, Some(NotFound))
    else if gateway.Err? then (s, Some(gateway.error))
    else
      var atEnd := s.rows[user].status == Active || s.rows[user].status == Pending;
      (s.(rows := s.rows[user := Applied(s.rows[user], gateway.value, now).(cancelAtPeriodEnd := atEnd)]), None)
  }

  /** Reading the status refreshes a subscription that is still settling. */
  function Refreshed(s: Store, user: string, gateway: Result<GatewayView, Error>, now: int): Store {
    if user in s.rows && s.rows[user].status in {Created, Authenticated, Pending} && gateway.Ok?
    then s.(rows := s.rows[user := Applied(s.rows[user], gateway.value, now)])
    else s
  }

  /** A webhook as delivered: whether its signature verifies, its id, and the subscription it is about. */
  datatype Delivery = Delivery(verified: bool, eventId: string, providerId: Option<nat>, view: GatewayView, at: int)

  ghost predicate Owns(s: Store, user: string, providerId: nat) {
    user in s.rows && s.rows[user].providerId == providerId
  }

  ghost function Handled(s: Store, d: Delivery): Store {
    if !d.verified || d.eventId == "" || d.eventId in s.events then s
    else
      var seen := s.(events := s.events + {d.eventId});
      if d.providerId.Some? && exists u :: Owns(s, u, d.providerId.value) then
        var u :| Owns(s, u, d.providerId.value);
        seen.(rows := s.rows[u := Applied(s.rows[u], d.view, d.at)])
      else seen
  }

  ghost function Deliver(s: Store, ds: seq<Delivery>): Store
    decreases |ds|
  {
    if ds == [] then s else Deliver(Handled(s, ds[0]), ds[1..])
  }

  /** The deliveries left after dropping every event id's later occurrences, and those in `seen`. */
  function FirstOccurrences(ds: seq<Delivery>, seen: set<string>): seq<Delivery>
    decreases |ds|
  {
    if ds == [] then []
    else if ds[0].verified && ds[0].eventId in seen then FirstOccurrences(ds[1..], seen)
    else [ds[0]] + FirstOccurrences(ds[1..], if ds[0].verified then seen + {ds[0].eventId} else seen)
  }

  lemma {:induction false} RepeatsAreIgnored(s: Store, ds: seq<Delivery>, seen: set<string>)
    requires seen - {""} <= s.events
    ensures Deliver(s, ds) == Deliver(s, FirstOccurrences(ds, seen))
    decreases |ds|
  {
    if ds != [] {
      var d := ds[0];
      var next := Handled(s, d);
      var kept := FirstOccurrences(ds, seen);
      if d.verified && d.eventId in seen {
        assert next == s;
        RepeatsAreIgnored(s, ds[1..], seen);
      } else {
        var seen' := if d.verified then seen + {d.eventId} else seen;
        RepeatsAreIgnored(next, ds[1..], seen');
        assert kept[0] == d && kept[1..] == FirstOccurrences(ds[1..], seen');
      }
    }
  }

  /** Repeats, anywhere in a list of webhooks and with any payload, change nothing at all. */
  lemma WebhooksAreDeduplicated(s: Store, ds: seq<Delivery>)
    ensures Deliver(s, ds) == Deliver(s, FirstOccurrences(ds, {}))
  {
    RepeatsAreIgnored(s, ds, {});
  }

  // ----- every operation, in any order

  datatype Op =
    | StartCheckout(user: string, pricing: Pricing, gateway: Gateway, now: int)
    | ConfirmCheckout(user: string, providerId: nat, signed: bool, view: Result<GatewayView, Error>, now: int)
    | Cancel(user: string, view: Result<GatewayView, Error>, now: int)
    | ReadStatus(user: string, view: Result<GatewayView, Error>, now: int)
    | Webhook(delivery: Delivery)

  ghost function Step(s: Store, op: Op): Store {
    match op
    case StartCheckout(u, p, g, now) => Checkout(s, u, p, g, now).0
    case ConfirmCheckout(u, id, signed, g, now) => Confirmed(s, u, id, signed, g, now).0
    case Cancel(u, g, now) => CancelledAtGateway(s, u, g, now).0
    case ReadStatus(u, g, now) => Refreshed(s, u, g, now)
    case Webhook(d) => Handled(s, d)
  }

  ghost function Run(s: Store, ops: seq<Op>): Store
    decreases |ops|
  {
    if ops == [] then s else Run(Step(s, ops[0]), ops[1..])
  }

  /** A provider subscription that exists, or existed, and is not waiting for its checkout. */
  ghost predicate LeftCreated(s: Store, providerId: nat) {
    providerId < s.issued && forall u | Owns(s, u, providerId) :: s.rows[u].status != Created
  }

  lemma StepConsistent(s: Store, op: Op)
    requires Consistent(s)
    ensures Consistent(Step(s, op))
  {
  }

  lemma StepNoRegress(s: Store, op: Op, providerId: nat)
    requires Consistent(s) && LeftCreated(s, providerId)
    ensures LeftCreated(Step(s, op), providerId)
  {
    var t := Step(s, op);
    forall u | Owns(t, u, providerId)
      ensures t.rows[u].status != Created
    {
      if u in s.rows && t.rows[u] == s.rows[u] {
        assert Owns(s, u, providerId);
      } else if u in s.rows {
        assert Owns(s, u, s.rows[u].providerId);
      }
    }
  }

  /** No sequence of operations takes a subscription that has left created back to created. */
  lemma {:induction false} NeverBackToCreated(s: Store, ops: seq<Op>, providerId: nat)
    requires Consistent(s) && LeftCreated(s, providerId)
    ensures Consistent(Run(s, ops)) && LeftCreated(Run(s, ops), providerId)
    decreases |ops|
  {
    if ops != [] {
      StepConsistent(s, ops[0]);
      StepNoRegress(s, ops[0], providerId);
      NeverBackToCreated(Step(s, ops[0]), ops[1..], providerId);
    }
  }

  // ----- the gateway's word

  /** A row that has taken over what the gateway says: its status, unless that is empty or a return to created, and
      each period bound it gives. What was bought, and when, stays. */
  ghost predicate Adopts(before: Subscription, after: Subscription, said: GatewayView) {
    && (said.status == Unset || (said.status == Created && before.status != Created) ==> after.status == before.status)
    && (said.status != Unset && said.status != Created ==> after.status == said.status)
    && (said.start.Some? ==> after.periodStart == said.start)
    && (said.start.None? ==> after.periodStart == before.periodStart)
    && (said.end.Some? ==> after.periodEnd == said.end) && (said.end.None? ==> after.periodEnd == before.periodEnd)
    && after.plan == before.plan && after.providerId == before.providerId && after.createdAt == before.createdAt
  }

  /** A subscription that has ended has no cancellation pending; otherwise the flag is left as it was. */
  ghost predicate FlagFollows(before: Subscription, after: Subscription) {
    after.cancelAtPeriodEnd
    == (after.status !in {Cancelled, Completed, Expired, Halted} && before.cancelAtPeriodEnd)
  }

  /** Only this user's row may differ, and it is still there. */
  ghost predicate OnlyRow(s: Store, t: Store, user: string) {
    && user in s.rows && t.rows.Keys == s.rows.Keys && t.issued == s.issued && t.plans == s.plans
    && forall v | v in s.rows && v != user :: t.rows[v] == s.rows[v]
  }

  /** A webhook that verifies and was not seen before is taken over by the row it is about, and by no other. */
  lemma {:induction false} WebhookAdopts(s: Store, d: Delivery, user: string)
    requires Consistent(s) && d.verified && d.eventId != "" && d.eventId !in s.events
    requires d.providerId.Some? && Owns(s, user, d.providerId.value)
    ensures var t := Handled(s, d);
            && OnlyRow(s, t, user) && t.events == s.events + {d.eventId}
            && Adopts(s.rows[user], t.rows[user], d.view) && FlagFollows(s.rows[user], t.rows[user])
            && t.rows[user].updatedAt == d.at
  {
    assert forall u | Owns(s, u, d.providerId.value) :: u == user;
  }

  /** A webhook that does not verify, has no id, was seen before, or is about nobody's subscription changes no row. */
  lemma {:induction false} WebhookIgnored(s: Store, d: Delivery)
    requires !d.verified || d.eventId == "" || d.eventId in s.events || d.providerId == None
             || !exists u :: Owns(s, u, d.providerId.value)
    ensures Handled(s, d).rows == s.rows && Handled(s, d).issued == s.issued && Handled(s, d).plans == s.plans
    ensures Handled(s, d).events == if d.verified && d.eventId != "" then s.events + {d.eventId} else s.events
  {
    assert d.eventId in s.events ==> s.events + {d.eventId} == s.events;
  }

  /** The answer to a confirmed checkout is taken over, and the wait for it is over whatever it says; it is confirmed
      exactly with a good signature, for the user's own subscription, when the gateway answers. */
  lemma {:induction false} ConfirmationAdopts(s: Store, user: string, providerId: nat, signed: bool,
                                              view: Result<GatewayView, Error>, now: int)
    ensures var (t, e) := Confirmed(s, user, providerId, signed, view, now);
            && (e == None <==> signed && Owns(s, user, providerId) && view.Ok?)
            && (e != None ==> t == s)
            && (e == None ==>
                  && OnlyRow(s, t, user) && t.events == s.events && t.rows[user].status != Created
                  && (if view.value.status in {Unset, Created} && s.rows[user].status == Created
                      then t.rows[user].status == Authenticated
                           && Adopts(s.rows[user], t.rows[user].(status := Created), view.value)
                      else Adopts(s.rows[user], t.rows[user], view.value))
                  && FlagFollows(s.rows[user], t.rows[user]) && t.rows[user].updatedAt == now)
  {
  }

  /** A cancellation takes over the gateway's answer; a subscription that was being paid for runs to the end of its
      period. It is accepted exactly while the subscription has not ended and the gateway answers. */
  lemma {:induction false} CancellationAdopts(s: Store, user: string, view: Result<GatewayView, Error>, now: int)
    ensures var (t, e) := CancelledAtGateway(s, user, view, now);
            && (e == None
                <==> user in s.rows && s.rows[user].status !in {Cancelled, Completed, Expired, Halted} && view.Ok?)
            && (e != None ==> t == s)
            && (e == None ==>
                  && OnlyRow(s, t, user) && t.events == s.events && Adopts(s.rows[user], t.rows[user], view.value)
                  && t.rows[user].cancelAtPeriodEnd == (s.rows[user].status in {Active, Pending})
                  && t.rows[user].updatedAt == now)
  {
  }

  /** Reading the status takes over the gateway's answer exactly while the subscription is still settling. */
  lemma {:induction false} RefreshAdopts(s: Store, user: string, view: Result<GatewayView, Error>, now: int)
    ensures var t := Refreshed(s, user, view, now);
            if user in s.rows && (s.rows[user].status == Created || s.rows[user].status == Authenticated
                                  || s.rows[user].status == Pending) && view.Ok? then
              && OnlyRow(s, t, user) && t.events == s.events && Adopts(s.rows[user], t.rows[user], view.value)
              && FlagFollows(s.rows[user], t.rows[user]) && t.rows[user].updatedAt == now
            else t == s
  {
  }

  /** A checkout is refused while the subscription grants the plan, gives the same subscription again for a day, and
      otherwise opens one under an id that no row has; without a plan or a subscription from the gateway no row
      changes. */
  lemma {:induction false} CheckoutOpens(s: Store, user: string, p: Pricing, g: Gateway, now: int)
    requires Consistent(s)
    ensures var (t, r) := Checkout(s, user, p, g, now);
            var granting := user in s.rows && s.rows[user].status in {Authenticated, Active, Pending};
            var waiting := user in s.rows && s.rows[user].status == Created && now < s.rows[user].createdAt + 86400;
            var priced := p.planId != "" || (p.amount, p.currency) in s.plans || (p.amount > 0 && g.plan.Ok?);
            && (granting ==> t == s && r == Err(Conflict))
            && (waiting ==> t == s && r == Ok(s.rows[user].providerId))
            && (!granting && !waiting ==>
                  if priced && g.subscription.Ok? then
                    && r == Ok(s.issued) && (forall v | v in s.rows :: s.rows[v].providerId != s.issued)
                    && t.rows == s.rows[user := Subscription(Growth, s.issued, Created, None, None, false, now, now)]
                    && t.issued == s.issued + 1
                  else r.Err? && t.rows == s.rows && t.issued == s.issued)
            && t.events == s.events
  {
  }

  /** The plan that a price is sold under: the configured one, else the one found for that price before, else the
      gateway's new one, which is remembered for that price alone. */
  lemma {:induction false} PlanIsFound(s: Store, p: Pricing, created: Result<string, Error>)
    ensures var (t, plan) := PlanFor(s, p, created);
            var key := (p.amount, p.currency);
            var asks := p.planId == "" && key !in s.plans && p.amount > 0 && created.Ok?;
            && t.rows == s.rows && t.events == s.events && t.issued == s.issued
            && (if asks then t.plans == s.plans[key := created.value] && plan == Ok(created.value)
                else t.plans == s.plans)
            && (p.planId != "" ==> plan == Ok(p.planId))
            && (p.planId == "" && key in s.plans ==> plan == Ok(s.plans[key]))
            && (plan.Err? <==> p.planId == "" && key !in s.plans && (p.amount <= 0 || created.Err?))
  {
  }

  // ----- the last word

  lemma {:induction false} DeliverOneMore(s: Store, ds: seq<Delivery>, d: Delivery)
    ensures Deliver(s, ds + [d]) == Handled(Deliver(s, ds), d)
    decreases |ds|
  {
    if ds == [] {
      assert [] + [d] == [d] && [d][1..] == [];
      assert Deliver(Handled(s, d), []) == Handled(s, d);
    } else {
      assert (ds + [d])[0] == ds[0] && (ds + [d])[1..] == ds[1..] + [d];
      DeliverOneMore(Handled(s, ds[0]), ds[1..], d);
    }
  }

  /** Webhooks neither open nor drop subscriptions, and each id they leave behind is that of one that verified. */
  lemma {:induction false} DeliverKeeps(s: Store, ds: seq<Delivery>)
    requires Consistent(s)
    ensures var t := Deliver(s, ds);
            && Consistent(t) && t.rows.Keys == s.rows.Keys
            && (forall u | u in s.rows ::
                  t.rows[u].providerId == s.rows[u].providerId && t.rows[u].plan == s.rows[u].plan)
            && forall id | id in t.events :: id in s.events || exists d | d in ds :: d.verified && d.eventId == id
    decreases |ds|
  {
    if ds != [] {
      var t := Handled(s, ds[0]);
      HandledKeeps(s, ds[0]);
      DeliverKeeps(t, ds[1..]);
      assert ds == [ds[0]] + ds[1..];
      assert ds[0] in ds && forall d | d in ds[1..] :: d in ds;
    }
  }

  lemma {:induction false} HandledKeeps(s: Store, d: Delivery)
    requires Consistent(s)
    ensures var t := Handled(s, d);
            && Consistent(t) && t.rows.Keys == s.rows.Keys
            && (forall u | u in s.rows ::
                  t.rows[u].providerId == s.rows[u].providerId && t.rows[u].plan == s.rows[u].plan)
            && forall id | id in t.events :: id in s.events || (d.verified && d.eventId == id)
  {
  }

  /** After any webhooks, the newest one decides what the user is entitled to, if it verifies, its id is new and it
      names a status that is not created: the plan exactly while that status is authenticated, active or pending. */
  lemma {:induction false} LastWebhookDecides(s: Store, ds: seq<Delivery>, last: Delivery, user: string)
    requires Consistent(s) && user in s.rows && last.providerId == Some(s.rows[user].providerId)
    requires last.verified && last.eventId != "" && last.eventId !in s.events
    requires forall d | d in ds && d.verified :: d.eventId != last.eventId
    requires last.view.status != Unset && last.view.status != Created
    ensures var t := Deliver(s, ds + [last]);
            && user in t.rows && t.rows[user].status == last.view.status
            && EffectivePlan(Some(t.rows[user]))
               == if last.view.status in {Authenticated, Active, Pending} then s.rows[user].plan else Developer
  {
    DeliverKeeps(s, ds);
    DeliverOneMore(s, ds, last);
    WebhookAdopts(Deliver(s, ds), last, user);
  }

  lemma {:induction false} CancelledGoesOn(s: Store, user: string, answer: GatewayView, now: int)
    requires Consistent(s) && user in s.rows && s.rows[user].status == Active && answer.status == Active
    ensures var t := CancelledAtGateway(s, user, Ok(answer), now).0;
            && Consistent(t) && t.events == s.events && user in t.rows && t.rows[user].cancelAtPeriodEnd
            && t.rows[user].providerId == s.rows[user].providerId
            && EffectivePlan(Some(t.rows[user])) == s.rows[user].plan
  {
    CancellationAdopts(s, user, Ok(answer), now);
  }

  lemma {:induction false} EndTakesPlan(s: Store, user: string, ended: Delivery)
    requires Consistent(s) && user in s.rows && ended.providerId == Some(s.rows[user].providerId)
    requires ended.verified && ended.eventId != "" && ended.eventId !in s.events
    requires ended.view.status in {Cancelled, Completed, Expired}
    ensures var u := Handled(s, ended);
            user in u.rows && !u.rows[user].cancelAtPeriodEnd && EffectivePlan(Some(u.rows[user])) == Developer
  {
    WebhookAdopts(s, ended, user);
  }

  /** A subscription cancelled while active keeps its plan until the gateway says that it has ended. */
  lemma {:induction false} CancelledRunsOut(s: Store, user: string, answer: GatewayView, now: int, ended: Delivery)
    requires Consistent(s) && user in s.rows && s.rows[user].status == Active && answer.status == Active
    requires ended.verified && ended.eventId != "" && ended.eventId !in s.events
    requires ended.providerId == Some(s.rows[user].providerId) && ended.view.status in {Cancelled, Completed, Expired}
    ensures var t := CancelledAtGateway(s, user, Ok(answer), now).0;
            && user in t.rows && t.rows[user].cancelAtPeriodEnd
            && EffectivePlan(Some(t.rows[user])) == s.rows[user].plan
            && var u := Handled(t, ended);
               user in u.rows && !u.rows[user].cancelAtPeriodEnd && EffectivePlan(Some(u.rows[user])) == Developer
  {
    CancelledGoesOn(s, user, answer, now);
    EndTakesPlan(CancelledAtGateway(s, user, Ok(answer), now).0, user, ended);
  }

  // ----- entitlements

  datatype Entitlement = Entitlement(included: nat, hardLimit: bool)

  function EntitlementOf(p: Plan): Entitlement {
    match p
    case Developer => Entitlement(100, true)
    case Growth => Entitlement(5000, false)
  }

  function EffectivePlan(sub: Option<Subscription>): Plan {
    if sub.Some? && Grants(sub.value.status) then sub.value.plan else Developer
  }

  /** CheckExecution: only a hard limit refuses, once it is used up. */
  predicate Refuses(sub: Option<Subscription>, used: nat) {
    var e := EntitlementOf(EffectivePlan(sub));
    e.hardLimit && used >= e.included
  }

  // ----- the service

  class BillingService {
    var rows: map<string, Subscription>
    var events: set<string>
    var issued: nat
    var plans: map<(int, string), string>

    ghost function View(): Store
      reads this
    {
      Store(rows, events, issued, plans)
    }

    constructor ()
      ensures View() == Store(map[], {}, 0, map[]) && Consistent(View())
    {
      rows, events, issued, plans := map[], {}, 0, map[];
    }

    method GrowthPlanId(p: Pricing, created: Result<string, Error>) returns (r: Result<string, Error>)
      modifies this`plans
      ensures (View(), r) == PlanFor(old(View()), p, created)
    {
      if p.planId != "" {
        return Ok(p.planId);
      }
      if (p.amount, p.currency) in plans {
        return Ok(plans[(p.amount, p.currency)]);
      }
      if p.amount <= 0 {
        return Err(Invalid);
      }
      if created.Ok? {
        plans := plans[(p.amount, p.currency) := created.value];
      }
      return created;
    }

    method StartCheckout(user: string, p: Pricing, g: Gateway, now: int) returns (r: Result<nat, Error>)
      requires Consistent(View())
      modifies this
      ensures Consistent(View()) && (View(), r) == Checkout(old(View()), user, p, g, now)
    {
      if user in rows {
        var sub := rows[user];
        if Grants(sub.status) {
          return Err(Conflict);
        }
        if sub.status == Created && now - sub.createdAt < DAY {
          return Ok(sub.providerId);
        }
      }
      var plan := GrowthPlanId(p, g.plan);
      if plan.Err? {
        return Err(plan.error);
      }
      if g.subscription.Err? {
        return Err(g.subscription.error);
      }
      var id := issued;
      issued := issued + 1;
      rows := rows[user := Subscription(Growth, id, Created, None, None, false, now, now)];
      return Ok(id);
    }

    method ConfirmCheckout(user: string, providerId: nat, signed: bool, view: Result<GatewayView, Error>, now: int)
      returns (e: Option<Error>)
      requires Consistent(View())
      modifies this
      ensures Consistent(View()) && (View(), e) == Confirmed(old(View()), user, providerId, signed, view, now)
    {
      if !signed {
        return Some(Unauthorized);
      }
      if user !in rows || rows[user].providerId != providerId {
        return Some(NotFound);
      }
      if view.Err? {
        return Some(view.error);
      }
      var sub := Applied(rows[user], view.value, now);
      if sub.status == Created {
        sub := sub.(status := Authenticated);
      }
      rows := rows[user := sub];
      return None;
    }

    method Cancel(user: string, view: Result<GatewayView, Error>, now: int) returns (e: Option<Error>)
      requires Consistent(View())
      modifies this
      ensures Consistent(View()) && (View(), e) == CancelledAtGateway(old(View()), user, view, now)
    {
      if user !in rows || Terminal(rows[user].status) {
        return Some(NotFound);
      }
      var sub := rows[user];
      var atEnd := sub.status == Active || sub.status == Pending;
      if view.Err? {
        return Some(view.error);
      }
      sub := Applied(sub, view.value, now);
      sub := sub.(cancelAtPeriodEnd := atEnd);
      rows := rows[user := sub];
      return None;
    }

    /** Status: refreshes a subscription that is still settling; a gateway failure is ignored. */
    method ReadStatus(user: string, view: Result<GatewayView, Error>, now: int) returns (plan: Plan)
      requires Consistent(View())
      modifies this
      ensures Consistent(View()) && View() == Refreshed(old(View()), user, view, now)
      ensures plan == EffectivePlan(if user in rows then Some(rows[user]) else None)
    {
      if user !in rows {
        return Developer;
      }
      var sub := rows[user];
      if (sub.status == Created || sub.status == Authenticated || sub.status == Pending) && view.Ok? {
        sub := Applied(sub, view.value, now);
        rows := rows[user := sub];
      }
      return EffectivePlan(Some(sub));
    }

    method HandleWebhook(d: Delivery) returns (e: Option<Error>)
      requires Consistent(View())
      modifies this
      ensures Consistent(View()) && View() == Handled(old(View()), d)
      ensures e.Some? <==> !d.verified || d.eventId == ""
    {
      if !d.verified {
        return Some(Unauthorized);
      }
      if d.eventId == "" {
        return Some(Invalid);
      }
      if d.eventId in events {
        return None;
      }
      events := events + {d.eventId};
      if d.providerId == None {
        return None;
      }
      ghost var before := old(View());
      if u :| u in rows && rows[u].providerId == d.providerId.value {
        assert Owns(before, u, d.providerId.value);
        rows := rows[u := Applied(rows[u], d.view, d.at)];
      }
      return None;
    }

    method CheckExecution(user: string, used: nat) returns (e: Option<Error>)
      ensures e.Some? ==> e.value == QuotaExceeded
      ensures e.None? <==> used < 100 || (user in rows && rows[user].plan == Growth
                                          && rows[user].status in {Authenticated, Active, Pending})
    {
      var sub := if user in rows then Some(rows[user]) else None;
      var ent := EntitlementOf(EffectivePlan(sub));
      if !ent.hardLimit {
        return None;
      }
      if used >= ent.included {
        return Some(QuotaExceeded);
      }
      return None;
    }
  }
}
