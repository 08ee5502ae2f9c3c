/** Versioned rules per tenant, optionally per user (internal/app/policy_set_service.go). */
module PolicySets {
  import opened Results
  import P = Policy

  /** Whose rules: a tenant's own default, or an override for one of its users. */
  datatype Owner = Owner(tenant: string, user: Option<string>)

  datatype PolicySet = PolicySet(owner: Owner, rules: P.Rules, version: int, superseded: bool)

  /** The store's GetActive: the newest version of exactly this owner that is not superseded. */
  function ActiveOf(sets: seq<PolicySet>, o: Owner): Option<PolicySet> {
    if sets == [] then None
    else
      var before, last := ActiveOf(sets[..|sets| - 1], o), sets[|sets| - 1];
      if last.owner == o && !last.superseded && (before == None || last.version > before.value.version)
      then Some(last) else before
  }

  /** The service's GetActive: the user's override, else the tenant's default; never the platform's rules. */
  function Effective(sets: seq<PolicySet>, o: Owner): Result<PolicySet, Error> {
    var own := if o.user.Some? then ActiveOf(sets, o) else None;
    var chosen := if own.Some? then own else ActiveOf(sets, Owner(o.tenant, None));
    if chosen.Some? then Ok(chosen.value) else Err(NotFound)
  }

  function Superseded(sets: seq<PolicySet>, o: Owner): seq<PolicySet> {
    seq(|sets|, i requires 0 <= i < |sets| => if sets[i].owner == o then sets[i].(superseded := true) else sets[i])
  }

  function NextVersion(sets: seq<PolicySet>, o: Owner): int {
    var current := ActiveOf(sets, o);
    if current.Some? then current.value.version + 1 else 1
  }

  function WithPolicy(sets: seq<PolicySet>, o: Owner, rules: P.Rules): seq<PolicySet> {
    Superseded(sets, o) + [PolicySet(o, rules, NextVersion(sets, o), false)]
  }

  /** Of each owner's versions the last stored is the highest, and is the only one not superseded. */
  ghost predicate Versioned(sets: seq<PolicySet>) {
    && (forall i, j | 0 <= i < j < |sets| && sets[i].owner == sets[j].owner ::
          sets[i].version < sets[j].version && sets[i].superseded)
    && (forall i | 0 <= i < |sets| && sets[i].superseded :: exists j | i < j < |sets| :: sets[j].owner == sets[i].owner)
  }

  lemma {:induction false} NoneActive(sets: seq<PolicySet>, o: Owner)
    requires forall i | 0 <= i < |sets| && sets[i].owner == o :: sets[i].superseded
    ensures ActiveOf(sets, o) == None
  {
    if sets != [] {
      NoneActive(sets[..|sets| - 1], o);
    }
  }

  /** The active set is the owner's last. */
  lemma {:induction false} ActiveIsLast(sets: seq<PolicySet>, o: Owner, k: nat)
    requires k < |sets| && sets[k].owner == o && !sets[k].superseded
    requires forall i | 0 <= i < |sets| && i != k && sets[i].owner == o :: sets[i].superseded
    ensures ActiveOf(sets, o) == Some(sets[k])
  {
    if k == |sets| - 1 {
      NoneActive(sets[..k], o);
    } else {
      ActiveIsLast(sets[..|sets| - 1], o, k);
    }
  }

  lemma {:induction false} LastOf(sets: seq<PolicySet>, o: Owner, i: nat) returns (k: nat)
    requires Versioned(sets) && i < |sets| && sets[i].owner == o
    ensures i <= k < |sets| && sets[k].owner == o && !sets[k].superseded
    decreases |sets| - i
  {
    if sets[i].superseded {
      var j :| i < j < |sets| && sets[j].owner == sets[i].owner;
      k := LastOf(sets, o, j);
    } else {
      k := i;
    }
  }

  /** A new policy's version is above every version its owner ever had. */
  lemma {:induction false} VersionIsHighest(sets: seq<PolicySet>, o: Owner, i: nat)
    requires Versioned(sets) && i < |sets| && sets[i].owner == o
    ensures sets[i].version < NextVersion(sets, o)
  {
    var k := LastOf(sets, o, i);
    ActiveIsLast(sets, o, k);
  }

  lemma {:induction false} OtherOwner(sets: seq<PolicySet>, o: Owner, other: Owner)
    requires o != other
    ensures ActiveOf(Superseded(sets, o), other) == ActiveOf(sets, other)
  {
    if sets != [] {
      OtherOwner(sets[..|sets| - 1], o, other);
      assert Superseded(sets, o)[..|sets| - 1] == Superseded(sets[..|sets| - 1], o);
    }
  }

  lemma {:induction false} StaysVersioned(sets: seq<PolicySet>, o: Owner, rules: P.Rules)
    requires Versioned(sets)
    ensures Versioned(WithPolicy(sets, o, rules))
  {
    var t := WithPolicy(sets, o, rules);
    var last := |sets|;
    forall i, j | 0 <= i < j < |t| && t[i].owner == t[j].owner
      ensures t[i].version < t[j].version && t[i].superseded
    {
      if j == last {
        VersionIsHighest(sets, o, i);
      }
    }
    forall i | 0 <= i < |t| && t[i].superseded
      ensures exists j | i < j < |t| :: t[j].owner == t[i].owner
    {
      if t[i].owner == o {
        assert t[last].owner == o;
      } else {
        var j :| i < j < |sets| && sets[j].owner == sets[i].owner;
        assert t[j].owner == t[i].owner;
      }
    }
  }

  /** Setting a policy makes it the active one, at a version above all its owner's earlier ones; it leaves every
      other owner's active set alone, and keeps every earlier version. */
  lemma {:induction false} SettingTakesEffect(sets: seq<PolicySet>, o: Owner, rules: P.Rules, other: Owner)
    requires Versioned(sets)
    ensures var t := WithPolicy(sets, o, rules);
            && Versioned(t)
            && ActiveOf(t, o) == Some(PolicySet(o, rules, NextVersion(sets, o), false))
            && (other != o ==> ActiveOf(t, other) == ActiveOf(sets, other))
            && |t| == |sets| + 1
            && forall i | 0 <= i < |sets| :: t[i].(superseded := false) == sets[i].(superseded := false)
  {
    StaysVersioned(sets, o, rules);
    var t := WithPolicy(sets, o, rules);
    ActiveIsLast(t, o, |sets|);
    if other != o {
      OtherOwner(sets, o, other);
      assert t[..|sets|] == Superseded(sets, o);
    }
  }

  ghost predicate HasSets(sets: seq<PolicySet>, o: Owner) {
    exists i | 0 <= i < |sets| :: sets[i].owner == o
  }

  /** The newest set an owner stored. */
  ghost predicate IsNewest(sets: seq<PolicySet>, o: Owner, ps: PolicySet) {
    && ps in sets && ps.owner == o && !ps.superseded
    && forall i | 0 <= i < |sets| && sets[i].owner == o :: sets[i].version <= ps.version
  }

  lemma {:induction false} ActiveIsNewest(sets: seq<PolicySet>, o: Owner)
    requires Versioned(sets)
    ensures ActiveOf(sets, o).Some? <==> HasSets(sets, o)
    ensures ActiveOf(sets, o).Some? ==> IsNewest(sets, o, ActiveOf(sets, o).value)
  {
    if HasSets(sets, o) {
      var i :| 0 <= i < |sets| && sets[i].owner == o;
      var k := LastOf(sets, o, i);
      ActiveIsLast(sets, o, k);
    } else {
      NoneActive(sets, o);
    }
  }

  /** The rules in force: the newest set the user ever got, if any; otherwise the newest of the tenant; and
      an error exactly when neither of them ever got one. */
  lemma {:induction false} EffectiveIsNewest(sets: seq<PolicySet>, tenant: string, user: Option<string>)
    requires Versioned(sets)
    ensures var o, general := Owner(tenant, user), Owner(tenant, None);
            var r := Effective(sets, o);
            && (r.Ok? <==> HasSets(sets, o) || HasSets(sets, general))
            && (r.Err? ==> r.error == NotFound)
            && (r.Ok? ==> IsNewest(sets, if HasSets(sets, o) then o else general, r.value))
  {
    ActiveIsNewest(sets, Owner(tenant, user));
    ActiveIsNewest(sets, Owner(tenant, None));
  }

  class PolicySetService {
    var sets: seq<PolicySet>

    constructor ()
      ensures sets == [] && Versioned(sets)
    {
      sets := [];
    }

    method SetPolicy(o: Owner, rules: P.Rules) returns (ps: PolicySet)
      requires Versioned(sets)
      modifies this
      ensures Versioned(sets) && sets == WithPolicy(old(sets), o, rules) && ActiveOf(sets, o) == Some(ps)
    {
      SettingTakesEffect(sets, o, rules, o);
      var version := 1;
      var current := ActiveOf(sets, o);
      if current.Some? {
        version := current.value.version + 1;
      }
      sets := Superseded(sets, o);
      ps := PolicySet(o, rules, version, false);
      sets := sets + [ps];
    }

    method GetActive(o: Owner) returns (r: Result<PolicySet, Error>)
      ensures r == Effective(sets, o)
    {
      if o.user.Some? {
        var own := ActiveOf(sets, o);
        if own.Some? {
          return Ok(own.value);
        }
      }
      var fallback := ActiveOf(sets, Owner(o.tenant, None));
      return if fallback.Some? then Ok(fallback.value) else Err(NotFound);
    }
  }
}
