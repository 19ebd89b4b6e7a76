/** The `/update` command: it refreshes the stored Roblox username (and the
    nickname with it), then reconciles the member's Discord roles with the
    server's bindings: roles bound to one of the member's Roblox ranks are added,
    other bound roles the member holds are removed, all removals before all
    additions, each change retried up to three times. */
module Update {
  import opened Common
  import opened Guild
  import Binds

  // ---------------------------------------------------------------------------
  // Retrying role changes
  // ---------------------------------------------------------------------------

  /** `MAX_RETRIES`: the attempts a role change gets. */
  const MaxRetries: nat := 3

  /** The attempts the helper allows for a given `retries`: the first attempt is
      always made, and a failure is retried only while `retries > 1`. */
  function Allowed(retries: nat): (n: nat)
    ensures n >= 1 && (retries >= 1 ==> n == retries)
  {
    if retries == 0 then 1 else retries
  }

  datatype RetryResult = RetryResult(attempts: nat, ok: bool)

  /** How `addRoleWithRetry`/`removeRoleWithRetry` play out when the first
      `failures` attempts fail: the helper stops at the first success or when its
      retries run out, and never lets the error escape. */
  function Retry(retries: nat, failures: nat): (r: RetryResult)
    ensures r.ok <==> failures < Allowed(retries)
    ensures r.attempts == if failures < Allowed(retries) then failures + 1 else Allowed(retries)
    ensures 1 <= r.attempts <= Allowed(retries)
    decreases retries
  {
    if failures == 0 then RetryResult(1, true)
    else if retries > 1 then
      var rest := Retry(retries - 1, failures - 1);
      RetryResult(rest.attempts + 1, rest.ok)
    else RetryResult(1, false)
  }

  /** With the default retries, a change is attempted at most three times and
      succeeds exactly when fewer than three attempts fail. */
  lemma DefaultRetries(failures: nat)
    ensures Retry(MaxRetries, failures).attempts <= 3
    ensures Retry(MaxRetries, failures).ok <==> failures < 3
  {
  }

  /** `addRoleWithRetry(member, role, retries)`; `failures` is the number of
      attempts Discord will refuse before it accepts one. */
  method AddRoleWithRetry(member: Member, role: Id, retries: nat, failures: nat) returns (r: RetryResult)
    modifies member
    ensures r == Retry(retries, failures)
    ensures member.roles == if r.ok then old(member.roles) + {role} else old(member.roles)
    ensures member.nickname == old(member.nickname)
    decreases retries
  {
    var ok := member.AddRole(role, failures > 0);
    r := RetryResult(1, ok);
    if !ok && retries > 1 {
      var rest := AddRoleWithRetry(member, role, retries - 1, failures - 1);
      r := RetryResult(rest.attempts + 1, rest.ok);
    }
  }

  /** `removeRoleWithRetry(member, role, retries)`. */
  method RemoveRoleWithRetry(member: Member, role: Id, retries: nat, failures: nat) returns (r: RetryResult)
    modifies member
    ensures r == Retry(retries, failures)
    ensures member.roles == if r.ok then old(member.roles) - {role} else old(member.roles)
    ensures member.nickname == old(member.nickname)
    decreases retries
  {
    var ok := member.RemoveRole(role, failures > 0);
    r := RetryResult(1, ok);
    if !ok && retries > 1 {
      var rest := RemoveRoleWithRetry(member, role, retries - 1, failures - 1);
      r := RetryResult(rest.attempts + 1, rest.ok);
    }
  }

  // ---------------------------------------------------------------------------
  // The plan
  // ---------------------------------------------------------------------------

  /** `find({ serverId })`: the server's bindings, in table order. */
  function ServerBindings(bs: seq<Binds.Binding>, serverId: Id): (r: seq<Binds.Binding>)
    ensures forall b :: b in r <==> b in bs && b.serverId == serverId
  {
    if bs == [] then []
    else if bs[0].serverId == serverId then [bs[0]] + ServerBindings(bs[1..], serverId)
    else ServerBindings(bs[1..], serverId)
  }

  /** `rankToRoleMap`: every binding in turn writes its role list under its
      rank id, whatever its group. */
  function RankMap(bs: seq<Binds.Binding>): (m: map<Id, seq<Id>>)
    ensures m.Keys == set b | b in bs :: b.rankId
    decreases |bs|
  {
    if bs == [] then map[]
    else
      var init := bs[..|bs| - 1];
      var last := bs[|bs| - 1];
      assert bs == init + [last];
      RankMap(init)[last.rankId := last.roleIds]
  }

  /** One unfolding of the map: the last binding writes its list under its rank ... */
  lemma RankMapLast(bs: seq<Binds.Binding>)
    requires bs != []
    ensures bs[|bs| - 1].rankId in RankMap(bs)
    ensures RankMap(bs)[bs[|bs| - 1].rankId] == bs[|bs| - 1].roleIds
  {
  }

  /** ... and leaves every other rank as the bindings before it left it. */
  lemma RankMapOther(bs: seq<Binds.Binding>, rank: Id)
    requires bs != [] && rank in RankMap(bs) && bs[|bs| - 1].rankId != rank
    ensures rank in RankMap(bs[..|bs| - 1])
    ensures RankMap(bs)[rank] == RankMap(bs[..|bs| - 1])[rank]
  {
  }

  /** The position of the last binding with the rank, or -1 when there is none. */
  ghost function LastIndexOf(bs: seq<Binds.Binding>, rank: Id): (k: int)
    ensures -1 <= k < |bs|
    ensures k >= 0 ==> bs[k].rankId == rank
    ensures forall j :: k < j < |bs| && j >= 0 ==> bs[j].rankId != rank
    decreases |bs|
  {
    if bs == [] then -1
    else if bs[|bs| - 1].rankId == rank then |bs| - 1
    else
      var k := LastIndexOf(bs[..|bs| - 1], rank);
      assert forall j :: 0 <= j < |bs| - 1 ==> bs[..|bs| - 1][j] == bs[j];
      k
  }

  lemma {:induction false} RankMapHoldsLast(bs: seq<Binds.Binding>, rank: Id)
    requires rank in RankMap(bs)
    ensures LastIndexOf(bs, rank) >= 0 && RankMap(bs)[rank] == bs[LastIndexOf(bs, rank)].roleIds
    decreases |bs|
  {
    assert bs != [];
    var n := |bs| - 1;
    if bs[n].rankId == rank {
      RankMapLast(bs);
    } else {
      RankMapOther(bs, rank);
      RankMapHoldsLast(bs[..n], rank);
      var k := LastIndexOf(bs[..n], rank);
      assert LastIndexOf(bs, rank) == k;
      assert bs[..n][k] == bs[k];
    }
  }

  /** The list the map keeps for a rank is that of the LAST binding with the rank:
      later bindings overwrite earlier ones. */
  lemma LastBindingWins(bs: seq<Binds.Binding>, rank: Id)
    requires rank in RankMap(bs)
    ensures exists i :: 0 <= i < |bs| && bs[i].rankId == rank && RankMap(bs)[rank] == bs[i].roleIds &&
                        forall j :: i < j < |bs| ==> bs[j].rankId != rank
  {
    RankMapHoldsLast(bs, rank);
    LastWithRank(bs, LastIndexOf(bs, rank), rank, RankMap(bs)[rank]);
  }

  /** Position `i` is the last binding with the rank, and holds `roles`. */
  lemma LastWithRank(bs: seq<Binds.Binding>, i: nat, rank: Id, roles: seq<Id>)
    requires i < |bs| && bs[i].rankId == rank && bs[i].roleIds == roles
    requires forall j :: i < j < |bs| ==> bs[j].rankId != rank
    ensures exists k :: 0 <= k < |bs| && bs[k].rankId == rank && roles == bs[k].roleIds &&
                        forall j :: k < j < |bs| ==> bs[j].rankId != rank
  {
  }


  /** The map does not look at group ids: bindings that agree on rank and roles
      give the same map, whichever groups they belong to. */
  lemma {:induction false} RankMapIgnoresGroups(bs: seq<Binds.Binding>, cs: seq<Binds.Binding>)
    requires |bs| == |cs|
    requires forall i :: 0 <= i < |bs| ==> bs[i].rankId == cs[i].rankId && bs[i].roleIds == cs[i].roleIds
    ensures RankMap(bs) == RankMap(cs)
    decreases |bs|
  {
    if bs != [] {
      RankMapIgnoresGroups(bs[..|bs| - 1], cs[..|cs| - 1]);
    }
  }

  /** `rolesToAdd`: the mapped lists of the member's rank ids, merged in order
      into an insertion-ordered set. */
  function RolesToAdd(m: map<Id, seq<Id>>, ranks: seq<Id>): (r: seq<Id>)
    ensures NoDups(r)
    decreases |ranks|
  {
    if ranks == [] then []
    else
      var acc := RolesToAdd(m, ranks[..|ranks| - 1]);
      var last := ranks[|ranks| - 1];
      if last in m then AddAll(acc, m[last]) else acc
  }

  /** The roles to add are exactly the roles mapped from one of the member's
      rank ids, each once. */
  lemma {:induction false} RolesToAddMembers(m: map<Id, seq<Id>>, ranks: seq<Id>, x: Id)
    ensures x in RolesToAdd(m, ranks) <==> exists k :: 0 <= k < |ranks| && ranks[k] in m && x in m[ranks[k]]
    decreases |ranks|
  {
    if ranks != [] {
      var init := ranks[..|ranks| - 1];
      var last := ranks[|ranks| - 1];
      RolesToAddMembers(m, init, x);
      var acc := RolesToAdd(m, init);
      assert x in acc <==> x in Elems(acc);
      if last in m {
        assert x in AddAll(acc, m[last]) <==> x in Elems(AddAll(acc, m[last]));
        assert x in m[last] <==> x in Elems(m[last]);
      }
      if exists k :: 0 <= k < |ranks| && ranks[k] in m && x in m[ranks[k]] {
        var k :| 0 <= k < |ranks| && ranks[k] in m && x in m[ranks[k]];
        if k < |init| { assert init[k] == ranks[k]; }
      }
      if exists k :: 0 <= k < |init| && init[k] in m && x in m[init[k]] {
        var k :| 0 <= k < |init| && init[k] in m && x in m[init[k]];
        assert ranks[k] == init[k];
      }
    }
  }

  /** `allRoleIdsInBindings`. */
  ghost function BoundRoles(bs: seq<Binds.Binding>): set<Id> {
    set b, x | b in bs && x in b.roleIds :: x
  }

  /** `rolesToRemove`: the current roles, in order, that some binding grants and
      that are not to be added. */
  function RolesToRemove(current: seq<Id>, bound: set<Id>, add: set<Id>): (r: seq<Id>)
    ensures forall x :: x in r <==> x in current && x in bound && x !in add
    ensures NoDups(current) ==> NoDups(r)
    ensures |r| <= |current|
  {
    if current == [] then []
    else
      var rest := RolesToRemove(current[1..], bound, add);
      if current[0] in bound && current[0] !in add then
        assert NoDups(current) ==> current[0] !in current[1..] by {
          assert forall k :: 0 <= k < |current[1..]| ==> current[1..][k] == current[k + 1];
        }
        [current[0]] + rest
      else rest
  }

  /** The plan never removes a role it adds, and only removes bound roles the
      member holds. */
  lemma PlanIsConsistent(bs: seq<Binds.Binding>, ranks: seq<Id>, current: seq<Id>)
    ensures var add := RolesToAdd(RankMap(bs), ranks);
            var remove := RolesToRemove(current, BoundRoles(bs), Elems(add));
            Elems(remove) * Elems(add) == {} &&
            Elems(remove) <= Elems(current) * BoundRoles(bs)
  {
  }

  /** The first `forEach`: fills `rankToRoleMap` binding by binding. */
  method BuildRankMap(bs: seq<Binds.Binding>) returns (m: map<Id, seq<Id>>)
    ensures m == RankMap(bs)
  {
    m := map[];
    for i := 0 to |bs|
      invariant m == RankMap(bs[..i])
    {
      assert bs[..i + 1][..i] == bs[..i];
      m := m[bs[i].rankId := bs[i].roleIds];
    }
    assert bs[..|bs|] == bs;
  }

  /** The second `forEach`: adds the mapped role ids one by one to `rolesToAdd`. */
  method CollectRolesToAdd(m: map<Id, seq<Id>>, ranks: seq<Id>) returns (toAdd: seq<Id>)
    ensures toAdd == RolesToAdd(m, ranks)
  {
    toAdd := [];
    for i := 0 to |ranks|
      invariant toAdd == RolesToAdd(m, ranks[..i])
    {
      assert ranks[..i + 1][..i] == ranks[..i];
      if ranks[i] in m {
        toAdd := AppendNew(toAdd, m[ranks[i]]);
      }
    }
    assert ranks[..|ranks|] == ranks;
  }

  /** The inner loop: the rank's roles not yet listed are appended in order. */
  method AppendNew(acc: seq<Id>, ids: seq<Id>) returns (r: seq<Id>)
    ensures r == AddAll(acc, ids)
  {
    r := acc;
    for j := 0 to |ids|
      invariant r == AddAll(acc, ids[..j])
    {
      AddAllStep(acc, ids, j);
      if ids[j] !in r {
        r := r + [ids[j]];
      }
    }
    assert ids[..|ids|] == ids;
  }

  /** The third `forEach`: collects every role id of every binding. */
  method CollectBoundRoles(bs: seq<Binds.Binding>) returns (bound: set<Id>)
    ensures bound == BoundRoles(bs)
  {
    bound := {};
    for i := 0 to |bs|
      invariant bound == BoundRoles(bs[..i])
    {
      assert bs[..i + 1] == bs[..i] + [bs[i]];
      ghost var before := bound;
      var ids := bs[i].roleIds;
      for j := 0 to |ids|
        invariant bound == before + Elems(ids[..j])
      {
        assert ids[..j + 1] == ids[..j] + [ids[j]];
        bound := bound + {ids[j]};
      }
      assert ids[..|ids|] == ids;
    }
    assert bs[..|bs|] == bs;
  }

  /** The plan of the command. */
  method ComputePlan(bs: seq<Binds.Binding>, ranks: seq<Id>, current: seq<Id>)
    returns (toAdd: seq<Id>, toRemove: seq<Id>)
    ensures toAdd == RolesToAdd(RankMap(bs), ranks)
    ensures toRemove == RolesToRemove(current, BoundRoles(bs), Elems(toAdd))
  {
    var m := BuildRankMap(bs);
    toAdd := CollectRolesToAdd(m, ranks);
    var bound := CollectBoundRoles(bs);
    toRemove := RolesToRemove(current, bound, Elems(toAdd));
  }

  // ---------------------------------------------------------------------------
  // Applying the plan
  // ---------------------------------------------------------------------------

  /** A role change the command issues, with how its retries went. */
  datatype Op = Removal(role: Id, result: RetryResult) | Addition(role: Id, result: RetryResult)

  /** The roles a log of changes touches. */
  function Touched(ops: seq<Op>): set<Id> {
    set o | o in ops :: o.role
  }

  lemma TouchedAppend(ops: seq<Op>, more: seq<Op>)
    ensures Touched(ops + more) == Touched(ops) + Touched(more)
  {
    assert forall o :: o in ops + more <==> o in ops || o in more;
  }

  lemma ElemsLast(roles: seq<Id>)
    requires roles != []
    ensures Elems(roles) == Elems(roles[..|roles| - 1]) + {roles[|roles| - 1]}
  {
    assert roles == roles[..|roles| - 1] + [roles[|roles| - 1]];
  }

  /** The removals of the first loop: roles missing from the role cache are skipped. */
  function RemovalOps(roles: seq<Id>, cache: set<Id>, faults: Faults): (ops: seq<Op>)
    ensures forall o :: o in ops ==> o.Removal?
    ensures Touched(ops) == Elems(roles) * cache
    decreases |roles|
  {
    if roles == [] then []
    else
      var init := roles[..|roles| - 1];
      var last := roles[|roles| - 1];
      var step := if last in cache then [Removal(last, Retry(MaxRetries, FaultCount(faults, last)))] else [];
      ElemsLast(roles);
      TouchedAppend(RemovalOps(init, cache, faults), step);
      RemovalOps(init, cache, faults) + step
  }

  /** The additions of the second loop: roles missing from the role cache are skipped. */
  function AdditionOps(roles: seq<Id>, cache: set<Id>, faults: Faults): (ops: seq<Op>)
    ensures forall o :: o in ops ==> o.Addition?
    ensures Touched(ops) == Elems(roles) * cache
    decreases |roles|
  {
    if roles == [] then []
    else
      var init := roles[..|roles| - 1];
      var last := roles[|roles| - 1];
      var step := if last in cache then [Addition(last, Retry(MaxRetries, FaultCount(faults, last)))] else [];
      ElemsLast(roles);
      TouchedAppend(AdditionOps(init, cache, faults), step);
      AdditionOps(init, cache, faults) + step
  }

  /** All removals, then all additions: every removal is issued before any addition. */
  function PlanOps(toRemove: seq<Id>, toAdd: seq<Id>, cache: set<Id>, faults: Faults): (ops: seq<Op>)
    ensures forall i, j :: 0 <= i < |ops| && 0 <= j < |ops| && ops[i].Addition? && ops[j].Removal? ==> j < i
  {
    var r := RemovalOps(toRemove, cache, faults);
    var a := AdditionOps(toAdd, cache, faults);
    assert forall i :: 0 <= i < |r| ==> r[i] in r;
    assert forall j :: 0 <= j < |a| ==> a[j] in a;
    r + a
  }

  /** The roles whose change went through. */
  function Succeeded(ops: seq<Op>): set<Id> {
    set o | o in ops && o.result.ok :: o.role
  }

  lemma SucceededAppend(ops: seq<Op>, o: Op)
    ensures Succeeded(ops + [o]) == Succeeded(ops) + (if o.result.ok then {o.role} else {})
  {
    assert forall p :: p in ops + [o] <==> p in ops || p == o;
  }

  /** The removal loop. */
  method ApplyRemovals(member: Member, toRemove: seq<Id>, cache: set<Id>, faults: Faults)
    returns (ops: seq<Op>)
    modifies member
    ensures ops == RemovalOps(toRemove, cache, faults)
    ensures member.roles == old(member.roles) - Succeeded(ops)
    ensures member.nickname == old(member.nickname)
  {
    ops := [];
    for i := 0 to |toRemove|
      invariant ops == RemovalOps(toRemove[..i], cache, faults)
      invariant member.roles == old(member.roles) - Succeeded(ops)
      invariant member.nickname == old(member.nickname)
    {
      assert toRemove[..i + 1][..i] == toRemove[..i];
      var roleId := toRemove[i];
      if roleId in cache {
        var r := RemoveRoleWithRetry(member, roleId, MaxRetries, FaultCount(faults, roleId));
        SucceededAppend(ops, Removal(roleId, r));
        ops := ops + [Removal(roleId, r)];
      }
    }
    assert toRemove[..|toRemove|] == toRemove;
  }

  /** The addition loop. */
  method ApplyAdditions(member: Member, toAdd: seq<Id>, cache: set<Id>, faults: Faults)
    returns (ops: seq<Op>)
    modifies member
    ensures ops == AdditionOps(toAdd, cache, faults)
    ensures member.roles == old(member.roles) + Succeeded(ops)
    ensures member.nickname == old(member.nickname)
  {
    ops := [];
    for i := 0 to |toAdd|
      invariant ops == AdditionOps(toAdd[..i], cache, faults)
      invariant member.roles == old(member.roles) + Succeeded(ops)
      invariant member.nickname == old(member.nickname)
    {
      assert toAdd[..i + 1][..i] == toAdd[..i];
      var roleId := toAdd[i];
      if roleId in cache {
        var r := AddRoleWithRetry(member, roleId, MaxRetries, FaultCount(faults, roleId));
        SucceededAppend(ops, Addition(roleId, r));
        ops := ops + [Addition(roleId, r)];
      }
    }
    assert toAdd[..|toAdd|] == toAdd;
  }

  /** Both loops: every removal is complete before the first addition. */
  method ApplyPlan(member: Member, toRemove: seq<Id>, toAdd: seq<Id>, cache: set<Id>, faults: Faults)
    returns (ops: seq<Op>)
    modifies member
    ensures ops == PlanOps(toRemove, toAdd, cache, faults)
    ensures member.roles == (old(member.roles) - Succeeded(RemovalOps(toRemove, cache, faults)))
                            + Succeeded(AdditionOps(toAdd, cache, faults))
    ensures member.nickname == old(member.nickname)
  {
    var removals := ApplyRemovals(member, toRemove, cache, faults);
    var additions := ApplyAdditions(member, toAdd, cache, faults);
    ops := removals + additions;
  }

  /** After a run in which every planned change went through, a second run on the
      same bindings and ranks removes nothing; it still plans the same additions,
      because the roles to add are never filtered against the roles held. */
  lemma RerunRemovesNothing(bs: seq<Binds.Binding>, ranks: seq<Id>, current: seq<Id>, next: seq<Id>)
    requires var add := RolesToAdd(RankMap(bs), ranks);
             var remove := RolesToRemove(current, BoundRoles(bs), Elems(add));
             Elems(next) == (Elems(current) - Elems(remove)) + Elems(add)
    ensures var add := RolesToAdd(RankMap(bs), ranks);
            forall x :: x !in RolesToRemove(next, BoundRoles(bs), Elems(add))
  {
    var add := RolesToAdd(RankMap(bs), ranks);
    var remove := RolesToRemove(current, BoundRoles(bs), Elems(add));
    var r := RolesToRemove(next, BoundRoles(bs), Elems(add));
    forall x | x in next && x in BoundRoles(bs) ensures x in add {
      assert x in Elems(next);
    }
  }

  // ---------------------------------------------------------------------------
  // The command
  // ---------------------------------------------------------------------------

  datatype Reply = MemberNotFound | UserNotFound | Failed | Updated(usernameChanged: bool)

  /** `/update` for the member `discordId`. `member` is the guild cache's answer
      (`null` when absent) and `current` its role ids in cache order;
      `nameFetch` and `groupsFetch` are the Roblox users and groups APIs' answers
      (`None` when a request fails), the latter as the member's role ids in their
      groups. */
  method Execute(
    store: IdentityStore, member: Member?, discordId: Id, current: seq<Id>,
    nameFetch: Option<string>, groupsFetch: Option<seq<Id>>,
    bindings: seq<Binds.Binding>, serverId: Id, cache: set<Id>, faults: Faults, nicknameAllowed: bool)
    returns (reply: Reply, ops: seq<Op>)
    requires store.Valid()
    requires member != null ==> Elems(current) == member.roles
    modifies store, member
    ensures member == null ==> reply == MemberNotFound && ops == [] && store.records == old(store.records)
    ensures member != null && discordId !in old(store.records) ==>
              reply == UserNotFound && ops == [] && store.records == old(store.records) &&
              member.roles == old(member.roles) && member.nickname == old(member.nickname)
    ensures member != null && discordId in old(store.records) && nameFetch.None? ==>
              reply == Failed && ops == [] && store.records == old(store.records) &&
              member.roles == old(member.roles) && member.nickname == old(member.nickname)
    ensures member != null && discordId in old(store.records) && nameFetch.Some? ==>
              var rec := old(store.records)[discordId];
              var changed := rec.robloxUsername != nameFetch.value;
              store.records == (if changed then old(store.records)[discordId := rec.(robloxUsername := nameFetch.value)]
                                else old(store.records)) &&
              member.nickname == (if changed && nicknameAllowed then Some(nameFetch.value) else old(member.nickname)) &&
              (groupsFetch.None? ==> reply == Failed && ops == [] && member.roles == old(member.roles)) &&
              (groupsFetch.Some? ==>
                 var server := ServerBindings(bindings, serverId);
                 var add := RolesToAdd(RankMap(server), groupsFetch.value);
                 var remove := RolesToRemove(current, BoundRoles(server), Elems(add));
                 reply == Updated(changed) &&
                 ops == PlanOps(remove, add, cache, faults) &&
                 member.roles == (old(member.roles) - Succeeded(RemovalOps(remove, cache, faults)))
                                 + Succeeded(AdditionOps(add, cache, faults)))
  {
    ops := [];
    if member == null {
      return MemberNotFound, ops;
    }
    var record := store.FindOne(discordId);
    if record.None? {
      return UserNotFound, ops;
    }
    if nameFetch.None? {
      return Failed, ops;
    }
    var rec := record.value;
    assert rec.discordId == discordId;
    var changed := false;
    if rec.robloxUsername != nameFetch.value {
      changed := true;
      store.Save(rec.(robloxUsername := nameFetch.value));
      var _ := member.SetNickname(Some(nameFetch.value), nicknameAllowed);
    }
    if groupsFetch.None? {
      return Failed, ops;
    }
    var toAdd, toRemove := ComputePlan(ServerBindings(bindings, serverId), groupsFetch.value, current);
    ops := ApplyPlan(member, toRemove, toAdd, cache, faults);
    reply := Updated(changed);
  }
}
