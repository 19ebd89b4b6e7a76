/** The `/unverify` command: after a Yes/Cancel confirmation, the bot removes
    the member's roles that the server's bindings grant, deletes the member's
    verification record (twice, the second time a no-op), removes the verified
    role and clears the nickname. */
module Unverify {
  import opened Common
  import opened Guild
  import Binds

  // ---------------------------------------------------------------------------
  // The confirmation collector
  // ---------------------------------------------------------------------------

  /** What reaches the channel-wide component collector: a component interaction
      from some user, or the end of the 15-second window. */
  datatype Event = Click(userId: Id, isButton: bool, customId: string) | WindowEnd

  const YesId: string := "yes_verification"
  const CancelId: string := "cancel_verification"

  /** The event ends the collection: the window closes, or the caller clicks a
      button (any button click of the caller stops the collector; interactions
      of other users are filtered out and non-button ones return early). */
  predicate Stops(caller: Id, ev: Event) {
    ev.WindowEnd? || (ev.userId == caller && ev.isButton)
  }

  /** No event before position `k` ends the collection. */
  ghost predicate OpenUntil(caller: Id, evs: seq<Event>, k: int) {
    forall j :: 0 <= j < k && j < |evs| ==> !Stops(caller, evs[j])
  }

  /** The custom id of the button that decides the session, if the caller clicks
      one before the window closes. */
  function Decision(caller: Id, evs: seq<Event>): (d: Option<string>)
    decreases |evs|
  {
    if evs == [] then None
    else if evs[0].WindowEnd? then None
    else if evs[0].userId == caller && evs[0].isButton then Some(evs[0].customId)
    else Decision(caller, evs[1..])
  }

  /** The decision is the first event that ends the collection: a click of the
      caller's with that id and nothing stopping before it, and there is no
      decision exactly when the window closes, or the events run out, first. */
  lemma {:induction false} DecisionIsFirstStop(caller: Id, evs: seq<Event>)
    ensures var d := Decision(caller, evs);
            d.Some? ==> exists k :: 0 <= k < |evs| && evs[k] == Click(caller, true, d.value) && OpenUntil(caller, evs, k)
    ensures Decision(caller, evs).None? <==>
              OpenUntil(caller, evs, |evs|) ||
              exists k :: 0 <= k < |evs| && evs[k].WindowEnd? && OpenUntil(caller, evs, k)
    decreases |evs|
  {
    if evs != [] && !Stops(caller, evs[0]) {
      var rest := evs[1..];
      DecisionIsFirstStop(caller, rest);
      assert forall k :: 0 <= k < |rest| ==> rest[k] == evs[k + 1];
      assert forall k :: 0 <= k <= |rest| ==> (OpenUntil(caller, rest, k) <==> OpenUntil(caller, evs, k + 1)) by {
        forall k | 0 <= k <= |rest| ensures OpenUntil(caller, rest, k) <==> OpenUntil(caller, evs, k + 1) {
          if OpenUntil(caller, rest, k) {
            forall j | 0 <= j < k + 1 && j < |evs| ensures !Stops(caller, evs[j]) {
              if j > 0 { assert evs[j] == rest[j - 1]; }
            }
          }
        }
      }
      var d := Decision(caller, evs);
      if d.Some? {
        var k :| 0 <= k < |rest| && rest[k] == Click(caller, true, d.value) && OpenUntil(caller, rest, k);
        assert evs[k + 1] == Click(caller, true, d.value) && OpenUntil(caller, evs, k + 1);
      } else {
        if OpenUntil(caller, rest, |rest|) {
          assert OpenUntil(caller, evs, |evs|);
        } else {
          var k :| 0 <= k < |rest| && rest[k].WindowEnd? && OpenUntil(caller, rest, k);
          assert evs[k + 1].WindowEnd? && OpenUntil(caller, evs, k + 1);
        }
      }
      if d.None? && exists k :: 0 <= k < |evs| && evs[k].WindowEnd? && OpenUntil(caller, evs, k) {
        var k :| 0 <= k < |evs| && evs[k].WindowEnd? && OpenUntil(caller, evs, k);
        assert k > 0 && rest[k - 1].WindowEnd? && OpenUntil(caller, rest, k - 1);
      }
      if OpenUntil(caller, evs, |evs|) {
        assert OpenUntil(caller, rest, |rest|);
      }
    } else if evs != [] {
      assert OpenUntil(caller, evs, 0);
      if evs[0].Click? {
        assert !OpenUntil(caller, evs, |evs|);
      }
    }
  }

  // ---------------------------------------------------------------------------
  // The teardown after Yes
  // ---------------------------------------------------------------------------

  /** A change the teardown makes or attempts, in the order it happens. */
  datatype Op =
    | RemoveRole(role: Id, ok: bool)
    | DeleteRecord
    | ClearNickname(ok: bool)

  /** `find({ serverId, discordRoleIds: { $in: userRoles } })`: the server's
      bindings that list at least one role the member holds, in table order. */
  function Matching(bs: seq<Binds.Binding>, serverId: Id, held: set<Id>): (r: seq<Binds.Binding>)
    ensures forall b :: b in r <==> b in bs && b.serverId == serverId && exists x :: x in b.roleIds && x in held
  {
    if bs == [] then []
    else
      var rest := Matching(bs[1..], serverId, held);
      if bs[0].serverId == serverId && (exists x :: x in bs[0].roleIds && x in held) then [bs[0]] + rest
      else rest
  }

  /** The removals the inner loop attempts for one binding: every listed role that
      the member held when the command started and that the guild's role cache
      knows. A role with a fault fails and the loop goes on. */
  function RoleOps(ids: seq<Id>, held: set<Id>, cache: set<Id>, faults: Faults): seq<Op>
    decreases |ids|
  {
    if ids == [] then []
    else
      var last := ids[|ids| - 1];
      RoleOps(ids[..|ids| - 1], held, cache, faults) +
      (if last in held && last in cache then [RemoveRole(last, FaultCount(faults, last) == 0)] else [])
  }

  /** The removals of the outer loop, binding after binding. */
  function UnbindOps(bs: seq<Binds.Binding>, held: set<Id>, cache: set<Id>, faults: Faults): seq<Op>
    decreases |bs|
  {
    if bs == [] then []
    else UnbindOps(bs[..|bs| - 1], held, cache, faults) + RoleOps(bs[|bs| - 1].roleIds, held, cache, faults)
  }

  /** The roles a log of operations attempts to remove. */
  function Attempted(ops: seq<Op>): set<Id> {
    set o | o in ops && o.RemoveRole? :: o.role
  }

  /** The roles a log of operations removes. */
  function Removed(ops: seq<Op>): set<Id> {
    set o | o in ops && o.RemoveRole? && o.ok :: o.role
  }

  /** The roles bound to some binding of the server. */
  ghost function BoundIn(bs: seq<Binds.Binding>, serverId: Id): set<Id> {
    set b, x | b in bs && b.serverId == serverId && x in b.roleIds :: x
  }

  lemma LogConcat(a: seq<Op>, b: seq<Op>)
    ensures Attempted(a + b) == Attempted(a) + Attempted(b)
    ensures Removed(a + b) == Removed(a) + Removed(b)
  {
    assert forall o :: o in a + b <==> o in a || o in b;
  }

  lemma {:induction false} RoleOpsTouch(ids: seq<Id>, held: set<Id>, cache: set<Id>, faults: Faults)
    ensures Attempted(RoleOps(ids, held, cache, faults)) == Elems(ids) * held * cache
    ensures Removed(RoleOps(ids, held, cache, faults)) ==
              set x | x in Elems(ids) * held * cache && FaultCount(faults, x) == 0
    ensures forall o :: o in RoleOps(ids, held, cache, faults) ==> o.RemoveRole?
    decreases |ids|
  {
    if ids != [] {
      var last := ids[|ids| - 1];
      RoleOpsTouch(ids[..|ids| - 1], held, cache, faults);
      LogConcat(RoleOps(ids[..|ids| - 1], held, cache, faults),
                if last in held && last in cache then [RemoveRole(last, FaultCount(faults, last) == 0)] else []);
      assert ids == ids[..|ids| - 1] + [ids[|ids| - 1]];
      assert Elems(ids) == Elems(ids[..|ids| - 1]) + {ids[|ids| - 1]};
    }
  }

  lemma {:induction false} UnbindOpsTouch(bs: seq<Binds.Binding>, held: set<Id>, cache: set<Id>, faults: Faults)
    ensures Attempted(UnbindOps(bs, held, cache, faults)) == (set b, x | b in bs && x in b.roleIds :: x) * held * cache
    ensures Removed(UnbindOps(bs, held, cache, faults)) ==
              set x | x in Attempted(UnbindOps(bs, held, cache, faults)) && FaultCount(faults, x) == 0
    ensures forall o :: o in UnbindOps(bs, held, cache, faults) ==> o.RemoveRole?
    decreases |bs|
  {
    if bs != [] {
      var init := bs[..|bs| - 1];
      var last := bs[|bs| - 1];
      UnbindOpsTouch(init, held, cache, faults);
      RoleOpsTouch(last.roleIds, held, cache, faults);
      LogConcat(UnbindOps(init, held, cache, faults), RoleOps(last.roleIds, held, cache, faults));
      assert bs == init + [last];
      assert (set b, x | b in bs && x in b.roleIds :: x) ==
             (set b, x | b in init && x in b.roleIds :: x) + Elems(last.roleIds);
    }
  }

  /** The bound-role loop touches exactly the roles the member held, that some
      binding of the server grants, and that the role cache knows; it removes
      those of them whose removal does not fail. A role the member does not hold
      is never touched. */
  lemma UnbindTouchesHeldBoundRoles(bs: seq<Binds.Binding>, serverId: Id, held: set<Id>, cache: set<Id>, faults: Faults)
    ensures var ops := UnbindOps(Matching(bs, serverId, held), held, cache, faults);
            Attempted(ops) == held * BoundIn(bs, serverId) * cache &&
            Removed(ops) == set x | x in held * BoundIn(bs, serverId) * cache && FaultCount(faults, x) == 0
  {
    var m := Matching(bs, serverId, held);
    UnbindOpsTouch(m, held, cache, faults);
    var inM := set b, x | b in m && x in b.roleIds :: x;
    assert inM * held == BoundIn(bs, serverId) * held by {
      forall x | x in BoundIn(bs, serverId) * held ensures x in inM {
        var b :| b in bs && b.serverId == serverId && x in b.roleIds;
        assert b in m;
      }
    }
  }

  /** The verified role is the first configured one; it is removed only when the
      role cache knows it. */
  function VerifiedOps(verifiedRoleIds: seq<Id>, cache: set<Id>, faults: Faults): seq<Op> {
    if verifiedRoleIds != [] && verifiedRoleIds[0] in cache
    then [RemoveRole(verifiedRoleIds[0], FaultCount(faults, verifiedRoleIds[0]) == 0)]
    else []
  }

  /** The whole teardown, in order: bound-role removals, two deletions of the
      record, the verified-role removal, the nickname clear. */
  function TeardownOps(bs: seq<Binds.Binding>, serverId: Id, held: set<Id>, cache: set<Id>,
                       verifiedRoleIds: seq<Id>, faults: Faults, nicknameAllowed: bool): seq<Op>
  {
    UnbindOps(Matching(bs, serverId, held), held, cache, faults) + [DeleteRecord, DeleteRecord] +
    VerifiedOps(verifiedRoleIds, cache, faults) + [ClearNickname(nicknameAllowed)]
  }

  /** In the teardown every role removal precedes both record deletions, except
      the verified role's, which follows them; the nickname is cleared last. */
  lemma TeardownOrder(bs: seq<Binds.Binding>, serverId: Id, held: set<Id>, cache: set<Id>,
                      verifiedRoleIds: seq<Id>, faults: Faults, nicknameAllowed: bool)
    ensures var ops := TeardownOps(bs, serverId, held, cache, verifiedRoleIds, faults, nicknameAllowed);
            var n := |UnbindOps(Matching(bs, serverId, held), held, cache, faults)|;
            n + 3 <= |ops| <= n + 4 &&
            (forall k :: 0 <= k < n ==> ops[k].RemoveRole? && ops[k].role in held) &&
            ops[n] == DeleteRecord && ops[n + 1] == DeleteRecord &&
            (|ops| == n + 4 <==> verifiedRoleIds != [] && verifiedRoleIds[0] in cache) &&
            (|ops| == n + 4 ==> ops[n + 2].RemoveRole? && ops[n + 2].role == verifiedRoleIds[0]) &&
            ops[|ops| - 1] == ClearNickname(nicknameAllowed)
  {
    var m := Matching(bs, serverId, held);
    var u := UnbindOps(m, held, cache, faults);
    UnbindOpsTouch(m, held, cache, faults);
    var ops := TeardownOps(bs, serverId, held, cache, verifiedRoleIds, faults, nicknameAllowed);
    forall k | 0 <= k < |u| ensures ops[k].RemoveRole? && ops[k].role in held {
      assert ops[k] == u[k] && u[k] in u;
      assert u[k].role in Attempted(u);
    }
  }

  /** The inner loop of the Yes handler: the roles of one binding are removed one
      at a time, each failure caught. */
  method RemoveListedRoles(member: Member, ids: seq<Id>, held: set<Id>, cache: set<Id>, faults: Faults)
    returns (ops: seq<Op>)
    modifies member
    ensures ops == RoleOps(ids, held, cache, faults)
    ensures member.roles == old(member.roles) - Removed(ops)
    ensures member.nickname == old(member.nickname)
  {
    ops := [];
    for j := 0 to |ids|
      invariant ops == RoleOps(ids[..j], held, cache, faults)
      invariant member.roles == old(member.roles) - Removed(ops)
      invariant member.nickname == old(member.nickname)
    {
      assert ids[..j + 1][..j] == ids[..j];
      var roleId := ids[j];
      if roleId in held && roleId in cache {
        var ok := member.RemoveRole(roleId, FaultCount(faults, roleId) > 0);
        LogConcat(ops, [RemoveRole(roleId, ok)]);
        assert Removed([RemoveRole(roleId, ok)]) == if ok then {roleId} else {};
        ops := ops + [RemoveRole(roleId, ok)];
      }
    }
    assert ids[..|ids|] == ids;
  }

  /** The outer loop of the Yes handler, binding after binding. */
  method RemoveBoundRoles(member: Member, bs: seq<Binds.Binding>, held: set<Id>, cache: set<Id>, faults: Faults)
    returns (ops: seq<Op>)
    requires member.roles == held
    modifies member
    ensures ops == UnbindOps(bs, held, cache, faults)
    ensures member.roles == held - Removed(ops)
    ensures member.nickname == old(member.nickname)
  {
    ops := [];
    for i := 0 to |bs|
      invariant ops == UnbindOps(bs[..i], held, cache, faults)
      invariant member.roles == held - Removed(ops)
      invariant member.nickname == old(member.nickname)
    {
      assert bs[..i + 1][..i] == bs[..i];
      var more := RemoveListedRoles(member, bs[i].roleIds, held, cache, faults);
      LogConcat(ops, more);
      ops := ops + more;
    }
    assert bs[..|bs|] == bs;
  }

  /** The collector: events are handled one at a time until one stops it. */
  method Collect(caller: Id, events: seq<Event>) returns (decision: Option<string>)
    ensures decision == Decision(caller, events)
  {
    decision := None;
    var stopped := false;
    var i := 0;
    while i < |events| && !stopped
      invariant 0 <= i <= |events|
      invariant Decision(caller, events) == if stopped then decision else Decision(caller, events[i..])
      invariant !stopped ==> decision.None?
    {
      assert events[i..][0] == events[i];
      assert events[i..][1..] == events[i + 1..];
      var ev := events[i];
      assert Decision(caller, events[i..]) ==
             if ev.WindowEnd? then None
             else if ev.userId == caller && ev.isButton then Some(ev.customId)
             else Decision(caller, events[i + 1..]);
      if ev.WindowEnd? {
        stopped := true;
      } else if ev.userId == caller && ev.isButton {
        decision := Some(ev.customId);
        stopped := true;
      }
      i := i + 1;
    }
    if !stopped {
      assert events[i..] == [];
    }
  }

  /** Only role removals count as removed roles, whatever is logged around them. */
  lemma TeardownRemoved(unbind: seq<Op>, verified: seq<Op>, cleared: bool)
    ensures Removed(unbind + [DeleteRecord, DeleteRecord] + verified + [ClearNickname(cleared)]) ==
            Removed(unbind) + Removed(verified)
  {
    LogConcat(unbind, [DeleteRecord, DeleteRecord]);
    LogConcat(unbind + [DeleteRecord, DeleteRecord], verified);
    LogConcat(unbind + [DeleteRecord, DeleteRecord] + verified, [ClearNickname(cleared)]);
    assert Removed([DeleteRecord, DeleteRecord]) == {} && Removed([ClearNickname(cleared)]) == {};
  }

  /** The verified-role removal, when the role cache knows the first verified role. */
  method RemoveVerifiedRole(member: Member, verifiedRoleIds: seq<Id>, cache: set<Id>, faults: Faults)
    returns (verified: seq<Op>)
    modifies member
    ensures verified == VerifiedOps(verifiedRoleIds, cache, faults)
    ensures member.roles == old(member.roles) - Removed(verified)
    ensures member.nickname == old(member.nickname)
  {
    verified := [];
    if verifiedRoleIds != [] && verifiedRoleIds[0] in cache {
      var ok := member.RemoveRole(verifiedRoleIds[0], FaultCount(faults, verifiedRoleIds[0]) > 0);
      verified := [RemoveRole(verifiedRoleIds[0], ok)];
      assert Removed(verified) == if ok then {verifiedRoleIds[0]} else {};
    }
  }

  method Teardown(store: IdentityStore, member: Member, discordId: Id,
                  bindings: seq<Binds.Binding>, serverId: Id, cache: set<Id>, verifiedRoleIds: seq<Id>,
                  faults: Faults, nicknameAllowed: bool)
    returns (ops: seq<Op>)
    modifies store, member
    ensures ops == TeardownOps(bindings, serverId, old(member.roles), cache, verifiedRoleIds, faults, nicknameAllowed)
    ensures store.records == old(store.records) - {discordId}
    ensures member.roles == old(member.roles) - Removed(ops)
    ensures member.nickname == if nicknameAllowed then None else old(member.nickname)
  {
    ghost var held := member.roles;
    var unbind := RemoveBoundRoles(member, Matching(bindings, serverId, member.roles), member.roles, cache, faults);
    store.FindOneAndDelete(discordId);
    store.FindOneAndDelete(discordId);
    var verified := RemoveVerifiedRole(member, verifiedRoleIds, cache, faults);
    var cleared := member.SetNickname(None, nicknameAllowed);
    ops := unbind + [DeleteRecord, DeleteRecord] + verified + [ClearNickname(cleared)];
    TeardownRemoved(unbind, verified, cleared);
  }


  // ---------------------------------------------------------------------------
  // The command
  // ---------------------------------------------------------------------------

  datatype Reply =
    | ConfigIncomplete
    | NotVerified
    | Confirm
    | MemberNotFound
    | Unverified
    | Cancelled

  /** `/unverify` from the member `discordId`. `member` is the answer of the
      member fetch (`null` when the member is not found); `cache` the guild's
      role cache; `faults` how Discord answers role removals; `nicknameAllowed`
      whether the bot may change the nickname. */
  method Execute(
    store: IdentityStore, member: Member?, configComplete: bool, discordId: Id,
    bindings: seq<Binds.Binding>, serverId: Id, cache: set<Id>, verifiedRoleIds: seq<Id>,
    faults: Faults, nicknameAllowed: bool, events: seq<Event>)
    returns (replies: seq<Reply>, ops: seq<Op>)
    modifies store, member
    ensures !configComplete ==> replies == [ConfigIncomplete]
    ensures configComplete && discordId !in old(store.records) ==> replies == [NotVerified]
    ensures var proceeds := configComplete && discordId in old(store.records) &&
                            Decision(discordId, events) == Some(YesId) && member != null;
            (proceeds ==>
               replies == [Confirm, Unverified] &&
               ops == TeardownOps(bindings, serverId, old(member.roles), cache, verifiedRoleIds, faults, nicknameAllowed) &&
               store.records == old(store.records) - {discordId} &&
               member.roles == old(member.roles) - Removed(ops) &&
               member.nickname == (if nicknameAllowed then None else old(member.nickname))) &&
            (!proceeds ==>
               ops == [] && store.records == old(store.records) &&
               (member != null ==> member.roles == old(member.roles) && member.nickname == old(member.nickname)))
    ensures configComplete && discordId in old(store.records) ==>
              replies == [Confirm] + (match Decision(discordId, events)
                                      case Some(id) =>
                                        if id == YesId then (if member == null then [MemberNotFound] else [Unverified])
                                        else if id == CancelId then [Cancelled]
                                        else []
                                      case None => [])
  {
    ops := [];
    if !configComplete {
      return [ConfigIncomplete], ops;
    }
    var existing := store.FindOne(discordId);
    if existing.None? {
      return [NotVerified], ops;
    }
    replies := [Confirm];

    var decision := Collect(discordId, events);
    if decision == Some(YesId) {
      if member == null {
        replies := replies + [MemberNotFound];
        return;
      }
      ops := Teardown(store, member, discordId, bindings, serverId, cache, verifiedRoleIds, faults, nicknameAllowed);
      replies := replies + [Unverified];
    } else if decision == Some(CancelId) {
      replies := replies + [Cancelled];
    }
  }
}
