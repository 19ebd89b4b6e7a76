/** The `/unban roblox username` command: deletes the ban record of a Roblox
    user from the ban collection the `/ban` command fills. */
module Unban {
  import opened Common
  import Ban

  /** `findOneAndDelete({ robloxId })`: the first record for the id is deleted;
      a collection without one is left as it is. */
  function DeleteBan(bans: seq<Ban.BanRecord>, robloxId: int): (r: seq<Ban.BanRecord>)
    ensures Ban.FindBan(bans, robloxId).None? ==> r == bans
    ensures Ban.FindBan(bans, robloxId).Some? ==>
              var i := Ban.FindBan(bans, robloxId).value;
              |r| == |bans| - 1 &&
              multiset(r) == multiset(bans) - multiset{bans[i]} &&
              forall k :: 0 <= k < |r| ==> r[k] == bans[Skip(k, i)]
  {
    var found := Ban.FindBan(bans, robloxId);
    if found.None? then bans
    else
      var i := found.value;
      DeleteAtIndex(bans, i);
      assert bans == bans[..i] + [bans[i]] + bans[i + 1..];
      bans[..i] + bans[i + 1..]
  }

  datatype Reply =
    | ConfigIncomplete
    | NoPermission
    /** `getIdFromUsername` or the store threw. */
    | Failed
    | NotBanned
    | Unbanned

  datatype Outcome = Outcome(reply: Reply, bans: seq<Ban.BanRecord>)

  /** The unban step once the username has resolved to `robloxId`. */
  function UnbanUser(bans: seq<Ban.BanRecord>, robloxId: int): (o: Outcome)
    ensures o.reply == NotBanned <==> Ban.FindBan(bans, robloxId).None?
    ensures o.reply == NotBanned || o.reply == Unbanned
    ensures o.reply == NotBanned ==> o.bans == bans
    ensures o.reply == Unbanned ==> |o.bans| == |bans| - 1
  {
    if Ban.FindBan(bans, robloxId).None? then Outcome(NotBanned, bans)
    else Outcome(Unbanned, DeleteBan(bans, robloxId))
  }

  /** Position in the original collection of element `k` once element `i` is deleted. */
  function Skip(k: nat, i: nat): nat {
    if k < i then k else k + 1
  }

  lemma DeleteAtIndex(bans: seq<Ban.BanRecord>, i: nat)
    requires i < |bans|
    ensures |bans[..i] + bans[i + 1..]| == |bans| - 1
    ensures forall k :: 0 <= k < |bans| - 1 ==> (bans[..i] + bans[i + 1..])[k] == bans[Skip(k, i)]
  {
  }

  /** Deleting the only record for an id from a unique collection leaves a unique
      collection with no record for the id. */
  lemma DeleteOnlyBan(bans: seq<Ban.BanRecord>, i: nat, robloxId: int)
    requires Ban.Unique(bans) && i < |bans| && bans[i].robloxId == robloxId
    ensures Ban.Unique(bans[..i] + bans[i + 1..])
    ensures forall b :: b in bans[..i] + bans[i + 1..] ==> b.robloxId != robloxId
  {
    var after := bans[..i] + bans[i + 1..];
    DeleteAtIndex(bans, i);
    forall k1, k2 | 0 <= k1 < k2 < |after| ensures after[k1].robloxId != after[k2].robloxId {
      assert after[k1] == bans[Skip(k1, i)] && after[k2] == bans[Skip(k2, i)];
    }
    forall b | b in after ensures b.robloxId != robloxId {
      var k :| 0 <= k < |after| && after[k] == b;
      assert after[k] == bans[Skip(k, i)];
    }
  }

  /** The records kept by a deletion are exactly the others. */
  lemma DeleteKeepsOthers(bans: seq<Ban.BanRecord>, i: nat, robloxId: int)
    requires Ban.Unique(bans) && i < |bans| && bans[i].robloxId == robloxId
    ensures forall b :: b in bans[..i] + bans[i + 1..] <==> b in bans && b.robloxId != robloxId
  {
    var after := bans[..i] + bans[i + 1..];
    DeleteAtIndex(bans, i);
    DeleteOnlyBan(bans, i, robloxId);
    forall b | b in bans && b.robloxId != robloxId ensures b in after {
      var k :| 0 <= k < |bans| && bans[k] == b;
      var j := if k < i then k else k - 1;
      assert after[j] == bans[Skip(j, i)];
    }
    forall b | b in after ensures b in bans && b.robloxId != robloxId {
      var k :| 0 <= k < |after| && after[k] == b;
      assert after[k] == bans[Skip(k, i)];
    }
  }

  /** With at most one ban per user, unbanning removes the user's only ban:
      no record for the id remains, every other record is kept, and the
      collection stays unique. */
  lemma UnbanClearsUser(bans: seq<Ban.BanRecord>, robloxId: int)
    requires Ban.Unique(bans)
    ensures var after := UnbanUser(bans, robloxId).bans;
            Ban.Unique(after) &&
            Ban.FindBan(after, robloxId).None? &&
            (forall b :: b in after <==> b in bans && b.robloxId != robloxId)
  {
    var found := Ban.FindBan(bans, robloxId);
    if found.Some? {
      var i := found.value;
      DeleteOnlyBan(bans, i, robloxId);
      DeleteKeepsOthers(bans, i, robloxId);
    } else {
      assert forall b :: b in bans ==> b.robloxId != robloxId;
    }
  }

  /** Banning a user who has no ban and unbanning them gives the collection back. */
  lemma BanThenUnban(bans: seq<Ban.BanRecord>, username: string, robloxId: int, reason: string,
                     duration: int, nowMs: nat)
    requires Ban.FindBan(bans, robloxId).None?
    ensures var banned := Ban.BanUser(bans, username, robloxId, reason, duration, nowMs);
            UnbanUser(banned.bans, robloxId) == Outcome(Unbanned, bans)
  {
    var banned := Ban.BanUser(bans, username, robloxId, reason, duration, nowMs).bans;
    assert banned == bans + [banned[|bans|]];
    assert Ban.FindBan(banned, robloxId) == Some(|bans|);
    assert banned[..|bans|] == bans;
  }

  /** The ban collection's delete. */
  method FindOneAndDelete(store: Ban.BanStore, robloxId: int)
    modifies store
    ensures store.bans == DeleteBan(old(store.bans), robloxId)
  {
    var i := 0;
    while i < |store.bans| && store.bans[i].robloxId != robloxId
      invariant 0 <= i <= |store.bans|
      invariant forall k :: 0 <= k < i ==> store.bans[k].robloxId != robloxId
    {
      i := i + 1;
    }
    if i < |store.bans| {
      store.bans := store.bans[..i] + store.bans[i + 1..];
    }
  }

  /** `/unban roblox`, with the same configuration check, ban-permission roles
      and username lookup as `/ban`. */
  method Execute(store: Ban.BanStore, configComplete: bool, banPermIds: seq<Id>, callerRoles: set<Id>,
                 lookup: Option<int>)
    returns (reply: Reply)
    requires store.Valid()
    modifies store
    ensures store.Valid()
    ensures !configComplete ==> reply == ConfigIncomplete && store.bans == old(store.bans)
    ensures configComplete && !HasAnyRole(banPermIds, callerRoles) ==>
              reply == NoPermission && store.bans == old(store.bans)
    ensures configComplete && HasAnyRole(banPermIds, callerRoles) && lookup.None? ==>
              reply == Failed && store.bans == old(store.bans)
    ensures configComplete && HasAnyRole(banPermIds, callerRoles) && lookup.Some? ==>
              Outcome(reply, store.bans) == UnbanUser(old(store.bans), lookup.value)
  {
    if !configComplete {
      return ConfigIncomplete;
    }
    if !HasAnyRole(banPermIds, callerRoles) {
      return NoPermission;
    }
    if lookup.None? {
      return Failed;
    }
    var robloxId := lookup.value;
    var existing := store.FindOne(robloxId);
    if existing.None? {
      return NotBanned;
    }
    UnbanClearsUser(store.bans, robloxId);
    FindOneAndDelete(store, robloxId);
    reply := Unbanned;
  }
}
