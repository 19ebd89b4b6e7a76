/** The `/ban roblox username reason duration` command: records a timed ban for
    a Roblox user in the ban collection, unless that user is banned already. */
module Ban {
  import opened Common

  /** One document of the ban collection. */
  datatype BanRecord = BanRecord(
    robloxUsername: string,
    robloxId: int,
    reason: string,
    durationInMin: int,
    expiryTimestamp: int)

  /** `findOne({ robloxId })`: the index of the first record for the id, if any. */
  function FindBan(bans: seq<BanRecord>, robloxId: int): (r: Option<nat>)
    ensures r.None? <==> forall i :: 0 <= i < |bans| ==> bans[i].robloxId != robloxId
    ensures r.Some? ==> r.value < |bans| && bans[r.value].robloxId == robloxId &&
                        forall i :: 0 <= i < r.value ==> bans[i].robloxId != robloxId
    decreases |bans|
  {
    if bans == [] then None
    else if bans[0].robloxId == robloxId then Some(0)
    else
      var r := FindBan(bans[1..], robloxId);
      if r.None? then None else Some(r.value + 1)
  }

  /** The collection invariant the two commands keep: at most one ban per
      Roblox id. */
  ghost predicate Unique(bans: seq<BanRecord>) {
    forall i, j :: 0 <= i < j < |bans| ==> bans[i].robloxId != bans[j].robloxId
  }

  /** `Math.floor(Date.now() / 1000) + duration * 60`: the current time in whole
      seconds, plus the duration in minutes. A negative duration gives an expiry
      in the past. */
  function ExpiryTimestamp(nowMs: nat, duration: int): (e: int)
    ensures (e - duration * 60) * 1000 <= nowMs < (e - duration * 60 + 1) * 1000
    ensures e - duration * 60 >= 0
  {
    nowMs / 1000 + duration * 60
  }

  /** The expiry grows with the clock and with the duration. */
  lemma ExpiryMonotonic(now1: nat, now2: nat, d1: int, d2: int)
    requires now1 <= now2 && d1 <= d2
    ensures ExpiryTimestamp(now1, d1) <= ExpiryTimestamp(now2, d2)
  {
    assert now1 / 1000 <= now2 / 1000;
  }

  datatype Reply =
    | ConfigIncomplete
    | NoPermission
    /** `getIdFromUsername` or the store threw. */
    | Failed
    | AlreadyBanned
    | Banned(robloxId: int, expiryTimestamp: int)

  datatype Outcome = Outcome(reply: Reply, bans: seq<BanRecord>)

  /** The ban step once the username has resolved to `robloxId`: a user with a
      ban is refused and nothing is stored; otherwise one record is appended. */
  function BanUser(bans: seq<BanRecord>, username: string, robloxId: int, reason: string,
                   duration: int, nowMs: nat): (o: Outcome)
    ensures o.reply == AlreadyBanned <==> FindBan(bans, robloxId).Some?
    ensures o.reply == AlreadyBanned ==> o.bans == bans
    ensures o.reply != AlreadyBanned ==>
              o.reply == Banned(robloxId, ExpiryTimestamp(nowMs, duration)) &&
              |o.bans| == |bans| + 1 && o.bans[..|bans|] == bans &&
              o.bans[|bans|] == BanRecord(username, robloxId, reason, duration, ExpiryTimestamp(nowMs, duration))
  {
    if FindBan(bans, robloxId).Some? then Outcome(AlreadyBanned, bans)
    else
      var expiry := ExpiryTimestamp(nowMs, duration);
      var bans' := bans + [BanRecord(username, robloxId, reason, duration, expiry)];
      assert bans'[..|bans|] == bans;
      Outcome(Banned(robloxId, expiry), bans')
  }

  /** Banning keeps at most one ban per user, and afterwards the user is found
      banned. */
  lemma BanKeepsUnique(bans: seq<BanRecord>, username: string, robloxId: int, reason: string,
                       duration: int, nowMs: nat)
    requires Unique(bans)
    ensures Unique(BanUser(bans, username, robloxId, reason, duration, nowMs).bans)
    ensures FindBan(BanUser(bans, username, robloxId, reason, duration, nowMs).bans, robloxId).Some?
  {
    var o := BanUser(bans, username, robloxId, reason, duration, nowMs);
    if o.reply != AlreadyBanned {
      assert o.bans[|bans|].robloxId == robloxId;
      forall i, j | 0 <= i < j < |o.bans|
        ensures o.bans[i].robloxId != o.bans[j].robloxId
      {
        if j < |bans| {
          assert o.bans[i] == bans[i] && o.bans[j] == bans[j];
        } else {
          assert o.bans[i] == bans[i];
        }
      }
    }
  }

  /** A second ban of the same user is refused, whatever its reason or duration. */
  lemma BanTwice(bans: seq<BanRecord>, username: string, robloxId: int, reason: string, duration: int, nowMs: nat,
                 reason2: string, duration2: int, nowMs2: nat)
    ensures var first := BanUser(bans, username, robloxId, reason, duration, nowMs);
            BanUser(first.bans, username, robloxId, reason2, duration2, nowMs2) == Outcome(AlreadyBanned, first.bans)
  {
    var first := BanUser(bans, username, robloxId, reason, duration, nowMs);
    if first.reply != AlreadyBanned {
      assert first.bans[|bans|].robloxId == robloxId;
    }
  }

  /** The ban collection. */
  class BanStore {
    var bans: seq<BanRecord>

    ghost predicate Valid()
      reads this
    {
      Unique(bans)
    }

    constructor ()
      ensures bans == [] && Valid()
    {
      bans := [];
    }

    /** `findOne({ robloxId })`. */
    method FindOne(robloxId: int) returns (r: Option<BanRecord>)
      ensures r.None? <==> FindBan(bans, robloxId).None?
      ensures r.Some? ==> r.value == bans[FindBan(bans, robloxId).value]
    {
      var i := 0;
      while i < |bans|
        invariant 0 <= i <= |bans|
        invariant forall k :: 0 <= k < i ==> bans[k].robloxId != robloxId
      {
        if bans[i].robloxId == robloxId {
          return Some(bans[i]);
        }
        i := i + 1;
      }
      r := None;
    }

    /** `new banSchema(...).save()`. */
    method Save(record: BanRecord)
      modifies this
      ensures bans == old(bans) + [record]
    {
      bans := bans + [record];
    }
  }

  /** `/ban roblox`. `configComplete` is the configuration check, `banPermIds` the
      ban-permission roles, `lookup` the answer of `getIdFromUsername` (`None`
      when it throws) and `nowMs` the clock. */
  method Execute(store: BanStore, configComplete: bool, banPermIds: seq<Id>, callerRoles: set<Id>,
                 username: string, reason: string, duration: int, lookup: Option<int>, nowMs: nat)
    returns (reply: Reply)
    requires store.Valid()
    modifies store
    ensures store.Valid()
    ensures !configComplete ==> reply == ConfigIncomplete && store.bans == old(store.bans)
    ensures configComplete && !HasAnyRole(banPermIds, callerRoles) ==>
              reply == NoPermission && store.bans == old(store.bans)
    ensures configComplete && HasAnyRole(banPermIds, callerRoles) && lookup.None? ==>
              reply == Failed && store.bans == old(store.bans)
    ensures configComplete && HasAnyRole(banPermIds, callerRoles) && lookup.Some? ==>
              Outcome(reply, store.bans) == BanUser(old(store.bans), username, lookup.value, reason, duration, nowMs)
  {
    if !configComplete {
      return ConfigIncomplete;
    }
    if !HasAnyRole(banPermIds, callerRoles) {
      return NoPermission;
    }
    if lookup.None? {
      return Failed;
    }
    var robloxId := lookup.value;
    var existing := store.FindOne(robloxId);
    if existing.Some? {
      return AlreadyBanned;
    }
    var expiry := ExpiryTimestamp(nowMs, duration);
    BanKeepsUnique(store.bans, username, robloxId, reason, duration, nowMs);
    store.Save(BanRecord(username, robloxId, reason, duration, expiry));
    reply := Banned(robloxId, expiry);
  }
}
