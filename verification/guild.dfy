/** The pieces of Discord and of the database that the verification,
    unverification and update commands share: a guild member whose role set and
    nickname the bot changes, the store of verified Roblox accounts, and the
    behaviour of Discord's role-management calls. */
module Guild {
  import opened Common

  /** A document of the verified-account collection. */
  datatype VerificationRecord = VerificationRecord(robloxUsername: string, robloxId: int, discordId: Id)

  /** How Discord answers role changes: `faults[r]` is the number of consecutive
      attempts of a change of role `r` that fail before one succeeds (a role
      that is not a key never fails). */
  type Faults = map<Id, nat>

  function FaultCount(faults: Faults, role: Id): nat {
    if role in faults then faults[role] else 0
  }

  /** A guild member as the bot sees and changes it. */
  class Member {
    var roles: set<Id>
    var nickname: Option<string>

    constructor (roles: set<Id>, nickname: Option<string>)
      ensures this.roles == roles && this.nickname == nickname
    {
      this.roles := roles;
      this.nickname := nickname;
    }

    /** One `member.roles.add(role)` call; it fails when Discord refuses it. */
    method AddRole(role: Id, fails: bool) returns (ok: bool)
      modifies this
      ensures ok == !fails
      ensures roles == if ok then old(roles) + {role} else old(roles)
      ensures nickname == old(nickname)
    {
      ok := !fails;
      if ok {
        roles := roles + {role};
      }
    }

    /** One `member.roles.remove(role)` call; it fails when Discord refuses it. */
    method RemoveRole(role: Id, fails: bool) returns (ok: bool)
      modifies this
      ensures ok == !fails
      ensures roles == if ok then old(roles) - {role} else old(roles)
      ensures nickname == old(nickname)
    {
      ok := !fails;
      if ok {
        roles := roles - {role};
      }
    }

    /** `member.setNickname(name)`; `null` clears the override. */
    method SetNickname(name: Option<string>, allowed: bool) returns (ok: bool)
      modifies this
      ensures ok == allowed
      ensures nickname == if ok then name else old(nickname)
      ensures roles == old(roles)
    {
      ok := allowed;
      if ok {
        nickname := name;
      }
    }
  }

  /** The verified-account collection, keyed by Discord id. */
  class IdentityStore {
    var records: map<Id, VerificationRecord>

    /** Every record is stored under its own Discord id, as a query by
        `discordId` finds it. */
    ghost predicate Valid()
      reads this
    {
      forall k :: k in records ==> records[k].discordId == k
    }

    constructor (records: map<Id, VerificationRecord>)
      ensures this.records == records
    {
      this.records := records;
    }

    /** `findOne({ discordId })`. */
    method FindOne(discordId: Id) returns (r: Option<VerificationRecord>)
      ensures r.Some? <==> discordId in records
      ensures r.Some? ==> r.value == records[discordId]
    {
      r := if discordId in records then Some(records[discordId]) else None;
    }

    /** `save()` of a record: afterwards the record is the one stored for its Discord id. */
    method Save(rec: VerificationRecord)
      modifies this
      ensures records == old(records)[rec.discordId := rec]
      ensures old(Valid()) ==> Valid()
    {
      records := records[rec.discordId := rec];
    }

    /** `findOneAndDelete({ discordId })`: afterwards no record exists for the id,
        and every other record is untouched. */
    method FindOneAndDelete(discordId: Id)
      modifies this
      ensures records == old(records) - {discordId}
      ensures old(Valid()) ==> Valid()
    {
      records := records - {discordId};
    }
  }
}
