/** The `/points add|remove usernames amount` command: a comma-separated list of
    Roblox usernames is resolved to Roblox ids, and each resolved user's points
    record is raised or lowered by the amount. */
module Points {
  import opened Common

  /** `usernames.length > 10` is refused. */
  const MaxUsernames: nat := 10

  datatype Subcommand = Add | Remove

  /** A username with the answer of `getIdFromUsername`: `None` when the lookup
      throws or answers nothing. */
  datatype Resolution = Resolution(username: string, robloxId: Option<int>)

  /** The id is truthy: present and not 0. */
  predicate Resolved(r: Resolution) {
    r.robloxId.Some? && r.robloxId.value != 0
  }

  /** The lookups, in the order of the names; `ids` holds the names the Roblox API
      knows. */
  function Resolve(names: seq<string>, ids: map<string, int>): seq<Resolution> {
    seq(|names|, i requires 0 <= i < |names| =>
          Resolution(names[i], if names[i] in ids then Some(ids[names[i]]) else None))
  }

  /** The id is falsy: missing or 0. */
  predicate Unresolved(r: Resolution) {
    !Resolved(r)
  }

  /** `failedUsers`: the lookups whose id is falsy, in order. */
  function FailedUsers(rs: seq<Resolution>): (f: seq<Resolution>)
    ensures forall r :: r in f <==> r in rs && Unresolved(r)
  {
    if rs == [] then []
    else if Unresolved(rs[0]) then [rs[0]] + FailedUsers(rs[1..])
    else FailedUsers(rs[1..])
  }

  /** `successfulUsers`: the lookups whose id is truthy, in order. */
  function SuccessfulUsers(rs: seq<Resolution>): (s: seq<Resolution>)
    ensures forall r :: r in s <==> r in rs && Resolved(r)
    ensures forall i :: 0 <= i < |s| ==> s[i].robloxId.Some? && s[i].robloxId.value != 0
  {
    if rs == [] then []
    else if Resolved(rs[0]) then [rs[0]] + SuccessfulUsers(rs[1..])
    else SuccessfulUsers(rs[1..])
  }

  /** Every lookup lands in exactly one of the two lists: together they hold each
      lookup exactly as often as the input does. */
  lemma {:induction false} UsersArePartitioned(rs: seq<Resolution>)
    ensures multiset(FailedUsers(rs)) + multiset(SuccessfulUsers(rs)) == multiset(rs)
    ensures |FailedUsers(rs)| + |SuccessfulUsers(rs)| == |rs|
    decreases |rs|
  {
    if rs != [] {
      UsersArePartitioned(rs[1..]);
      assert rs == [rs[0]] + rs[1..];
    }
  }

  /** Both filters keep the input order: filtering a concatenation gives the
      concatenation of the filtered parts. */
  lemma {:induction false} FailedKeepsOrder(a: seq<Resolution>, b: seq<Resolution>)
    ensures FailedUsers(a + b) == FailedUsers(a) + FailedUsers(b)
    decreases |a|
  {
    if a == [] {
      assert a + b == b;
    } else {
      FailedKeepsOrder(a[1..], b);
      assert (a + b)[1..] == a[1..] + b;
      assert FailedUsers(a + b) == (if Unresolved(a[0]) then [a[0]] else []) + FailedUsers(a[1..] + b);
    }
  }

  lemma {:induction false} SuccessfulKeepsOrder(a: seq<Resolution>, b: seq<Resolution>)
    ensures SuccessfulUsers(a + b) == SuccessfulUsers(a) + SuccessfulUsers(b)
    decreases |a|
  {
    if a == [] {
      assert a + b == b;
    } else {
      SuccessfulKeepsOrder(a[1..], b);
      assert (a + b)[1..] == a[1..] + b;
      assert SuccessfulUsers(a + b) == (if Resolved(a[0]) then [a[0]] else []) + SuccessfulUsers(a[1..] + b);
    }
  }

  /** The Roblox API knows the name under a truthy id. */
  predicate Known(ids: map<string, int>, name: string) {
    name in ids && ids[name] != 0
  }

  /** The names the Roblox API does not know, or knows only under id 0, in order
      and with repeats. */
  function UnknownNames(names: seq<string>, ids: map<string, int>): seq<string>
    decreases |names|
  {
    if names == [] then []
    else (if Known(ids, names[0]) then [] else [names[0]]) + UnknownNames(names[1..], ids)
  }

  /** The names the Roblox API knows, in order and with repeats. */
  function KnownNames(names: seq<string>, ids: map<string, int>): seq<string>
    decreases |names|
  {
    if names == [] then []
    else (if Known(ids, names[0]) then [names[0]] else []) + KnownNames(names[1..], ids)
  }

  /** The ids of the known names, in the same order. */
  function KnownIds(names: seq<string>, ids: map<string, int>): (r: seq<int>)
    ensures forall i :: 0 <= i < |r| ==> r[i] != 0
    decreases |names|
  {
    if names == [] then []
    else (if Known(ids, names[0]) then [ids[names[0]]] else []) + KnownIds(names[1..], ids)
  }

  /** Resolution is element-wise: the first name's lookup, then the rest. */
  lemma ResolveCons(names: seq<string>, ids: map<string, int>)
    requires names != []
    ensures Resolve(names, ids) == [Resolve(names, ids)[0]] + Resolve(names[1..], ids)
    ensures Resolve(names, ids)[0].username == names[0]
    ensures Resolved(Resolve(names, ids)[0]) <==> Known(ids, names[0])
    ensures Resolved(Resolve(names, ids)[0]) ==> Resolve(names, ids)[0].robloxId.value == ids[names[0]]
  {
    var rs := Resolve(names, ids);
    assert rs[1..] == Resolve(names[1..], ids);
    assert rs == [rs[0]] + rs[1..];
  }

  lemma NamesCons(r: Resolution, rs: seq<Resolution>)
    ensures Names([r] + rs) == [r.username] + Names(rs)
  {
  }

  lemma IdsCons(r: Resolution, rs: seq<Resolution>)
    requires r.robloxId.Some? && forall i :: 0 <= i < |rs| ==> rs[i].robloxId.Some?
    ensures IdsOf([r] + rs) == [r.robloxId.value] + IdsOf(rs)
  {
  }

  /** Resolving the names and keeping the lookups with a falsy id lists exactly
      the names the API does not know (or knows as 0), in order and with
      repeats. */
  lemma {:induction false} FailedAreUnknown(names: seq<string>, ids: map<string, int>)
    ensures Names(FailedUsers(Resolve(names, ids))) == UnknownNames(names, ids)
    decreases |names|
  {
    if names != [] {
      var rs := Resolve(names, ids);
      ResolveCons(names, ids);
      FailedAreUnknown(names[1..], ids);
      if !Known(ids, names[0]) {
        NamesCons(rs[0], FailedUsers(rs[1..]));
      }
    }
  }

  /** Keeping the lookups with a truthy id lists exactly the names the API
      knows, with their ids, in order and with repeats. */
  lemma {:induction false} SuccessfulAreKnown(names: seq<string>, ids: map<string, int>)
    ensures Names(SuccessfulUsers(Resolve(names, ids))) == KnownNames(names, ids)
    ensures IdsOf(SuccessfulUsers(Resolve(names, ids))) == KnownIds(names, ids)
    decreases |names|
  {
    if names != [] {
      var rs := Resolve(names, ids);
      ResolveCons(names, ids);
      SuccessfulAreKnown(names[1..], ids);
      if Known(ids, names[0]) {
        NamesCons(rs[0], SuccessfulUsers(rs[1..]));
        IdsCons(rs[0], SuccessfulUsers(rs[1..]));
      }
    }
  }

  // ---------------------------------------------------------------------------
  // The points store
  // ---------------------------------------------------------------------------

  /** `updatePoints(robloxId, amount, isAdding)` on a store mapping Roblox ids to
      points: an existing record moves by the amount, with no lower bound; a new
      record starts at the amount when adding and at 0 when removing. */
  function UpdatePoints(points: map<int, int>, robloxId: int, amount: int, sub: Subcommand): (r: map<int, int>)
    ensures robloxId in r && r.Keys == points.Keys + {robloxId}
    ensures forall id :: id in points && id != robloxId ==> r[id] == points[id]
    ensures robloxId in points && sub == Add ==> r[robloxId] == points[robloxId] + amount
    ensures robloxId in points && sub == Remove ==> r[robloxId] == points[robloxId] - amount
    ensures robloxId !in points ==> r[robloxId] == if sub == Add then amount else 0
  {
    if robloxId in points then
      points[robloxId := if sub == Add then points[robloxId] + amount else points[robloxId] - amount]
    else
      points[robloxId := if sub == Add then amount else 0]
  }

  /** The updates of the loop, one per resolved user, in list order. */
  function UpdateAll(points: map<int, int>, ids: seq<int>, amount: int, sub: Subcommand): map<int, int>
    decreases |ids|
  {
    if ids == [] then points
    else UpdatePoints(UpdateAll(points, ids[..|ids| - 1], amount, sub), ids[|ids| - 1], amount, sub)
  }

  /** Number of occurrences of `x` in `s`. */
  function Count(s: seq<int>, x: int): (n: nat)
    ensures n <= |s|
    ensures n == 0 <==> x !in s
    decreases |s|
  {
    if s == [] then 0
    else
      var init := s[..|s| - 1];
      assert s == init + [s[|s| - 1]];
      Count(init, x) + (if s[|s| - 1] == x then 1 else 0)
  }

  /** The step of a repeated addition. */
  lemma MulStep(c: int, amount: int)
    ensures c * amount + amount == (c + 1) * amount
    ensures -(c - 1) * amount - amount == -c * amount
  {
  }

  /** The effect of the loop on one Roblox id that appears `c` times: a user named
      twice is updated twice. Adding gives the old points (0 for a new record)
      plus c times the amount; removing gives the old points minus c times the
      amount, and a new record starts at 0, so only c - 1 removals count. Ids the
      loop does not visit are untouched. */
  lemma {:induction false} UpdateAllEffect(points: map<int, int>, ids: seq<int>, amount: int, sub: Subcommand, x: int)
    ensures var r := UpdateAll(points, ids, amount, sub);
            var c := Count(ids, x);
            (x in r <==> x in points || c > 0) &&
            (c == 0 && x in points ==> r[x] == points[x]) &&
            (c > 0 && sub == Add ==> r[x] == (if x in points then points[x] else 0) + c * amount) &&
            (c > 0 && sub == Remove ==> r[x] == if x in points then points[x] - c * amount else -(c - 1) * amount)
    decreases |ids|
  {
    if ids != [] {
      var init := ids[..|ids| - 1];
      var last := ids[|ids| - 1];
      UpdateAllEffect(points, init, amount, sub, x);
      var c0 := Count(init, x);
      if last == x {
        MulStep(c0, amount);
      }
    }
  }

  /** The points store. */
  class PointsStore {
    var points: map<int, int>

    constructor (points: map<int, int>)
      ensures this.points == points
    {
      this.points := points;
    }

    /** `updatePoints`: finds the record, then saves it or a new one. */
    method Update(robloxId: int, amount: int, sub: Subcommand)
      modifies this
      ensures points == UpdatePoints(old(points), robloxId, amount, sub)
    {
      if robloxId in points {
        var p := points[robloxId];
        points := points[robloxId := if sub == Add then p + amount else p - amount];
      } else {
        points := points[robloxId := if sub == Add then amount else 0];
      }
    }
  }

  // ---------------------------------------------------------------------------
  // The command
  // ---------------------------------------------------------------------------

  datatype Reply =
    | NoPermission
    | TooManyUsernames
    | AmountNotPositive
    /** Some users were updated; `failed` lists the others. */
    | Updated(successful: seq<string>, failed: seq<string>)
    /** No user was updated. */
    | NoneUpdated(failed: seq<string>)
    | NoValidUsers

  function Names(rs: seq<Resolution>): (ns: seq<string>)
    ensures |ns| == |rs| && forall i :: 0 <= i < |rs| ==> ns[i] == rs[i].username
  {
    seq(|rs|, i requires 0 <= i < |rs| => rs[i].username)
  }

  /** The Roblox ids of resolved lookups. */
  function IdsOf(rs: seq<Resolution>): (ids: seq<int>)
    requires forall i :: 0 <= i < |rs| ==> rs[i].robloxId.Some?
    ensures |ids| == |rs| && forall i :: 0 <= i < |rs| ==> ids[i] == rs[i].robloxId.value
  {
    seq(|rs|, i requires 0 <= i < |rs| => rs[i].robloxId.value)
  }

  /** The reply the command builds from the two lists. */
  function ReplyFor(rs: seq<Resolution>): Reply {
    var ok := SuccessfulUsers(rs);
    var failed := FailedUsers(rs);
    if |ok| > 0 then Updated(Names(ok), Names(failed))
    else if |failed| > 0 then NoneUpdated(Names(failed))
    else NoValidUsers
  }

  /** The "no valid users" reply cannot happen: splitting yields at least one
      name, and each name lands in one of the lists. */
  lemma NoValidUsersIsUnreachable(input: string, ids: map<string, int>)
    ensures ReplyFor(Resolve(SplitTrim(input), ids)) != NoValidUsers
  {
    UsersArePartitioned(Resolve(SplitTrim(input), ids));
  }

  /** The loop over the successful users, one update at a time. */
  method UpdateEach(store: PointsStore, targets: seq<int>, amount: int, sub: Subcommand)
    modifies store
    ensures store.points == UpdateAll(old(store.points), targets, amount, sub)
  {
    for i := 0 to |targets|
      invariant store.points == UpdateAll(old(store.points), targets[..i], amount, sub)
    {
      assert targets[..i + 1][..i] == targets[..i];
      store.Update(targets[i], amount, sub);
    }
    assert targets[..|targets|] == targets;
  }

  /** `/points add|remove`. `callerRoles` are the caller's roles, `pointsIds` the
      configured points roles, and `ids` the usernames the Roblox API resolves. */
  method Execute(store: PointsStore, sub: Subcommand, input: string, amount: int,
                 pointsIds: seq<Id>, callerRoles: set<Id>, ids: map<string, int>)
    returns (reply: Reply)
    modifies store
    ensures !HasAnyRole(pointsIds, callerRoles) ==> reply == NoPermission && store.points == old(store.points)
    ensures HasAnyRole(pointsIds, callerRoles) && |SplitTrim(input)| > MaxUsernames ==>
              reply == TooManyUsernames && store.points == old(store.points)
    ensures HasAnyRole(pointsIds, callerRoles) && |SplitTrim(input)| <= MaxUsernames && amount <= 0 ==>
              reply == AmountNotPositive && store.points == old(store.points)
    ensures HasAnyRole(pointsIds, callerRoles) && |SplitTrim(input)| <= MaxUsernames && amount > 0 ==>
              var rs := Resolve(SplitTrim(input), ids);
              reply == ReplyFor(rs) &&
              store.points == UpdateAll(old(store.points), IdsOf(SuccessfulUsers(rs)), amount, sub)
  {
    var usernames := SplitTrim(input);
    if !HasAnyRole(pointsIds, callerRoles) {
      return NoPermission;
    }
    if |usernames| > MaxUsernames {
      return TooManyUsernames;
    }
    if amount <= 0 {
      return AmountNotPositive;
    }
    var rs := Resolve(usernames, ids);
    var successful := SuccessfulUsers(rs);
    UpdateEach(store, IdsOf(successful), amount, sub);
    reply := ReplyFor(rs);
  }
}
