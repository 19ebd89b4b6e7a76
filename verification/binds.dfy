/** The `/bind` command and the binding collection it maintains. A binding maps
    a Roblox group rank, within one Discord server, to the Discord roles that
    rank grants. `add` merges role ids into the binding of a
    (group, server, rank) key or creates it, `remove` pulls role ids out of
    every binding of a (group, server) pair and drops the bindings left empty,
    or drops all of them, and `view` lists a group's roles, sorted by rank, on
    pages of eight with Back/Next buttons. */
module Binds {
  import opened Common

  datatype Binding = Binding(groupId: Id, serverId: Id, rankId: Id, roleIds: seq<Id>)

  /** The binding belongs to the group in the server. */
  predicate InGroup(b: Binding, groupId: Id, serverId: Id) {
    b.groupId == groupId && b.serverId == serverId
  }

  predicate HasKey(b: Binding, groupId: Id, serverId: Id, rankId: Id) {
    InGroup(b, groupId, serverId) && b.rankId == rankId
  }

  /** No two bindings share a (group, server, rank) key. */
  ghost predicate UniqueKeys(bs: seq<Binding>) {
    forall i, j :: 0 <= i < j < |bs| ==> !HasKey(bs[j], bs[i].groupId, bs[i].serverId, bs[i].rankId)
  }

  /** No binding has an empty role list. */
  ghost predicate NoEmptyLists(bs: seq<Binding>) {
    forall i :: 0 <= i < |bs| ==> bs[i].roleIds != []
  }

  /** The table invariant every command keeps. */
  ghost predicate TableOk(bs: seq<Binding>) {
    UniqueKeys(bs) && NoEmptyLists(bs)
  }

  /** `findOne({ groupId, serverId, robloxRankId })`: the first binding with the key. */
  function FindKey(bs: seq<Binding>, groupId: Id, serverId: Id, rankId: Id): (k: Option<nat>)
    ensures k.Some? ==> k.value < |bs| && HasKey(bs[k.value], groupId, serverId, rankId)
    ensures k.Some? ==> forall j :: 0 <= j < k.value ==> !HasKey(bs[j], groupId, serverId, rankId)
    ensures k.None? ==> forall j :: 0 <= j < |bs| ==> !HasKey(bs[j], groupId, serverId, rankId)
  {
    if bs == [] then None
    else if HasKey(bs[0], groupId, serverId, rankId) then Some(0)
    else
      var k := FindKey(bs[1..], groupId, serverId, rankId);
      if k.None? then None else Some(k.value + 1)
  }

  // ---------------------------------------------------------------------------
  // add
  // ---------------------------------------------------------------------------

  /** The table after `bind add`: an existing binding's list becomes
      `[...new Set([...old, ...ids])]`; otherwise a binding holding exactly `ids`
      is appended. */
  function AddBinding(bs: seq<Binding>, groupId: Id, serverId: Id, rankId: Id, ids: seq<Id>): (r: seq<Binding>)
    ensures var k := FindKey(bs, groupId, serverId, rankId);
            k.Some? ==> |r| == |bs| && r[k.value].roleIds == Dedup(bs[k.value].roleIds + ids) &&
                        r[k.value] == bs[k.value].(roleIds := r[k.value].roleIds) &&
                        forall j :: 0 <= j < |bs| && j != k.value ==> r[j] == bs[j]
    ensures FindKey(bs, groupId, serverId, rankId).None? ==>
              r == bs + [Binding(groupId, serverId, rankId, ids)]
  {
    var k := FindKey(bs, groupId, serverId, rankId);
    if k.Some? then
      bs[k.value := bs[k.value].(roleIds := Dedup(bs[k.value].roleIds + ids))]
    else
      bs + [Binding(groupId, serverId, rankId, ids)]
  }

  /** `bind add` never creates a second binding for a key, and never leaves a
      binding without roles when it is given at least one id (the parsed input
      always has at least one piece). */
  lemma AddKeepsTable(bs: seq<Binding>, groupId: Id, serverId: Id, rankId: Id, ids: seq<Id>)
    requires TableOk(bs) && ids != []
    ensures TableOk(AddBinding(bs, groupId, serverId, rankId, ids))
    ensures exists i :: 0 <= i < |AddBinding(bs, groupId, serverId, rankId, ids)| &&
                        HasKey(AddBinding(bs, groupId, serverId, rankId, ids)[i], groupId, serverId, rankId)
  {
    var r := AddBinding(bs, groupId, serverId, rankId, ids);
    var k := FindKey(bs, groupId, serverId, rankId);
    if k.Some? {
      var merged := bs[k.value].roleIds + ids;
      assert ids[0] in Elems(Dedup(merged)) by { assert merged[|bs[k.value].roleIds|] == ids[0]; }
      assert HasKey(r[k.value], groupId, serverId, rankId);
    } else {
      assert HasKey(r[|bs|], groupId, serverId, rankId);
    }
  }

  /** Merging into a duplicate-free list keeps the old ids first, in their
      order, followed by the new ids not already present, and stays duplicate-free. */
  lemma AddMergeOrder(bs: seq<Binding>, groupId: Id, serverId: Id, rankId: Id, ids: seq<Id>)
    requires FindKey(bs, groupId, serverId, rankId).Some?
    requires NoDups(bs[FindKey(bs, groupId, serverId, rankId).value].roleIds)
    ensures var k := FindKey(bs, groupId, serverId, rankId).value;
            var merged := AddBinding(bs, groupId, serverId, rankId, ids)[k].roleIds;
            merged == AddAll(bs[k].roleIds, ids) &&
            merged[..|bs[k].roleIds|] == bs[k].roleIds && NoDups(merged) &&
            Elems(merged) == Elems(bs[k].roleIds) + Elems(ids)
  {
    var k := FindKey(bs, groupId, serverId, rankId).value;
    UnionKeepsOldOrder(bs[k].roleIds, ids);
  }

  // ---------------------------------------------------------------------------
  // remove
  // ---------------------------------------------------------------------------

  /** The bindings that are not of the group in the server, in table order. */
  function Others(bs: seq<Binding>, groupId: Id, serverId: Id): (r: seq<Binding>)
    ensures forall b :: b in r <==> b in bs && !InGroup(b, groupId, serverId)
  {
    if bs == [] then []
    else if InGroup(bs[0], groupId, serverId) then Others(bs[1..], groupId, serverId)
    else [bs[0]] + Others(bs[1..], groupId, serverId)
  }

  /** `ids` with every element of `gone` removed (MongoDB's `$pull` with `$in`). */
  function Without(ids: seq<Id>, gone: seq<Id>): (r: seq<Id>)
    ensures forall x :: x in r <==> x in ids && x !in gone
  {
    if ids == [] then []
    else if ids[0] in gone then Without(ids[1..], gone)
    else [ids[0]] + Without(ids[1..], gone)
  }

  /** `updateMany({ groupId, serverId }, { $pull: ... })`. */
  function PullRoles(bs: seq<Binding>, groupId: Id, serverId: Id, gone: seq<Id>): (r: seq<Binding>)
    ensures |r| == |bs|
    ensures forall i :: 0 <= i < |bs| ==> r[i] == (if InGroup(bs[i], groupId, serverId)
                                                    then bs[i].(roleIds := Without(bs[i].roleIds, gone))
                                                    else bs[i])
  {
    if bs == [] then []
    else
      [if InGroup(bs[0], groupId, serverId) then bs[0].(roleIds := Without(bs[0].roleIds, gone)) else bs[0]]
      + PullRoles(bs[1..], groupId, serverId, gone)
  }

  /** `deleteMany({ groupId, serverId, discordRoleIds: { $size: 0 } })`. */
  function DropEmpty(bs: seq<Binding>, groupId: Id, serverId: Id): (r: seq<Binding>)
    ensures forall b :: b in r <==> b in bs && !(InGroup(b, groupId, serverId) && b.roleIds == [])
  {
    if bs == [] then []
    else if InGroup(bs[0], groupId, serverId) && bs[0].roleIds == [] then DropEmpty(bs[1..], groupId, serverId)
    else [bs[0]] + DropEmpty(bs[1..], groupId, serverId)
  }

  /** `bind remove` with a list of role ids. */
  function RemoveRoles(bs: seq<Binding>, groupId: Id, serverId: Id, gone: seq<Id>): seq<Binding> {
    DropEmpty(PullRoles(bs, groupId, serverId, gone), groupId, serverId)
  }

  /** `bind remove` without a list: `deleteMany({ groupId, serverId })`. */
  function RemoveGroup(bs: seq<Binding>, groupId: Id, serverId: Id): (r: seq<Binding>)
    ensures forall b :: b in r ==> !InGroup(b, groupId, serverId)
    ensures r == Others(bs, groupId, serverId)
  {
    Others(bs, groupId, serverId)
  }

  /** Pulling then dropping leaves the group's bindings without any listed id and
      without an empty list, and leaves every other binding where it was. */
  lemma {:induction false} RemoveRolesEffect(bs: seq<Binding>, groupId: Id, serverId: Id, gone: seq<Id>)
    ensures var r := RemoveRoles(bs, groupId, serverId, gone);
            forall b :: b in r && InGroup(b, groupId, serverId) ==>
              b.roleIds != [] && forall x :: x in gone ==> x !in b.roleIds
    ensures Others(RemoveRoles(bs, groupId, serverId, gone), groupId, serverId) == Others(bs, groupId, serverId)
    decreases |bs|
  {
    if bs != [] {
      RemoveRolesEffect(bs[1..], groupId, serverId, gone);
      var p := PullRoles(bs, groupId, serverId, gone);
      assert p[1..] == PullRoles(bs[1..], groupId, serverId, gone);
    }
  }

  /** A filter keeps keys unique. */
  lemma {:induction false} OthersUnique(bs: seq<Binding>, groupId: Id, serverId: Id)
    requires UniqueKeys(bs)
    ensures UniqueKeys(Others(bs, groupId, serverId))
    decreases |bs|
  {
    if bs != [] {
      OthersUnique(bs[1..], groupId, serverId);
      var rest := Others(bs[1..], groupId, serverId);
      if !InGroup(bs[0], groupId, serverId) {
        var r := [bs[0]] + rest;
        forall i, j | 0 <= i < j < |r|
          ensures !HasKey(r[j], r[i].groupId, r[i].serverId, r[i].rankId)
        {
          if i == 0 {
            assert r[j] in bs[1..];
            var m :| 0 <= m < |bs[1..]| && bs[1..][m] == r[j];
            assert bs[m + 1] == r[j];
          } else {
            assert r[i] == rest[i - 1] && r[j] == rest[j - 1];
          }
        }
      }
    }
  }

  /** A binding whose key no later binding repeats can head a table with unique keys. */
  lemma ConsUnique(x: Binding, rest: seq<Binding>)
    requires UniqueKeys(rest)
    requires forall b :: b in rest ==> !HasKey(b, x.groupId, x.serverId, x.rankId)
    ensures UniqueKeys([x] + rest)
  {
    var r := [x] + rest;
    forall i, j | 0 <= i < j < |r|
      ensures !HasKey(r[j], r[i].groupId, r[i].serverId, r[i].rankId)
    {
      if i == 0 {
        assert r[j] == rest[j - 1] && r[j] in rest;
      } else {
        assert r[i] == rest[i - 1] && r[j] == rest[j - 1];
      }
    }
  }

  /** In a table with unique keys, no later binding repeats the first one's key. */
  lemma HeadKeyNotRepeated(bs: seq<Binding>)
    requires bs != [] && UniqueKeys(bs)
    ensures UniqueKeys(bs[1..])
    ensures forall b :: b in bs[1..] ==> !HasKey(b, bs[0].groupId, bs[0].serverId, bs[0].rankId)
  {
    forall b | b in bs[1..] ensures !HasKey(b, bs[0].groupId, bs[0].serverId, bs[0].rankId) {
      var m :| 0 <= m < |bs[1..]| && bs[1..][m] == b;
      assert bs[m + 1] == b;
    }
    forall i, j | 0 <= i < j < |bs[1..]|
      ensures !HasKey(bs[1..][j], bs[1..][i].groupId, bs[1..][i].serverId, bs[1..][i].rankId)
    {
      assert bs[1..][i] == bs[i + 1] && bs[1..][j] == bs[j + 1];
    }
  }

  lemma {:induction false} DropEmptyUnique(bs: seq<Binding>, groupId: Id, serverId: Id)
    requires UniqueKeys(bs)
    ensures UniqueKeys(DropEmpty(bs, groupId, serverId))
    decreases |bs|
  {
    if bs != [] {
      HeadKeyNotRepeated(bs);
      DropEmptyUnique(bs[1..], groupId, serverId);
      if !(InGroup(bs[0], groupId, serverId) && bs[0].roleIds == []) {
        ConsUnique(bs[0], DropEmpty(bs[1..], groupId, serverId));
      }
    }
  }


  /** Both forms of `bind remove` keep the table invariant. */
  lemma RemoveKeepsTable(bs: seq<Binding>, groupId: Id, serverId: Id, gone: seq<Id>)
    requires TableOk(bs)
    ensures TableOk(RemoveRoles(bs, groupId, serverId, gone))
    ensures TableOk(RemoveGroup(bs, groupId, serverId))
  {
    var p := PullRoles(bs, groupId, serverId, gone);
    assert UniqueKeys(p) by {
      forall i, j | 0 <= i < j < |p| ensures !HasKey(p[j], p[i].groupId, p[i].serverId, p[i].rankId) {
        assert !HasKey(bs[j], bs[i].groupId, bs[i].serverId, bs[i].rankId);
      }
    }
    DropEmptyUnique(p, groupId, serverId);
    OthersUnique(bs, groupId, serverId);
    var r := RemoveRoles(bs, groupId, serverId, gone);
    forall i | 0 <= i < |r| ensures r[i].roleIds != [] {
      assert r[i] in p;
      var m :| 0 <= m < |p| && p[m] == r[i];
      if !InGroup(bs[m], groupId, serverId) {
        assert p[m] == bs[m];
      }
    }
    var o := RemoveGroup(bs, groupId, serverId);
    forall i | 0 <= i < |o| ensures o[i].roleIds != [] {
      assert o[i] in bs;
    }
  }

  // ---------------------------------------------------------------------------
  // view
  // ---------------------------------------------------------------------------

  /** A role of a Roblox group as the groups API lists it (`id` as a string). */
  datatype GroupRole = GroupRole(id: Id, name: string, rank: int)

  const ItemsPerPage: nat := 8

  ghost predicate SortedByRank(s: seq<GroupRole>) {
    forall i, j :: 0 <= i < j < |s| ==> s[i].rank <= s[j].rank
  }

  /** Inserts `x` before the first element whose rank is not lower, so that `x`
      precedes the roles of equal rank that follow it. */
  function InsertByRank(x: GroupRole, s: seq<GroupRole>): (r: seq<GroupRole>)
    ensures multiset(r) == multiset(s) + multiset{x}
    ensures |r| == |s| + 1
  {
    if s == [] || x.rank <= s[0].rank then
      [x] + s
    else
      assert s == [s[0]] + s[1..];
      [s[0]] + InsertByRank(x, s[1..])
  }

  /** Inserting into a sorted list keeps it sorted. */
  lemma {:induction false} InsertKeepsSorted(x: GroupRole, s: seq<GroupRole>)
    requires SortedByRank(s)
    ensures SortedByRank(InsertByRank(x, s))
    decreases |s|
  {
    if s != [] && x.rank > s[0].rank {
      var rest := InsertByRank(x, s[1..]);
      InsertKeepsSorted(x, s[1..]);
      HeadIsLeast(s);
      forall y | y in rest ensures s[0].rank <= y.rank {
        assert y in multiset(rest);
      }
      ConsSorted(s[0], rest);
    }
  }

  /** The head of a sorted list has the least rank. */
  lemma HeadIsLeast(s: seq<GroupRole>)
    requires s != [] && SortedByRank(s)
    ensures SortedByRank(s[1..])
    ensures forall y :: y in s[1..] ==> s[0].rank <= y.rank
  {
    forall y | y in s[1..] ensures s[0].rank <= y.rank {
      var k :| 0 <= k < |s[1..]| && s[1..][k] == y;
      assert s[k + 1] == y;
    }
  }

  /** A role ranked no higher than any of a sorted list can head it. */
  lemma ConsSorted(h: GroupRole, rest: seq<GroupRole>)
    requires SortedByRank(rest)
    requires forall y :: y in rest ==> h.rank <= y.rank
    ensures SortedByRank([h] + rest)
  {
    var r := [h] + rest;
    forall i, j | 0 <= i < j < |r| ensures r[i].rank <= r[j].rank {
      if i == 0 {
        assert r[j] == rest[j - 1] && r[j] in rest;
      } else {
        assert r[i] == rest[i - 1] && r[j] == rest[j - 1];
      }
    }
  }


  /** `roles.sort((a, b) => a.rank - b.rank)`: a permutation of the roles in
      ascending rank order. */
  function SortByRank(s: seq<GroupRole>): (r: seq<GroupRole>)
    ensures multiset(r) == multiset(s) && |r| == |s|
    ensures SortedByRank(r)
  {
    if s == [] then []
    else
      assert s == [s[0]] + s[1..];
      InsertKeepsSorted(s[0], SortByRank(s[1..]));
      InsertByRank(s[0], SortByRank(s[1..]))
  }

  /** The pages laid end to end. */
  function Concat(pages: seq<seq<GroupRole>>): seq<GroupRole> {
    if pages == [] then [] else Concat(pages[..|pages| - 1]) + pages[|pages| - 1]
  }

  /** The end of page `k` of `n` roles: eight roles on, or the end of the list. */
  function PageEnd(n: nat, k: nat): nat {
    if ItemsPerPage * k + ItemsPerPage < n then ItemsPerPage * k + ItemsPerPage else n
  }

  /** Page `k` of the `n` roles holds the roles from `8k` up to its end. */
  ghost predicate PagesOf(roles: seq<GroupRole>, pages: seq<seq<GroupRole>>) {
    forall k :: 0 <= k < |pages| ==>
      ItemsPerPage * k < |roles| && pages[k] == roles[ItemsPerPage * k..PageEnd(|roles|, k)]
  }

  /** The first `m` pages laid end to end are the roles before `8m`. */
  lemma {:induction false} ConcatPages(roles: seq<GroupRole>, pages: seq<seq<GroupRole>>, m: nat)
    requires PagesOf(roles, pages) && m <= |pages|
    ensures Concat(pages[..m]) == roles[..if ItemsPerPage * m < |roles| then ItemsPerPage * m else |roles|]
    decreases m
  {
    if m > 0 {
      ConcatPages(roles, pages, m - 1);
      assert pages[..m][..m - 1] == pages[..m - 1];
      var lo := ItemsPerPage * (m - 1);
      var hi := PageEnd(|roles|, m - 1);
      assert roles[..hi] == roles[..lo] + roles[lo..hi];
    }
  }

  /** Pages cut this way that reach the end of the roles are all full but the
      last, none is empty, and there are `n / 8` of them rounded up. */
  lemma PageSizes(roles: seq<GroupRole>, pages: seq<seq<GroupRole>>)
    requires PagesOf(roles, pages) && ItemsPerPage * |pages| >= |roles|
    ensures forall i :: 0 <= i < |pages| ==> 1 <= |pages[i]| <= ItemsPerPage
    ensures forall i :: 0 <= i < |pages| - 1 ==> |pages[i]| == ItemsPerPage
    ensures |pages| == (|roles| + ItemsPerPage - 1) / ItemsPerPage
    ensures |pages| == 1 <==> 1 <= |roles| <= ItemsPerPage
  {
    var n := |roles|;
    var p := |pages|;
    if p > 0 {
      assert ItemsPerPage * (p - 1) < n;
    }
    forall i | 0 <= i < p - 1 ensures |pages[i]| == ItemsPerPage {
      assert ItemsPerPage * (i + 1) < n by {
        assert ItemsPerPage * (i + 1) <= ItemsPerPage * (p - 1);
      }
    }
  }

  /** The loop that builds the pages: `roles.slice(i, i + 8)` for i = 0, 8, 16, ...
      The pages cover all roles in order; each holds one to eight roles, and all
      but the last hold exactly eight. */
  method Paginate(roles: seq<GroupRole>) returns (pages: seq<seq<GroupRole>>)
    ensures Concat(pages) == roles
    ensures forall i :: 0 <= i < |pages| ==> 1 <= |pages[i]| <= ItemsPerPage
    ensures forall i :: 0 <= i < |pages| - 1 ==> |pages[i]| == ItemsPerPage
    ensures |pages| == (|roles| + ItemsPerPage - 1) / ItemsPerPage
    ensures |pages| == 1 <==> 1 <= |roles| <= ItemsPerPage
    ensures PagesOf(roles, pages)
  {
    var n := |roles|;
    pages := [];
    var i := 0;
    while i < n
      invariant i == ItemsPerPage * |pages|
      invariant PagesOf(roles, pages)
    {
      var end := if i + ItemsPerPage < n then i + ItemsPerPage else n;
      assert end == PageEnd(n, |pages|);
      pages := pages + [roles[i..end]];
      i := i + ItemsPerPage;
    }
    PageSizes(roles, pages);
    ConcatPages(roles, pages, |pages|);
    assert pages[..|pages|] == pages;
  }

  /** The pager's buttons. */
  datatype PagerButton = Back | Next

  /** Back is disabled on the first page, Next on the last. */
  predicate Enabled(page: int, count: nat, b: PagerButton) {
    if b == Back then page != 0 else page != count - 1
  }

  /** `currentPage` after the clicks; a disabled button delivers no click. */
  function Navigate(page: int, count: nat, clicks: seq<PagerButton>): int
    decreases clicks
  {
    if clicks == [] then page
    else if !Enabled(page, count, clicks[0]) then Navigate(page, count, clicks[1..])
    else Navigate(if clicks[0] == Next then page + 1 else page - 1, count, clicks[1..])
  }

  /** With two or more pages, the pager starting on the first page can never leave
      the pages, whatever the clicks. */
  lemma {:induction false} NavigateStaysOnPages(page: int, count: nat, clicks: seq<PagerButton>)
    requires count >= 2 && 0 <= page < count
    ensures 0 <= Navigate(page, count, clicks) < count
    decreases |clicks|
  {
    if clicks != [] {
      if !Enabled(page, count, clicks[0]) {
        NavigateStaysOnPages(page, count, clicks[1..]);
      } else {
        NavigateStaysOnPages(if clicks[0] == Next then page + 1 else page - 1, count, clicks[1..]);
      }
    }
  }

  /** The Discord roles bound to a Roblox role on the page: those of the first
      binding of the group whose rank id is the role's id. */
  function BoundRolesOf(role: GroupRole, bs: seq<Binding>): (r: Option<seq<Id>>)
    ensures r.Some? <==> exists i :: 0 <= i < |bs| && bs[i].rankId == role.id
    ensures r.Some? ==> exists i :: 0 <= i < |bs| && bs[i].rankId == role.id && bs[i].roleIds == r.value &&
                                     forall j :: 0 <= j < i ==> bs[j].rankId != role.id
  {
    if bs == [] then None
    else if bs[0].rankId == role.id then Some(bs[0].roleIds)
    else
      var r := BoundRolesOf(role, bs[1..]);
      if r.Some? then
        assert exists i :: 0 <= i < |bs| && bs[i].rankId == role.id && bs[i].roleIds == r.value &&
                           forall j :: 0 <= j < i ==> bs[j].rankId != role.id by {
          var i :| 0 <= i < |bs[1..]| && bs[1..][i].rankId == role.id && bs[1..][i].roleIds == r.value &&
                   forall j :: 0 <= j < i ==> bs[1..][j].rankId != role.id;
          assert bs[i + 1] == bs[1..][i];
          assert forall j :: 1 <= j < i + 1 ==> bs[j] == bs[1..][j - 1];
        }
        r
      else
        assert forall i :: 1 <= i < |bs| ==> bs[i] == bs[1..][i - 1];
        r
  }

  /** One page line: a Roblox role with its bound Discord roles (`None` shows "None"). */
  datatype Line = Line(role: GroupRole, bound: Option<seq<Id>>)

  /** The line shown for a role: the roles bound to it by the group's bindings
      in the server. */
  function LineOf(role: GroupRole, bs: seq<Binding>, groupId: Id, serverId: Id): Line {
    Line(role, BoundRolesOf(role, InGroupOf(bs, groupId, serverId)))
  }

  // ---------------------------------------------------------------------------
  // The command
  // ---------------------------------------------------------------------------

  datatype Reply =
    | NoPermission
    | ConfigIncomplete
    | Added(ids: seq<Id>)
    | RemovedRoles(ids: seq<Id>)
    | RemovedAll
    | ViewFailed
    | SinglePage(lines: seq<Line>)
    | Paged(pages: seq<seq<Line>>)

  /** The binding collection. */
  class BindingTable {
    var bindings: seq<Binding>

    ghost predicate Valid()
      reads this
    {
      TableOk(bindings)
    }

    constructor ()
      ensures Valid() && bindings == []
    {
      bindings := [];
    }

    /** `bind add groupid roleid discordroleids`. */
    method Add(groupId: Id, serverId: Id, rankId: Id, input: string) returns (reply: Reply)
      requires Valid()
      modifies this
      ensures Valid()
      ensures bindings == AddBinding(old(bindings), groupId, serverId, rankId, SplitTrim(input))
      ensures reply == Added(SplitTrim(input))
    {
      var ids := SplitTrim(input);
      AddKeepsTable(bindings, groupId, serverId, rankId, ids);
      bindings := AddBinding(bindings, groupId, serverId, rankId, ids);
      reply := Added(ids);
    }

    /** `bind remove groupid [discordroleids]`: an absent or empty list removes
        every binding of the group in the server. */
    method Remove(groupId: Id, serverId: Id, input: Option<string>) returns (reply: Reply)
      requires Valid()
      modifies this
      ensures Valid()
      ensures input.Some? && input.value != "" ==>
                bindings == RemoveRoles(old(bindings), groupId, serverId, SplitTrim(input.value)) &&
                reply == RemovedRoles(SplitTrim(input.value))
      ensures !(input.Some? && input.value != "") ==>
                bindings == RemoveGroup(old(bindings), groupId, serverId) && reply == RemovedAll
    {
      if input.Some? && input.value != "" {
        var ids := SplitTrim(input.value);
        RemoveKeepsTable(bindings, groupId, serverId, ids);
        bindings := RemoveRoles(bindings, groupId, serverId, ids);
        reply := RemovedRoles(ids);
      } else {
        RemoveKeepsTable(bindings, groupId, serverId, []);
        bindings := RemoveGroup(bindings, groupId, serverId);
        reply := RemovedAll;
      }
    }

    /** `bind view groupid`: `roles` is the groups API's answer (`None` when the
        request fails). Line q of page p shows the role at position 8p + q of the
        roles sorted by rank, with the Discord roles bound to it. */
    method View(groupId: Id, serverId: Id, roles: Option<seq<GroupRole>>) returns (reply: Reply)
      ensures roles.None? ==> reply == ViewFailed
      ensures roles.Some? ==> reply.SinglePage? || reply.Paged?
      ensures roles.Some? && reply.SinglePage? ==> SinglePageShows(SortByRank(roles.value), reply.lines, bindings, groupId, serverId)
      ensures roles.Some? && reply.Paged? ==> PagesShow(SortByRank(roles.value), reply.pages, bindings, groupId, serverId)
    {
      if roles.None? {
        return ViewFailed;
      }
      var sorted := SortByRank(roles.value);
      var pages := Paginate(sorted);
      var lines := LinesOf(pages, bindings, groupId, serverId);
      if |pages| == 1 {
        SinglePageView(sorted, pages, lines, bindings, groupId, serverId);
        reply := SinglePage(lines[0]);
      } else {
        PagedView(sorted, pages, lines, bindings, groupId, serverId);
        reply := Paged(lines);
      }
    }
  }

  /** The lines of each page. */
  function LinesOf(pages: seq<seq<GroupRole>>, bs: seq<Binding>, groupId: Id, serverId: Id): (lines: seq<seq<Line>>)
    ensures |lines| == |pages|
    ensures forall p :: 0 <= p < |pages| ==> |lines[p]| == |pages[p]|
    ensures forall p, q :: 0 <= p < |pages| && 0 <= q < |pages[p]| ==> lines[p][q] == LineOf(pages[p][q], bs, groupId, serverId)
  {
    seq(|pages|, p requires 0 <= p < |pages| =>
          seq(|pages[p]|, q requires 0 <= q < |pages[p]| => LineOf(pages[p][q], bs, groupId, serverId)))
  }

  /** A view that fits on one page: the lines of all the roles, in the given
      (sorted) order. */
  ghost predicate SinglePageShows(sorted: seq<GroupRole>, lines: seq<Line>, bs: seq<Binding>, groupId: Id, serverId: Id) {
    1 <= |sorted| <= ItemsPerPage && |lines| == |sorted| &&
    forall q :: 0 <= q < |lines| ==> lines[q] == LineOf(sorted[q], bs, groupId, serverId)
  }

  /** A paged view: n / 8 pages rounded up (never exactly one), each of one to
      eight lines, all full but the last, and line q of page p is the line of
      the role at position 8p + q of the (sorted) roles. */
  ghost predicate PagesShow(sorted: seq<GroupRole>, pages: seq<seq<Line>>, bs: seq<Binding>, groupId: Id, serverId: Id) {
    |pages| == (|sorted| + ItemsPerPage - 1) / ItemsPerPage && |pages| != 1 &&
    (forall p :: 0 <= p < |pages| ==> 1 <= |pages[p]| <= ItemsPerPage) &&
    (forall p :: 0 <= p < |pages| - 1 ==> |pages[p]| == ItemsPerPage) &&
    forall p, q :: 0 <= p < |pages| && 0 <= q < |pages[p]| ==>
      ItemsPerPage * p + q < |sorted| &&
      pages[p][q] == LineOf(sorted[ItemsPerPage * p + q], bs, groupId, serverId)
  }

  lemma SinglePageView(sorted: seq<GroupRole>, pages: seq<seq<GroupRole>>, lines: seq<seq<Line>>,
                       bs: seq<Binding>, groupId: Id, serverId: Id)
    requires PagesOf(sorted, pages) && |pages| == 1 && 1 <= |sorted| <= ItemsPerPage
    requires lines == LinesOf(pages, bs, groupId, serverId)
    ensures SinglePageShows(sorted, lines[0], bs, groupId, serverId)
  {
    assert PageEnd(|sorted|, 0) == |sorted|;
    assert pages[0] == sorted;
  }

  lemma PagedView(sorted: seq<GroupRole>, pages: seq<seq<GroupRole>>, lines: seq<seq<Line>>,
                  bs: seq<Binding>, groupId: Id, serverId: Id)
    requires PagesOf(sorted, pages) && |pages| != 1
    requires |pages| == (|sorted| + ItemsPerPage - 1) / ItemsPerPage
    requires forall i :: 0 <= i < |pages| ==> 1 <= |pages[i]| <= ItemsPerPage
    requires forall i :: 0 <= i < |pages| - 1 ==> |pages[i]| == ItemsPerPage
    requires lines == LinesOf(pages, bs, groupId, serverId)
    ensures PagesShow(sorted, lines, bs, groupId, serverId)
  {
    LinesFollowSortedRoles(sorted, pages, lines, bs, groupId, serverId);
  }

  /** Line q of page p is the line of the sorted role at position 8p + q. */
  lemma LinesFollowSortedRoles(sorted: seq<GroupRole>, pages: seq<seq<GroupRole>>, lines: seq<seq<Line>>,
                               bs: seq<Binding>, groupId: Id, serverId: Id)
    requires PagesOf(sorted, pages)
    requires lines == LinesOf(pages, bs, groupId, serverId)
    ensures forall p, q :: 0 <= p < |lines| && 0 <= q < |lines[p]| ==>
              ItemsPerPage * p + q < |sorted| &&
              lines[p][q] == LineOf(sorted[ItemsPerPage * p + q], bs, groupId, serverId)
  {
    forall p, q | 0 <= p < |lines| && 0 <= q < |lines[p]|
      ensures ItemsPerPage * p + q < |sorted| && lines[p][q] == LineOf(sorted[ItemsPerPage * p + q], bs, groupId, serverId)
    {
      assert pages[p][q] == sorted[ItemsPerPage * p + q];
    }
  }

  /** `find({ groupId, serverId })`: the bindings of the group in the server. */
  function InGroupOf(bs: seq<Binding>, groupId: Id, serverId: Id): (r: seq<Binding>)
    ensures forall b :: b in r <==> b in bs && InGroup(b, groupId, serverId)
  {
    if bs == [] then []
    else if InGroup(bs[0], groupId, serverId) then [bs[0]] + InGroupOf(bs[1..], groupId, serverId)
    else InGroupOf(bs[1..], groupId, serverId)
  }

  /** `/bind`: the owner check precedes the configuration check, and both
      precede any access to the table. */
  datatype Command =
    | ViewCmd(groupId: Id, roles: Option<seq<GroupRole>>)
    | AddCmd(groupId: Id, rankId: Id, input: string)
    | RemoveCmd(groupId: Id, list: Option<string>)

  method Execute(table: BindingTable, ownerIds: seq<Id>, callerRoles: set<Id>, configComplete: bool,
                 serverId: Id, cmd: Command) returns (reply: Reply)
    requires table.Valid()
    modifies table
    ensures table.Valid()
    ensures !HasAnyRole(ownerIds, callerRoles) ==> reply == NoPermission && table.bindings == old(table.bindings)
    ensures HasAnyRole(ownerIds, callerRoles) && !configComplete ==>
              reply == ConfigIncomplete && table.bindings == old(table.bindings)
    ensures cmd.ViewCmd? ==> table.bindings == old(table.bindings)
    ensures HasAnyRole(ownerIds, callerRoles) && configComplete && cmd.AddCmd? ==>
              table.bindings == AddBinding(old(table.bindings), cmd.groupId, serverId, cmd.rankId, SplitTrim(cmd.input))
    ensures HasAnyRole(ownerIds, callerRoles) && configComplete && cmd.RemoveCmd? ==>
              if cmd.list.Some? && cmd.list.value != ""
              then table.bindings == RemoveRoles(old(table.bindings), cmd.groupId, serverId, SplitTrim(cmd.list.value))
              else table.bindings == RemoveGroup(old(table.bindings), cmd.groupId, serverId)
  {
    if !HasAnyRole(ownerIds, callerRoles) {
      return NoPermission;
    }
    if !configComplete {
      return ConfigIncomplete;
    }
    match cmd
    case ViewCmd(groupId, roles) =>
      reply := table.View(groupId, serverId, roles);
    case AddCmd(groupId, rankId, input) =>
      reply := table.Add(groupId, serverId, rankId, input);
    case RemoveCmd(groupId, list) =>
      reply := table.Remove(groupId, serverId, list);
  }
}
