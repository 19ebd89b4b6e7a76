/** The `/setup view|add|remove` command over the bot's configuration file: two
    channel ids (the log channel and the verification log) and four role-id
    lists (verified, ban permission, points permission, owner), of which all but
    the owner list can be edited. */
module Setup {
  import opened Common

  /** The configuration file's content. */
  datatype Config = Config(
    logChannel: string,
    verificationLog: string,
    verifiedRoleId: seq<Id>,
    banPermId: seq<Id>,
    pointsId: seq<Id>,
    ownerId: seq<Id>)

  /** The `type` option's choices. */
  datatype Field = LogChannel | VerificationLog | VerifiedRoleId | BanPermId | PointsId

  predicate IsChannel(f: Field) {
    f == LogChannel || f == VerificationLog
  }

  /** The role list a role field names. */
  function RoleList(c: Config, f: Field): seq<Id>
    requires !IsChannel(f)
  {
    match f
    case VerifiedRoleId => c.verifiedRoleId
    case BanPermId => c.banPermId
    case PointsId => c.pointsId
  }

  /** The channel id a channel field names. */
  function Channel(c: Config, f: Field): string
    requires IsChannel(f)
  {
    if f == LogChannel then c.logChannel else c.verificationLog
  }

  /** The configuration with one field replaced. */
  function WithChannel(c: Config, f: Field, id: string): Config
    requires IsChannel(f)
  {
    if f == LogChannel then c.(logChannel := id) else c.(verificationLog := id)
  }

  function WithRoleList(c: Config, f: Field, ids: seq<Id>): Config
    requires !IsChannel(f)
  {
    match f
    case VerifiedRoleId => c.(verifiedRoleId := ids)
    case BanPermId => c.(banPermId := ids)
    case PointsId => c.(pointsId := ids)
  }

  /** Every field other than `f` holds the same value in both configurations. */
  predicate SameExcept(c: Config, d: Config, f: Field) {
    (f != LogChannel ==> c.logChannel == d.logChannel) &&
    (f != VerificationLog ==> c.verificationLog == d.verificationLog) &&
    (f != VerifiedRoleId ==> c.verifiedRoleId == d.verifiedRoleId) &&
    (f != BanPermId ==> c.banPermId == d.banPermId) &&
    (f != PointsId ==> c.pointsId == d.pointsId) &&
    c.ownerId == d.ownerId
  }

  /** The index of the first occurrence of `x` in `s`, or `|s|` when there is none. */
  function FirstIndex(s: seq<Id>, x: Id): (i: nat)
    ensures i <= |s| && x !in s[..i]
    ensures i < |s| <==> x in s
    ensures i < |s| ==> s[i] == x
    decreases |s|
  {
    if s == [] then 0
    else if s[0] == x then 0
    else
      var j := FirstIndex(s[1..], x);
      assert s[..j + 1] == [s[0]] + s[1..][..j];
      assert j < |s[1..]| ==> s[1..][j] == s[j + 1];
      assert x in s[1..] ==> x in s;
      j + 1
  }

  /** `indexOf` followed by `splice(index, 1)`: the first occurrence of `x` is
      deleted, and a list without `x` is left as it is. */
  function RemoveFirst(s: seq<Id>, x: Id): (r: seq<Id>)
    ensures x !in s ==> r == s
    ensures x in s ==> |r| == |s| - 1
  {
    var i := FirstIndex(s, x);
    if i < |s| then s[..i] + s[i + 1..] else s
  }

  /** Removing deletes exactly one copy of the id when there is one. */
  lemma RemoveFirstMultiset(s: seq<Id>, x: Id)
    ensures multiset(RemoveFirst(s, x)) == multiset(s) - multiset{x}
  {
    var i := FirstIndex(s, x);
    if i < |s| {
      assert s == s[..i] + [x] + s[i + 1..];
    }
  }

  /** `setup add`: a channel id is overwritten; a role id is pushed onto its list,
      duplicates included. */
  function AddId(c: Config, f: Field, id: Id): (d: Config)
    ensures SameExcept(c, d, f)
    ensures IsChannel(f) ==> Channel(d, f) == id
    ensures !IsChannel(f) ==> RoleList(d, f) == RoleList(c, f) + [id]
  {
    if IsChannel(f) then WithChannel(c, f, id) else WithRoleList(c, f, RoleList(c, f) + [id])
  }

  /** `setup remove`: a channel id is cleared whatever id is given; a role id loses
      its first occurrence. */
  function RemoveId(c: Config, f: Field, id: Id): (d: Config)
    ensures SameExcept(c, d, f)
    ensures IsChannel(f) ==> Channel(d, f) == ""
    ensures !IsChannel(f) ==> RoleList(d, f) == RemoveFirst(RoleList(c, f), id)
  {
    if IsChannel(f) then WithChannel(c, f, "") else WithRoleList(c, f, RemoveFirst(RoleList(c, f), id))
  }

  /** Appending an id and removing its first occurrence gives the list back as a
      multiset, and exactly when the id was not on the list before. */
  lemma AppendThenRemove(s: seq<Id>, id: Id)
    ensures multiset(RemoveFirst(s + [id], id)) == multiset(s)
    ensures id !in s ==> RemoveFirst(s + [id], id) == s
  {
    RemoveFirstMultiset(s + [id], id);
    if id !in s {
      assert (s + [id])[..|s|] == s;
      assert FirstIndex(s + [id], id) == |s|;
    }
  }

  /** Two configurations that agree outside a role field and on that field are equal. */
  lemma SameRoleListSameConfig(c: Config, d: Config, f: Field)
    requires !IsChannel(f) && SameExcept(c, d, f) && RoleList(c, f) == RoleList(d, f)
    ensures c == d
  {
  }

  /** Adding a role id and then removing it gives the list back as a multiset,
      and the whole configuration back when the id was not on the list before. */
  lemma AddThenRemoveRole(c: Config, f: Field, id: Id)
    requires !IsChannel(f)
    ensures multiset(RoleList(RemoveId(AddId(c, f, id), f, id), f)) == multiset(RoleList(c, f))
    ensures id !in RoleList(c, f) ==> RemoveId(AddId(c, f, id), f, id) == c
  {
    var added := AddId(c, f, id);
    var back := RemoveId(added, f, id);
    assert RoleList(back, f) == RemoveFirst(RoleList(c, f) + [id], id);
    AppendThenRemove(RoleList(c, f), id);
    if id !in RoleList(c, f) {
      assert SameExcept(c, back, f);
      SameRoleListSameConfig(c, back, f);
    }
  }

  /** One displayed value: `None` renders as "Not Set". */
  datatype Shown = NotSet | ChannelId(id: string) | Roles(ids: seq<Id>)

  datatype View = View(logChannel: Shown, verificationLog: Shown, verifiedRoleId: Shown,
                       banPermId: Shown, pointsId: Shown, ownerId: seq<Id>)

  /** `value || 'Not Set'` for a channel id: the empty string is falsy. */
  function ShowChannel(id: string): Shown {
    if id == "" then NotSet else ChannelId(id)
  }

  /** `list.length ? ... : 'Not Set'` for a role list. */
  function ShowRoles(ids: seq<Id>): Shown {
    if |ids| == 0 then NotSet else Roles(ids)
  }

  /** The displayed value of an editable field. */
  function FieldShown(v: View, f: Field): Shown {
    match f
    case LogChannel => v.logChannel
    case VerificationLog => v.verificationLog
    case VerifiedRoleId => v.verifiedRoleId
    case BanPermId => v.banPermId
    case PointsId => v.pointsId
  }

  /** The field holds nothing: an empty channel id or an empty role list. */
  predicate Unset(c: Config, f: Field) {
    if IsChannel(f) then Channel(c, f) == "" else RoleList(c, f) == []
  }

  /** `setup view`: every editable field shows "Not Set" exactly when it holds
      nothing, and otherwise shows its own channel id or role list. The owner
      list is shown as it is, even when empty. */
  function ViewOf(c: Config): (v: View)
    ensures forall f :: FieldShown(v, f) == NotSet <==> Unset(c, f)
    ensures forall f :: IsChannel(f) && !Unset(c, f) ==> FieldShown(v, f) == ChannelId(Channel(c, f))
    ensures forall f :: !IsChannel(f) && !Unset(c, f) ==> FieldShown(v, f) == Roles(RoleList(c, f))
    ensures v.ownerId == c.ownerId
  {
    View(ShowChannel(c.logChannel), ShowChannel(c.verificationLog), ShowRoles(c.verifiedRoleId),
         ShowRoles(c.banPermId), ShowRoles(c.pointsId), c.ownerId)
  }

  /** After `setup add`, the view shows the named field as set: a role list is
      never "Not Set" again, and a channel shows the new id unless it is empty.
      Every other field is displayed as before. */
  lemma AddIdShown(c: Config, f: Field, id: Id)
    ensures !IsChannel(f) ==> FieldShown(ViewOf(AddId(c, f, id)), f) == Roles(RoleList(c, f) + [id])
    ensures IsChannel(f) ==> (FieldShown(ViewOf(AddId(c, f, id)), f) == NotSet <==> id == "")
    ensures IsChannel(f) && id != "" ==> FieldShown(ViewOf(AddId(c, f, id)), f) == ChannelId(id)
    ensures forall g :: g != f ==> FieldShown(ViewOf(AddId(c, f, id)), g) == FieldShown(ViewOf(c), g)
    ensures ViewOf(AddId(c, f, id)).ownerId == c.ownerId
  {
    SameExceptShown(c, AddId(c, f, id), f);
  }

  /** Removing the first occurrence empties a list exactly when it was empty or
      held only that id. */
  lemma RemoveFirstEmpties(s: seq<Id>, id: Id)
    ensures RemoveFirst(s, id) == [] <==> s == [] || s == [id]
  {
    if s == [id] {
      assert FirstIndex(s, id) == 0;
    }
    if RemoveFirst(s, id) == [] && s != [] {
      assert id in s;
      assert s == [s[0]];
    }
  }

  /** Fields that hold the same value display the same. */
  lemma SameExceptShown(c: Config, d: Config, f: Field)
    requires SameExcept(c, d, f)
    ensures forall g :: g != f ==> FieldShown(ViewOf(d), g) == FieldShown(ViewOf(c), g)
  {
    forall g | g != f
      ensures FieldShown(ViewOf(d), g) == FieldShown(ViewOf(c), g)
    {
      assert Unset(d, g) == Unset(c, g);
    }
  }

  /** After `setup remove`, a channel shows "Not Set" whatever id was given, and
      a role list shows "Not Set" exactly when it was empty or held only that
      id. Every other field is displayed as before. */
  lemma RemoveIdShown(c: Config, f: Field, id: Id)
    ensures IsChannel(f) ==> FieldShown(ViewOf(RemoveId(c, f, id)), f) == NotSet
    ensures !IsChannel(f) ==>
              (FieldShown(ViewOf(RemoveId(c, f, id)), f) == NotSet <==>
               RoleList(c, f) == [] || RoleList(c, f) == [id])
    ensures forall g :: g != f ==> FieldShown(ViewOf(RemoveId(c, f, id)), g) == FieldShown(ViewOf(c), g)
  {
    if !IsChannel(f) {
      RemoveFirstEmpties(RoleList(c, f), id);
    }
    SameExceptShown(c, RemoveId(c, f, id), f);
  }

  /** The configuration file. */
  class ConfigFile {
    var content: Config

    constructor (content: Config)
      ensures this.content == content
    {
      this.content := content;
    }

    /** `setup add`: assignment or `push` on the loaded object, then write back. */
    method Add(f: Field, id: Id)
      modifies this
      ensures content == AddId(old(content), f, id)
    {
      match f
      case LogChannel => content := content.(logChannel := id);
      case VerificationLog => content := content.(verificationLog := id);
      case VerifiedRoleId => content := content.(verifiedRoleId := content.verifiedRoleId + [id]);
      case BanPermId => content := content.(banPermId := content.banPermId + [id]);
      case PointsId => content := content.(pointsId := content.pointsId + [id]);
    }

    /** `setup remove`: clear the channel, or `splice` out the first occurrence
        found by `indexOf`. */
    method Remove(f: Field, id: Id)
      modifies this
      ensures content == RemoveId(old(content), f, id)
    {
      if IsChannel(f) {
        content := WithChannel(content, f, "");
      } else {
        var list := RoleList(content, f);
        var index := IndexOfId(list, id);
        if index > -1 {
          list := list[..index] + list[index + 1..];
        }
        content := WithRoleList(content, f, list);
      }
    }
  }

  /** `Array.prototype.indexOf`: the first index holding `x`, or -1. */
  method IndexOfId(s: seq<Id>, x: Id) returns (index: int)
    ensures index == -1 <==> x !in s
    ensures index != -1 ==> index == FirstIndex(s, x)
  {
    index := 0;
    while index < |s| && s[index] != x
      invariant 0 <= index <= |s|
      invariant index <= FirstIndex(s, x)
    {
      index := index + 1;
    }
    if index == |s| {
      index := -1;
    }
  }

  datatype Reply = NoPermission | Shows(view: View) | IdAdded | IdRemoved

  datatype Command = ViewCmd | AddCmd(f: Field, id: Id) | RemoveCmd(f: Field, id: Id)

  /** `/setup`: only holders of an owner role (read from the file itself) proceed. */
  method Execute(file: ConfigFile, callerRoles: set<Id>, cmd: Command) returns (reply: Reply)
    modifies file
    ensures !HasAnyRole(old(file.content.ownerId), callerRoles) ==> reply == NoPermission && file.content == old(file.content)
    ensures HasAnyRole(old(file.content.ownerId), callerRoles) ==>
              match cmd
              case ViewCmd => reply == Shows(ViewOf(old(file.content))) && file.content == old(file.content)
              case AddCmd(f, id) => reply == IdAdded && file.content == AddId(old(file.content), f, id)
              case RemoveCmd(f, id) => reply == IdRemoved && file.content == RemoveId(old(file.content), f, id)
  {
    if !HasAnyRole(file.content.ownerId, callerRoles) {
      return NoPermission;
    }
    match cmd
    case ViewCmd =>
      reply := Shows(ViewOf(file.content));
    case AddCmd(f, id) =>
      file.Add(f, id);
      reply := IdAdded;
    case RemoveCmd(f, id) =>
      file.Remove(f, id);
      reply := IdRemoved;
  }
}
