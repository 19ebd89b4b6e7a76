/** The `/group view|add|remove` command over the groups file, a JSON object
    from Roblox group id to `{ groupName }`. The file may be missing; adding to a
    missing file creates it. */
module Groups {
  import opened Common

  datatype GroupEntry = GroupEntry(groupName: string)

  /** The file's content, `None` while it does not exist. */
  type GroupsFileContent = Option<map<Id, GroupEntry>>

  /** The object the command works on: `{}` for a missing file. */
  function Loaded(file: GroupsFileContent): map<Id, GroupEntry> {
    if file.Some? then file.value else map[]
  }

  /** The names every JavaScript object inherits from `Object.prototype`; looking
      one of them up on the parsed file gives a function or an object, which is
      truthy. */
  const InheritedKeys: set<Id> := {
    "constructor", "toString", "toLocaleString", "valueOf", "hasOwnProperty",
    "isPrototypeOf", "propertyIsEnumerable", "__proto__", "__defineGetter__",
    "__defineSetter__", "__lookupGetter__", "__lookupSetter__"}

  /** `groupsJson[id]` is truthy: the id is saved (its entry is an object) or is
      an inherited name. */
  predicate Listed(groups: map<Id, GroupEntry>, id: Id) {
    id in groups || id in InheritedKeys
  }

  datatype Reply =
    | NoPermission
    | FileMissing
    | NoGroups
    /** The saved groups, id to name. */
    | Listing(groups: map<Id, string>)
    | AlreadyExists
    /** The Roblox groups API could not be reached or refused the id. */
    | FetchFailed
    | GroupAdded
    /** Also the answer when the file is missing. */
    | NotExist
    | GroupRemoved

  /** The reply and the file after one subcommand. */
  datatype Outcome = Outcome(reply: Reply, file: GroupsFileContent)

  /** `group view`. */
  function ViewGroups(file: GroupsFileContent): (r: Reply)
    ensures r == FileMissing || r == NoGroups || r.Listing?
    ensures file.None? <==> r == FileMissing
    ensures r == NoGroups <==> file.Some? && file.value == map[]
    ensures r.Listing? ==> file.Some? && file.value != map[] &&
                           r.groups.Keys == file.value.Keys &&
                           forall id :: id in r.groups ==> r.groups[id] == file.value[id].groupName
  {
    if file.None? then FileMissing
    else if |file.value.Keys| == 0 then
      assert file.value == map[];
      NoGroups
    else
      assert file.value != map[];
      Listing(map id | id in file.value :: file.value[id].groupName)
  }

  /** `group add`: `fetched` is the name the Roblox groups API gives, `None`
      when the request fails. A saved group, or an id that names an inherited
      property, is refused before any request; the file is written only when a
      new group is added. */
  function AddGroup(file: GroupsFileContent, id: Id, fetched: Option<string>): (o: Outcome)
    ensures o.reply == AlreadyExists <==> id in Loaded(file) || id in InheritedKeys
    ensures o.reply == FetchFailed <==> !Listed(Loaded(file), id) && fetched.None?
    ensures o.reply == AlreadyExists || o.reply == FetchFailed || o.reply == GroupAdded
    ensures o.reply != GroupAdded ==> o.file == file
    ensures o.reply == GroupAdded ==>
              o.file.Some? && o.file.value.Keys == Loaded(file).Keys + {id} &&
              o.file.value[id] == GroupEntry(fetched.value)
    ensures forall k :: k in Loaded(file) ==> k in Loaded(o.file) && Loaded(o.file)[k] == Loaded(file)[k]
  {
    var groups := Loaded(file);
    if Listed(groups, id) then Outcome(AlreadyExists, file)
    else if fetched.None? then Outcome(FetchFailed, file)
    else Outcome(GroupAdded, Some(groups[id := GroupEntry(fetched.value)]))
  }

  /** `group remove`: deletes the entry when present; a missing file or an
      unlisted id is reported and nothing is written. An inherited name is
      reported as removed, and `delete`, which only removes the object's own
      entries, leaves the rewritten file as it was. */
  function RemoveGroup(file: GroupsFileContent, id: Id): (o: Outcome)
    ensures o.reply == GroupRemoved <==> file.Some? && (id in file.value || id in InheritedKeys)
    ensures o.reply == GroupRemoved || o.reply == NotExist
    ensures o.reply == NotExist ==> o.file == file
    ensures o.reply == GroupRemoved ==>
              o.file.Some? && o.file.value.Keys == Loaded(file).Keys - {id} &&
              forall k :: k in o.file.value ==> o.file.value[k] == Loaded(file)[k]
    ensures o.reply == GroupRemoved && id !in Loaded(file) ==> o.file == file
  {
    if file.Some? && Listed(file.value, id) then
      assert id !in file.value ==> file.value - {id} == file.value;
      Outcome(GroupRemoved, Some(file.value - {id}))
    else Outcome(NotExist, file)
  }

  /** Adding a new group and removing it again leaves the saved groups as they
      were; a missing file is left behind as an empty one. */
  lemma AddThenRemove(file: GroupsFileContent, id: Id, name: string)
    requires !Listed(Loaded(file), id)
    ensures AddGroup(file, id, Some(name)).reply == GroupAdded
    ensures RemoveGroup(AddGroup(file, id, Some(name)).file, id) == Outcome(GroupRemoved, Some(Loaded(file)))
  {
    var added := AddGroup(file, id, Some(name)).file;
    assert added.value - {id} == Loaded(file);
  }

  /** A second `add` of the same id is refused and changes nothing, whatever
      the API answers. */
  lemma AddTwice(file: GroupsFileContent, id: Id, name: string, again: Option<string>)
    ensures var first := AddGroup(file, id, Some(name));
            var second := AddGroup(first.file, id, again);
            second.reply == AlreadyExists && second.file == first.file
  {
  }

  /** After a removal the id is gone, so a following removal changes nothing
      and reports the id missing, unless the id is an inherited name of a
      file that exists, which is reported removed again. */
  lemma RemoveTwice(file: GroupsFileContent, id: Id)
    ensures var first := RemoveGroup(file, id);
            var second := RemoveGroup(first.file, id);
            second.file == first.file &&
            (second.reply == NotExist <==> first.file.None? || id !in InheritedKeys)
  {
    var first := RemoveGroup(file, id);
    if first.file.Some? {
      assert first.file.value - {id} == first.file.value;
    }
  }

  /** The groups file on disk. */
  class GroupsFile {
    var content: GroupsFileContent

    constructor (content: GroupsFileContent)
      ensures this.content == content
    {
      this.content := content;
    }

    method Add(id: Id, fetched: Option<string>) returns (reply: Reply)
      modifies this
      ensures Outcome(reply, content) == AddGroup(old(content), id, fetched)
    {
      var groups: map<Id, GroupEntry> := map[];
      if content.Some? {
        groups := content.value;
      }
      if id in groups || id in InheritedKeys {
        return AlreadyExists;
      }
      if fetched.None? {
        return FetchFailed;
      }
      groups := groups[id := GroupEntry(fetched.value)];
      content := Some(groups);
      reply := GroupAdded;
    }

    method Remove(id: Id) returns (reply: Reply)
      modifies this
      ensures Outcome(reply, content) == RemoveGroup(old(content), id)
    {
      if content.Some? {
        var groups := content.value;
        if id in groups || id in InheritedKeys {
          content := Some(groups - {id});
          return GroupRemoved;
        }
      }
      reply := NotExist;
    }
  }

  datatype Command = ViewCmd | AddCmd(id: Id, fetched: Option<string>) | RemoveCmd(id: Id)

  /** `/group`: only holders of an owner role proceed. */
  method Execute(file: GroupsFile, ownerIds: seq<Id>, callerRoles: set<Id>, cmd: Command) returns (reply: Reply)
    modifies file
    ensures !HasAnyRole(ownerIds, callerRoles) ==> reply == NoPermission && file.content == old(file.content)
    ensures HasAnyRole(ownerIds, callerRoles) ==>
              match cmd
              case ViewCmd => reply == ViewGroups(old(file.content)) && file.content == old(file.content)
              case AddCmd(id, fetched) => Outcome(reply, file.content) == AddGroup(old(file.content), id, fetched)
              case RemoveCmd(id) => Outcome(reply, file.content) == RemoveGroup(old(file.content), id)
  {
    if !HasAnyRole(ownerIds, callerRoles) {
      return NoPermission;
    }
    match cmd
    case ViewCmd =>
      reply := ViewGroups(file.content);
    case AddCmd(id, fetched) =>
      reply := file.Add(id, fetched);
    case RemoveCmd(id) =>
      reply := file.Remove(id);
  }
}
