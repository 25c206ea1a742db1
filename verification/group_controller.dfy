/**
  The group endpoints of the server: the member list of a new group, the
  membership checks before a message is stored or the history is read, and
  leaving a group with the admin handed to the first remaining member.

  Persistence is the `Group` object itself; the message store, the image
  upload and the cipher are arguments. Statuses are the HTTP codes the
  handlers answer with; 500 stands for the exception a missing group causes
  where the handler does not check for it.

  A `notified` result lists the members whose room `user_<id>` an event is
  emitted to, one emission per entry; which sockets are in those rooms is
  not part of this module.
 */
module GroupController {
  import opened Common

  const CREATED := 201
  const OK := 200
  const BAD_REQUEST := 400
  const FORBIDDEN := 403
  const NOT_FOUND := 404
  const SERVER_ERROR := 500

  class Group {
    const id: string
    var name: string
    var description: string
    var admin: UserId
    var members: seq<UserId>

    constructor (id: string, name: string, description: string, admin: UserId, members: seq<UserId>)
      ensures this.id == id && this.name == name && this.description == description
      ensures this.admin == admin && this.members == members
    {
      this.id := id;
      this.name := name;
      this.description := description;
      this.admin := admin;
      this.members := members;
    }
  }

  /** A stored group message; `text` holds the cipher text, "" when the
      message had none. */
  datatype GroupMessage = GroupMessage(groupId: string, senderId: UserId, text: string, image: Option<string>, readBy: seq<UserId>)

  /** `[admin, ...members]`: the creator first, then the chosen members in
      order, duplicates kept. */
  function NewGroupMembers(admin: UserId, members: seq<UserId>): (r: seq<UserId>)
    ensures |r| == |members| + 1 && r[0] == admin
    ensures forall i :: 0 <= i < |members| ==> r[i + 1] == members[i]
    ensures multiset(r) == multiset{admin} + multiset(members)
  {
    [admin] + members
  }

  /** `createGroup`: the new group, and the members to whose `user_<id>`
      room a `groupCreated` event is emitted. */
  method CreateGroup(id: string, name: string, description: string, admin: UserId, members: seq<UserId>)
    returns (group: Group, notified: seq<UserId>)
    ensures fresh(group)
    ensures group.id == id && group.name == name && group.description == description
    ensures group.admin == admin && group.members == NewGroupMembers(admin, members)
    ensures notified == group.members
  {
    group := new Group(id, name, description, admin, NewGroupMembers(admin, members));
    notified := NewGroupMembers(admin, members);
  }

  /** The admin of a newly created group is one of its members. */
  lemma CreatorIsMember(admin: UserId, members: seq<UserId>)
    ensures admin in NewGroupMembers(admin, members)
    ensures forall m :: m in members ==> m in NewGroupMembers(admin, members)
  {
  }

  /** The answer to `sendGroupMessage`: the status, the message stored (if
      any), the message sent back with its text decrypted, and the members
      to whose `user_<id>` room a `newGroupMessage` event is emitted. */
  datatype SendResult = SendResult(status: int, stored: Option<GroupMessage>, reply: Option<GroupMessage>, notified: seq<UserId>)

  /** `sendGroupMessage`: `group` is the group found under the id (null when
      there is none); `upload` gives the URL of an uploaded image. */
  method SendGroupMessage(group: Group?, groupId: string, senderId: UserId, text: string, image: string,
                          encrypt: string -> string, decrypt: string -> string, upload: string -> string)
    returns (r: SendResult)
    ensures group == null ==> r.status == SERVER_ERROR && r.stored.None? && r.reply.None? && r.notified == []
    ensures group != null && senderId !in group.members ==> r.status == FORBIDDEN && r.stored.None? && r.notified == []
    ensures r.stored.Some? <==> group != null && senderId in group.members
    ensures r.stored.Some? ==>
      && r.status == CREATED
      && r.stored.value.groupId == groupId && r.stored.value.senderId == senderId
      && r.stored.value.readBy == [senderId]
      && r.stored.value.text == (if text != "" then encrypt(text) else "")
      && r.stored.value.image == (if image != "" then Some(upload(image)) else None)
      && r.reply == Some(r.stored.value.(text := if text != "" then decrypt(r.stored.value.text) else ""))
      && r.notified == group.members
    ensures r.stored.Some? && decrypt(encrypt(text)) == text ==> r.reply.value.text == text
  {
    if group == null {
      return SendResult(SERVER_ERROR, None, None, []);
    }
    if senderId !in group.members {
      return SendResult(FORBIDDEN, None, None, []);
    }
    var imageUrl := if image != "" then Some(upload(image)) else None;
    var message := GroupMessage(groupId, senderId, if text != "" then encrypt(text) else "", imageUrl, [senderId]);
    var reply := message.(text := if text != "" then decrypt(message.text) else "");
    r := SendResult(CREATED, Some(message), Some(reply), group.members);
  }

  /** The stored messages of one group, in stored order. */
  function MessagesOf(stored: seq<GroupMessage>, groupId: string): (r: seq<GroupMessage>)
    ensures |r| <= |stored|
    ensures forall m :: m in r <==> m in stored && m.groupId == groupId
  {
    if stored == [] then []
    else (if stored[0].groupId == groupId then [stored[0]] else []) + MessagesOf(stored[1..], groupId)
  }

  /** `getGroupMessages`: the group's messages with their text decrypted,
      for members only. */
  method GetGroupMessages(group: Group?, groupId: string, userId: UserId, stored: seq<GroupMessage>, decrypt: string -> string)
    returns (status: int, messages: seq<GroupMessage>)
    ensures group == null ==> status == SERVER_ERROR && messages == []
    ensures group != null && userId !in group.members ==> status == FORBIDDEN && messages == []
    ensures group != null && userId in group.members ==>
      && status == OK
      && |messages| == |MessagesOf(stored, groupId)|
      && forall i :: 0 <= i < |messages| ==>
           var m := MessagesOf(stored, groupId)[i];
           messages[i] == m.(text := if m.text != "" then decrypt(m.text) else "")
  {
    if group == null {
      return SERVER_ERROR, [];
    }
    if userId !in group.members {
      return FORBIDDEN, [];
    }
    var found := MessagesOf(stored, groupId);
    messages := seq(|found|, i requires 0 <= i < |found| => found[i].(text := if found[i].text != "" then decrypt(found[i].text) else ""));
    status := OK;
  }

  /** The admin after `leaving` has left and `remaining` are the members:
      the first remaining member if the admin left and someone remains. */
  function NextAdmin(admin: UserId, leaving: UserId, remaining: seq<UserId>): (r: UserId)
    ensures admin != leaving ==> r == admin
    ensures admin == leaving && |remaining| > 0 ==> r == remaining[0]
    ensures admin == leaving && |remaining| == 0 ==> r == admin
  {
    if admin == leaving && |remaining| > 0 then remaining[0] else admin
  }

  /** `leaveGroup`: 404 without a group, 400 for a non-member, otherwise
      every occurrence of the user is removed, the admin is handed on if
      needed, and a `groupUpdated` event is emitted to the `user_<id>` room
      of each remaining member. */
  method LeaveGroup(group: Group?, userId: UserId) returns (status: int, notified: seq<UserId>)
    modifies group
    ensures group == null ==> status == NOT_FOUND && notified == []
    ensures group != null && userId !in old(group.members) ==>
      status == BAD_REQUEST && notified == [] && group.members == old(group.members) && group.admin == old(group.admin)
    ensures group != null && userId in old(group.members) ==>
      && status == OK
      && group.members == RemoveAll(old(group.members), userId)
      && group.admin == NextAdmin(old(group.admin), userId, group.members)
      && notified == group.members
    ensures group != null ==> group.name == old(group.name) && group.description == old(group.description)
  {
    if group == null {
      return NOT_FOUND, [];
    }
    if userId !in group.members {
      return BAD_REQUEST, [];
    }
    group.members := RemoveAll(group.members, userId);
    if group.admin == userId && |group.members| > 0 {
      group.admin := group.members[0];
    }
    status, notified := OK, group.members;
  }

  /** Leaving keeps every other member, as often as they occurred, and
      leaves no copy of the leaving user. */
  lemma LeaveKeepsOthers(members: seq<UserId>, leaving: UserId)
    ensures forall other :: other != leaving ==> multiset(RemoveAll(members, leaving))[other] == multiset(members)[other]
    ensures multiset(RemoveAll(members, leaving))[leaving] == 0
  {
    forall other | other != leaving
      ensures multiset(RemoveAll(members, leaving))[other] == multiset(members)[other]
    {
      RemoveAllCount(members, leaving, other);
    }
  }

  /** The admin stays a member across a leave as long as anyone remains:
      a group whose admin is a member still has one afterwards. */
  lemma AdminRemainsMember(admin: UserId, members: seq<UserId>, leaving: UserId)
    requires admin in members && leaving in members
    ensures var remaining := RemoveAll(members, leaving);
      |remaining| > 0 ==> NextAdmin(admin, leaving, remaining) in remaining
  {
    var remaining := RemoveAll(members, leaving);
    if admin != leaving {
      var i :| 0 <= i < |members| && members[i] == admin;
      assert members[i] in remaining;
    }
  }
}
