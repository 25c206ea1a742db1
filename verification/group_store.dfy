/**
  The client-side group store: the checks before a group is created, the
  live feed of group messages (kept only for the group selected when the
  feed was subscribed, decrypted when the text looks like cipher text, and
  appended at most once per message id), clearing the selection when the
  selected group is left, and merging a profile update into the selection.

  Network calls are outside the model: their outcome is an argument. The
  cipher is the partial function `decrypt`, `None` where it fails.
 */
module GroupStore {
  import opened Common
  import opened Strings

  const MISSING_FIELDS := "Group name and at least one member are required"
  const NO_TOKEN := "Authentication token not found"
  /** The prefix every cipher text of the AES library starts with. */
  const CIPHER_MARK := "U2F"
  const CIPHER_MARK_LONG := "U2Fs"

  /** What `createGroup` does before any network call: refuse, or post the
      group. */
  datatype CreateOutcome = Refused(reason: string) | Posted(name: string, members: seq<UserId>)

  /** `createGroup`'s checks; `members` is `None` when the field is missing
      and `token` is the stored token. */
  function CreateGroupRequest(name: string, members: Option<seq<UserId>>, token: Option<string>): (r: CreateOutcome)
    ensures r.Posted? <==> name != "" && members.Some? && |members.value| > 0 && token.Some? && token.value != ""
    ensures (name == "" || members.None? || |members.value| == 0) ==> r == Refused(MISSING_FIELDS)
    ensures r.Posted? ==> r.name == name && r.members == members.value
  {
    if name == "" || members.None? || |members.value| == 0 then Refused(MISSING_FIELDS)
    else if token.None? || token.value == "" then Refused(NO_TOKEN)
    else Posted(name, members.value)
  }

  /** The client's test for cipher text. */
  predicate LooksEncrypted(text: string)
  {
    Contains(text, CIPHER_MARK) || Contains(text, CIPHER_MARK_LONG)
  }

  /** The second test is subsumed by the first: text is treated as cipher
      text exactly when it contains "U2F". */
  lemma LooksEncryptedIsMark(text: string)
    ensures LooksEncrypted(text) <==> Contains(text, CIPHER_MARK)
  {
    if Contains(text, CIPHER_MARK_LONG) {
      var i :| 0 <= i <= |text| - |CIPHER_MARK_LONG| && OccursAt(text, CIPHER_MARK_LONG, i);
      assert text[i..i + 3] == text[i..i + 4][..3];
      assert OccursAt(text, CIPHER_MARK, i);
    }
  }

  /** The text shown: decrypted when it looks like cipher text and
      decryption succeeds, otherwise unchanged. */
  function PlainText(text: string, decrypt: string -> Option<string>): (r: string)
    ensures !Contains(text, CIPHER_MARK) ==> r == text
    ensures r != text ==> decrypt(text) == Some(r)
    ensures Contains(text, CIPHER_MARK) && decrypt(text).Some? ==> r == decrypt(text).value
    ensures decrypt(text).None? ==> r == text
  {
    LooksEncryptedIsMark(text);
    if text != "" && LooksEncrypted(text) then
      match decrypt(text)
      case Some(plain) => plain
      case None => text
    else text
  }

  /** A group message as the client holds it; "" stands for a missing id. */
  datatype ClientMessage = ClientMessage(id: string, groupId: string, text: string)

  predicate HasMessageId(msgs: seq<ClientMessage>, id: string)
  {
    exists i :: 0 <= i < |msgs| && msgs[i].id == id
  }

  predicate UniqueIds(msgs: seq<ClientMessage>)
  {
    forall i, j :: 0 <= i < j < |msgs| ==> msgs[i].id != msgs[j].id
  }

  /** Appends `m` unless a message with its id is already there. */
  function DedupAppend(msgs: seq<ClientMessage>, m: ClientMessage): (r: seq<ClientMessage>)
    ensures HasMessageId(msgs, m.id) ==> r == msgs
    ensures !HasMessageId(msgs, m.id) ==> r == msgs + [m]
  {
    if HasMessageId(msgs, m.id) then msgs else msgs + [m]
  }

  /** The feed never duplicates an id, delivering the same message again
      changes nothing, and the message's id is present afterwards. */
  lemma DedupAppendKeepsIdsUnique(msgs: seq<ClientMessage>, m: ClientMessage)
    requires UniqueIds(msgs)
    ensures UniqueIds(DedupAppend(msgs, m))
    ensures HasMessageId(DedupAppend(msgs, m), m.id)
    ensures DedupAppend(DedupAppend(msgs, m), m) == DedupAppend(msgs, m)
  {
    var r := DedupAppend(msgs, m);
    if !HasMessageId(msgs, m.id) {
      assert r[|msgs|] == m;
      forall i, j | 0 <= i < j < |r|
        ensures r[i].id != r[j].id
      {
        if j == |msgs| {
          assert r[i] == msgs[i];
        }
      }
    }
  }

  /** The `_id` of a group record; "" when it has none. */
  function GroupIdOf(g: map<string, Json>): string
  {
    if "_id" in g && g["_id"].Str? then g["_id"].s else ""
  }

  /** `{...base, ...data}`, with a null base spreading nothing. */
  function MergeProfile(base: Option<map<string, Json>>, data: map<string, Json>): (r: map<string, Json>)
    ensures r.Keys == data.Keys + (if base.Some? then base.value.Keys else {})
    ensures forall k :: k in data ==> r[k] == data[k]
    ensures base.Some? ==> forall k :: k in base.value && k !in data ==> r[k] == base.value[k]
  {
    (if base.Some? then base.value else map[]) + data
  }

  class GroupStore {
    var selectedGroup: Option<map<string, Json>>
    var groupMessages: seq<ClientMessage>

    constructor ()
      ensures selectedGroup.None? && groupMessages == []
    {
      selectedGroup := None;
      groupMessages := [];
    }

    /** `subscribeToGroupMessages`: the feed is opened only with a selected
        group and a socket; it remembers that group's id. */
    method SubscribeToGroupMessages(hasSocket: bool) returns (subscribedTo: Option<string>)
      ensures subscribedTo.Some? <==> selectedGroup.Some? && hasSocket
      ensures subscribedTo.Some? ==> subscribedTo.value == GroupIdOf(selectedGroup.value)
    {
      if selectedGroup.None? || !hasSocket {
        return None;
      }
      subscribedTo := Some(GroupIdOf(selectedGroup.value));
    }

    /** A `newGroupMessage` on a feed subscribed to `subscribedTo`. */
    method OnNewGroupMessage(subscribedTo: string, msg: ClientMessage, decrypt: string -> Option<string>)
      modifies this
      ensures selectedGroup == old(selectedGroup)
      ensures msg.groupId != subscribedTo ==> groupMessages == old(groupMessages)
      ensures msg.groupId == subscribedTo ==>
        groupMessages == DedupAppend(old(groupMessages), msg.(text := PlainText(msg.text, decrypt)))
    {
      if msg.groupId == subscribedTo {
        var shown := msg.(text := PlainText(msg.text, decrypt));
        var messageExists := HasMessageId(groupMessages, shown.id);
        if !messageExists {
          groupMessages := groupMessages + [shown];
        }
      }
    }

    /** `leaveGroup`: `succeeded` is the server's verdict; on success the
        selection is cleared only when it is the group left. */
    method LeaveGroup(groupId: string, succeeded: bool) returns (ok: bool)
      modifies this
      ensures ok == succeeded
      ensures groupMessages == old(groupMessages)
      ensures succeeded && old(selectedGroup).Some? && GroupIdOf(old(selectedGroup).value) == groupId ==> selectedGroup.None?
      ensures !(succeeded && old(selectedGroup).Some? && GroupIdOf(old(selectedGroup).value) == groupId) ==>
                selectedGroup == old(selectedGroup)
    {
      if !succeeded {
        return false;
      }
      if selectedGroup.Some? && GroupIdOf(selectedGroup.value) == groupId {
        selectedGroup := None;
      }
      ok := true;
    }

    /** `updateGroupProfile`: on success the response's fields are merged
        over the selection. */
    method UpdateGroupProfile(response: map<string, Json>, succeeded: bool) returns (ok: bool)
      modifies this
      ensures ok == succeeded
      ensures groupMessages == old(groupMessages)
      ensures succeeded ==> selectedGroup == Some(MergeProfile(old(selectedGroup), response))
      ensures !succeeded ==> selectedGroup == old(selectedGroup)
    {
      if !succeeded {
        return false;
      }
      selectedGroup := Some(MergeProfile(selectedGroup, response));
      ok := true;
    }
  }
}
