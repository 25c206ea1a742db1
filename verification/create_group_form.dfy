/**
  The create-group dialog: toggling a user in or out of the selection, and
  submitting the form, which is refused locally when the trimmed name is
  empty or nobody is selected, and is reset after the group was created.
 */
module CreateGroupForm {
  import opened Common
  import opened Strings
  import GroupStore

  const NAME_REQUIRED := "Please enter a group name"
  const MEMBER_REQUIRED := "Please select at least one member"

  datatype Form = Form(groupName: string, description: string, selectedMembers: seq<UserId>)
  datatype GroupRequest = GroupRequest(name: string, description: string, members: seq<UserId>)

  /** The outcome of submitting: the form afterwards, the request handed to
      the group store (if any), and the error shown (if any). */
  datatype SubmitResult = SubmitResult(form: Form, request: Option<GroupRequest>, error: Option<string>)

  /** `toggleMember`: a selected id is removed wherever it occurs; an
      unselected one is added at the end. */
  function ToggleMember(selected: seq<UserId>, userId: UserId): (r: seq<UserId>)
    ensures userId in selected ==> r == RemoveAll(selected, userId)
    ensures userId in selected ==> userId !in r && |r| < |selected|
    ensures userId in selected ==> forall v :: v != userId ==> multiset(r)[v] == multiset(selected)[v]
    ensures userId !in selected ==> |r| == |selected| + 1 && r[|selected|] == userId && r[..|selected|] == selected
  {
    if userId in selected then
      RemoveAllShorter(selected, userId);
      forall v | v != userId
        ensures multiset(RemoveAll(selected, userId))[v] == multiset(selected)[v]
      {
        RemoveAllCount(selected, userId, v);
      }
      RemoveAll(selected, userId)
    else selected + [userId]
  }

  /** Filtering out an element that occurs makes the list shorter. */
  lemma {:induction false} RemoveAllShorter(xs: seq<UserId>, x: UserId)
    requires x in xs
    ensures |RemoveAll(xs, x)| < |xs|
  {
    if xs[0] != x {
      assert x in xs[1..];
      RemoveAllShorter(xs[1..], x);
    }
  }

  /** Toggling an unselected user twice gives back the original selection. */
  lemma ToggleTwiceRestores(selected: seq<UserId>, userId: UserId)
    requires userId !in selected
    ensures ToggleMember(ToggleMember(selected, userId), userId) == selected
  {
    var once := selected + [userId];
    assert userId in once;
    RemoveAllAppend(selected, [userId], userId);
    RemoveAllAbsent(selected, userId);
    assert RemoveAll([userId], userId) == [];
  }

  /** `handleSubmit`; `createSucceeds` is whether the group store created
      the group. */
  function Submit(form: Form, createSucceeds: bool): (r: SubmitResult)
    ensures r.request.Some? <==> Trim(form.groupName) != "" && |form.selectedMembers| > 0
    ensures r.request.None? ==> r.form == form && r.error.Some?
    ensures Trim(form.groupName) == "" ==> r.error == Some(NAME_REQUIRED)
    ensures Trim(form.groupName) != "" && |form.selectedMembers| == 0 ==> r.error == Some(MEMBER_REQUIRED)
    ensures r.request.Some? ==>
      && r.request.value == GroupRequest(Trim(form.groupName), Trim(form.description), form.selectedMembers)
      && r.error.None?
      && r.form == (if createSucceeds then Form("", "", []) else form)
  {
    if Trim(form.groupName) == "" then SubmitResult(form, None, Some(NAME_REQUIRED))
    else if |form.selectedMembers| == 0 then SubmitResult(form, None, Some(MEMBER_REQUIRED))
    else
      var request := GroupRequest(Trim(form.groupName), Trim(form.description), form.selectedMembers);
      SubmitResult(if createSucceeds then Form("", "", []) else form, Some(request), None)
  }

  /** A request the form sends always passes the store's own field check;
      only a missing token can still stop it. A name of blanks is refused
      by the form. */
  lemma SubmittedRequestPassesStoreCheck(form: Form, createSucceeds: bool, token: Option<string>)
    ensures var r := Submit(form, createSucceeds);
      r.request.Some? ==>
        var req := r.request.value;
        GroupStore.CreateGroupRequest(req.name, Some(req.members), token) != GroupStore.Refused(GroupStore.MISSING_FIELDS)
    ensures (forall i :: 0 <= i < |form.groupName| ==> IsJsWhitespace(form.groupName[i])) ==>
      Submit(form, createSucceeds).request.None?
  {
    TrimEmpty(form.groupName);
  }
}
