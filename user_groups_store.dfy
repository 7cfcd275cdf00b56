/**
 * The user-groups store: the signed-in user's groups, the selected group,
 * and the create, update, delete and membership calls that edit them.
 * Each method is given the outcome of its network call.
 */
module UserGroupsStore {

  import opened Wrappers
  import opened StoreCommon

  datatype MemberInfo = MemberInfo(userId: string, username: string, displayName: Option<string>)

  datatype UserGroup = UserGroup(
    id: string, userId: string, name: string, members: seq<MemberInfo>,
    createdAt: string, updatedAt: string)

  /** `findIndex(g => g.id === id)`: the first position holding that id, or -1. */
  function FindIndex(groups: seq<UserGroup>, id: string): (i: int)
    ensures -1 <= i < |groups|
    ensures i >= 0 ==> groups[i].id == id && forall j :: 0 <= j < i ==> groups[j].id != id
    ensures i == -1 ==> forall j :: 0 <= j < |groups| ==> groups[j].id != id
  {
    if |groups| == 0 then -1
    else if groups[0].id == id then 0
    else
      var k := FindIndex(groups[1..], id);
      if k == -1 then -1 else k + 1
  }

  /** `filter(g => g.id !== id)`. */
  function RemoveById(groups: seq<UserGroup>, id: string): (r: seq<UserGroup>)
    ensures |r| <= |groups|
    ensures forall g :: g in r ==> g in groups && g.id != id
    ensures forall g :: g in groups && g.id != id ==> g in r
  {
    if |groups| == 0 then []
    else if groups[0].id == id then RemoveById(groups[1..], id)
    else [groups[0]] + RemoveById(groups[1..], id)
  }

  /** Filtering works element by element and keeps the order of what remains. */
  lemma {:induction false} RemoveByIdAppend(a: seq<UserGroup>, b: seq<UserGroup>, id: string)
    ensures RemoveById(a + b, id) == RemoveById(a, id) + RemoveById(b, id)
    decreases |a|
  {
    if |a| == 0 {
      assert a + b == b;
    } else {
      assert (a + b)[1..] == a[1..] + b;
      RemoveByIdAppend(a[1..], b, id);
    }
  }

  /** Removing an id twice removes nothing more. */
  lemma {:induction false} RemoveByIdIdempotent(groups: seq<UserGroup>, id: string)
    ensures RemoveById(RemoveById(groups, id), id) == RemoveById(groups, id)
    decreases |groups|
  {
    if |groups| > 0 {
      RemoveByIdIdempotent(groups[1..], id);
      if groups[0].id != id {
        var rest := RemoveById(groups[1..], id);
        assert ([groups[0]] + rest)[1..] == rest;
      }
    }
  }

  /** The list after a successful update: the first group with that id is replaced, nothing else moves. */
  function ReplaceFirst(groups: seq<UserGroup>, id: string, updated: UserGroup): (r: seq<UserGroup>)
    ensures |r| == |groups|
    ensures forall j :: 0 <= j < |r| && j != FindIndex(groups, id) ==> r[j] == groups[j]
    ensures FindIndex(groups, id) >= 0 ==> r[FindIndex(groups, id)] == updated
    ensures FindIndex(groups, id) == -1 ==> r == groups
  {
    var index := FindIndex(groups, id);
    if index == -1 then groups else groups[index := updated]
  }

  /** Whether a call's outcome is a failure the store reports. */
  predicate Failed<T>(outcome: ApiOutcome<T>) {
    outcome.ErrorBody? || outcome.Thrown?
  }

  class UserGroupsStore {
    var groups: seq<UserGroup>
    var loading: bool
    var error: Option<string>
    var selectedGroupId: Option<string>

    constructor ()
      ensures groups == [] && !loading && error == None && selectedGroupId == None
    {
      groups := [];
      loading := false;
      error := None;
      selectedGroupId := None;
    }

    /** `fetchGroups`: data replaces the list; a failure keeps it and records its text. */
    method FetchGroups(outcome: ApiOutcome<seq<UserGroup>>)
      modifies this
      ensures !loading
      ensures outcome.Data? ==> groups == outcome.value
      ensures !outcome.Data? ==> groups == old(groups)
      ensures error == FailureText(outcome, "Failed to fetch user groups")
      ensures selectedGroupId == old(selectedGroupId)
    {
      loading := true;
      error := None;
      match outcome {
        case ErrorBody(message) =>
          error := Some(MessageOr(message, "Failed to fetch user groups"));
        case Thrown(thrown) =>
          error := Some(ThrownText(thrown));
        case NoData =>
        case Data(list) =>
          groups := list;
      }
      loading := false;
    }

    /** `createGroup`: the created group is appended and returned; otherwise nothing is added and null comes back. */
    method CreateGroup(outcome: ApiOutcome<UserGroup>) returns (created: Option<UserGroup>)
      modifies this
      ensures !loading
      ensures outcome.Data? ==> groups == old(groups) + [outcome.value] && created == Some(outcome.value)
      ensures !outcome.Data? ==> groups == old(groups) && created == None
      ensures error == FailureText(outcome, "Failed to create group")
      ensures selectedGroupId == old(selectedGroupId)
    {
      loading := true;
      error := None;
      created := None;
      match outcome {
        case ErrorBody(message) =>
          error := Some(MessageOr(message, "Failed to create group"));
        case Thrown(thrown) =>
          error := Some(ThrownText(thrown));
        case NoData =>
        case Data(group) =>
          groups := groups + [group];
          created := Some(group);
      }
      loading := false;
    }

    /** `updateGroup`: the returned group takes the place of the first group with that id, and is returned. */
    method UpdateGroup(id: string, outcome: ApiOutcome<UserGroup>) returns (updated: Option<UserGroup>)
      modifies this
      ensures !loading
      ensures outcome.Data? ==> groups == ReplaceFirst(old(groups), id, outcome.value) && updated == Some(outcome.value)
      ensures !outcome.Data? ==> groups == old(groups) && updated == None
      ensures error == FailureText(outcome, "Failed to update group")
      ensures selectedGroupId == old(selectedGroupId)
    {
      loading := true;
      error := None;
      updated := None;
      match outcome {
        case ErrorBody(message) =>
          error := Some(MessageOr(message, "Failed to update group"));
        case Thrown(thrown) =>
          error := Some(ThrownText(thrown));
        case NoData =>
        case Data(group) =>
          var index := FindIndex(groups, id);
          if index != -1 {
            groups := groups[index := group];
          }
          updated := Some(group);
      }
      loading := false;
    }

    /** `deleteGroup`: unless the call fails, every group with that id goes, and so does the selection if it was that id. */
    method DeleteGroup(id: string, outcome: ApiOutcome<()>) returns (deleted: bool)
      modifies this
      ensures !loading
      ensures deleted <==> !Failed(outcome)
      ensures deleted ==> groups == RemoveById(old(groups), id)
      ensures deleted ==> selectedGroupId == if old(selectedGroupId) == Some(id) then None else old(selectedGroupId)
      ensures !deleted ==> groups == old(groups) && selectedGroupId == old(selectedGroupId)
      ensures error == FailureText(outcome, "Failed to delete group")
    {
      loading := true;
      error := None;
      match outcome {
        case ErrorBody(message) =>
          error := Some(MessageOr(message, "Failed to delete group"));
          deleted := false;
        case Thrown(thrown) =>
          error := Some(ThrownText(thrown));
          deleted := false;
        case _ =>
          groups := RemoveById(groups, id);
          if selectedGroupId == Some(id) {
            selectedGroupId := None;
          }
          deleted := true;
      }
      loading := false;
    }

    /**
     * `addMember` and `removeMember`: a failed call records its text and
     * returns false; otherwise the groups are fetched again and the result
     * is true, even when that refresh fails.
     */
    method ChangeMembership(outcome: ApiOutcome<()>, fallback: string, refresh: ApiOutcome<seq<UserGroup>>) returns (done: bool)
      modifies this
      ensures !loading
      ensures done <==> !Failed(outcome)
      ensures !done ==> groups == old(groups) && error == FailureText(outcome, fallback)
      ensures done && refresh.Data? ==> groups == refresh.value
      ensures done && !refresh.Data? ==> groups == old(groups)
      ensures done ==> error == FailureText(refresh, "Failed to fetch user groups")
      ensures selectedGroupId == old(selectedGroupId)
    {
      loading := true;
      error := None;
      if Failed(outcome) {
        error := FailureText(outcome, fallback);
        done := false;
      } else {
        FetchGroups(refresh);
        done := true;
      }
      loading := false;
    }

    /** `addMember`. */
    method AddMember(groupId: string, userId: string, outcome: ApiOutcome<()>, refresh: ApiOutcome<seq<UserGroup>>) returns (added: bool)
      modifies this
      ensures !loading
      ensures added <==> !Failed(outcome)
      ensures !added ==> groups == old(groups) && error == FailureText(outcome, "Failed to add member")
      ensures added ==> groups == (if refresh.Data? then refresh.value else old(groups))
      ensures added ==> error == FailureText(refresh, "Failed to fetch user groups")
      ensures selectedGroupId == old(selectedGroupId)
    {
      added := ChangeMembership(outcome, "Failed to add member", refresh);
    }

    /** `removeMember`. */
    method RemoveMember(groupId: string, userId: string, outcome: ApiOutcome<()>, refresh: ApiOutcome<seq<UserGroup>>) returns (removed: bool)
      modifies this
      ensures !loading
      ensures removed <==> !Failed(outcome)
      ensures !removed ==> groups == old(groups) && error == FailureText(outcome, "Failed to remove member")
      ensures removed ==> groups == (if refresh.Data? then refresh.value else old(groups))
      ensures removed ==> error == FailureText(refresh, "Failed to fetch user groups")
      ensures selectedGroupId == old(selectedGroupId)
    {
      removed := ChangeMembership(outcome, "Failed to remove member", refresh);
    }

    /** `selectGroup`. */
    method SelectGroup(groupId: Option<string>)
      modifies this
      ensures selectedGroupId == groupId
      ensures groups == old(groups) && loading == old(loading) && error == old(error)
    {
      selectedGroupId := groupId;
    }
  }
}
