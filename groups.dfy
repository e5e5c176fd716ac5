/**
 * Groups, membership rows and the client's permission rules: `isGroupAdmin`,
 * `canSendInGroup`, the add-member candidate list and the replacement of a
 * group by the server's updated copy.
 */
module Groups {
  import opened JsValues
  import opened Seqs

  /** A membership row; `canSendMessages` is absent (None) when the server omits it. */
  datatype Member = Member(userId: Value, canSendMessages: Option<bool>)

  /** A group as the server sends it: `creator` and member ids may be populated objects or raw ids. */
  datatype Group = Group(id: string, name: Value, creator: Value, members: seq<Member>)

  datatype User = User(id: string, name: Value, status: Value)

  function HasId(groupId: string): Group -> bool {
    (g: Group) => g.id == groupId
  }

  /** `groups.find(g => g._id === groupId)` */
  function FindGroup(groups: seq<Group>, groupId: string): Option<Group> {
    Find(groups, HasId(groupId))
  }

  function IsRowOf(viewer: Option<string>): Member -> bool {
    (m: Member) => viewer == Some(RefId(m.userId))
  }

  /** `group.members.find(m => safeRender(m.userId?._id || m.userId) === currentUserId)` */
  function FindMember(members: seq<Member>, viewer: Option<string>): Option<Member> {
    Find(members, IsRowOf(viewer))
  }

  /** `isGroupAdmin`: the viewer is known and is the creator of the group with this id. */
  predicate IsGroupAdmin(groups: seq<Group>, viewer: Option<string>, groupId: string) {
    groupId != "" && Present(viewer) &&
    match FindGroup(groups, groupId)
    case None => false
    case Some(g) => viewer == Some(RefId(g.creator))
  }

  /**
   * `canSendInGroup`: the creator always may; anyone else only when the first
   * membership row for them has `canSendMessages === true`.
   */
  predicate CanSendInGroup(groups: seq<Group>, viewer: Option<string>, groupId: string) {
    match FindGroup(groups, groupId)
    case None => false
    case Some(g) =>
      if viewer == Some(RefId(g.creator)) then true
      else match FindMember(g.members, viewer)
        case None => false
        case Some(m) => m.canSendMessages == Some(true)
  }

  function NotMemberOf(members: seq<Member>): User -> bool {
    (u: User) => !exists m :: m in members && RefId(m.userId) == u.id
  }

  /** `users.filter(u => !grp.members.some(m => safeRender(m.userId?._id || m.userId) === u._id))` */
  function AddMemberCandidates(users: seq<User>, g: Group): seq<User> {
    Filter(users, NotMemberOf(g.members))
  }

  /** `groups.map(g => g._id === groupId ? updated : g)` */
  function ReplaceGroup(groups: seq<Group>, groupId: string, updated: Group): (r: seq<Group>)
    ensures |r| == |groups|
  {
    seq(|groups|, i requires 0 <= i < |groups| => if groups[i].id == groupId then updated else groups[i])
  }

  // ---------------------------------------------------------------------------
  // Properties of the permission rules

  /** An unknown group is never writable. */
  lemma UnknownGroupCannotSend(groups: seq<Group>, viewer: Option<string>, groupId: string)
    requires forall i :: 0 <= i < |groups| ==> groups[i].id != groupId
    ensures !CanSendInGroup(groups, viewer, groupId) && !IsGroupAdmin(groups, viewer, groupId)
  {
  }

  /** The creator may always send, even with no membership row at all. */
  lemma CreatorAlwaysSends(groups: seq<Group>, g: Group, viewer: string)
    requires FindGroup(groups, g.id) == Some(g)
    requires viewer == RefId(g.creator)
    ensures CanSendInGroup(groups, Some(viewer), g.id)
    ensures CanSendInGroup(groups, Some(viewer), g.id) == CanSendInGroup([g.(members := [])], Some(viewer), g.id)
  {
  }

  /** An admin of a group may send in it. */
  lemma AdminCanSend(groups: seq<Group>, viewer: Option<string>, groupId: string)
    requires IsGroupAdmin(groups, viewer, groupId)
    ensures CanSendInGroup(groups, viewer, groupId)
  {
  }

  /** At most one membership row per user. */
  predicate UniqueRows(members: seq<Member>) {
    forall i, j :: 0 <= i < j < |members| ==> RefId(members[i].userId) != RefId(members[j].userId)
  }

  /**
   * The permission rule in terms of rows: a viewer that may send is the creator or
   * has a granting row; with one row per user the converse holds as well.
   */
  lemma PermissionByRows(groups: seq<Group>, g: Group, viewer: string)
    requires FindGroup(groups, g.id) == Some(g)
    ensures CanSendInGroup(groups, Some(viewer), g.id) ==>
      viewer == RefId(g.creator) ||
      exists m :: m in g.members && RefId(m.userId) == viewer && m.canSendMessages == Some(true)
    ensures UniqueRows(g.members) ==>
      (CanSendInGroup(groups, Some(viewer), g.id) <==>
        viewer == RefId(g.creator) ||
        exists m :: m in g.members && RefId(m.userId) == viewer && m.canSendMessages == Some(true))
  {
  }

  /**
   * The lookup takes the first row for the viewer: for anyone but the creator,
   * that row alone decides, so a later granting row does not help when an earlier
   * one denies, and a later denying row does not hurt when an earlier one grants.
   */
  lemma FirstRowDecides(groups: seq<Group>, g: Group, viewer: string, i: nat)
    requires FindGroup(groups, g.id) == Some(g) && viewer != RefId(g.creator)
    requires i < |g.members| && RefId(g.members[i].userId) == viewer
    requires forall j :: 0 <= j < i ==> RefId(g.members[j].userId) != viewer
    ensures CanSendInGroup(groups, Some(viewer), g.id) <==> g.members[i].canSendMessages == Some(true)
  {
    assert FirstIndex(g.members, IsRowOf(Some(viewer))) == i;
  }

  /** Only `canSendMessages === true` grants: an absent flag denies. */
  lemma AbsentFlagDenies(groups: seq<Group>, g: Group, viewer: string)
    requires FindGroup(groups, g.id) == Some(g) && viewer != RefId(g.creator)
    requires FindMember(g.members, Some(viewer)).Some?
    requires FindMember(g.members, Some(viewer)).value.canSendMessages != Some(true)
    ensures !CanSendInGroup(groups, Some(viewer), g.id)
  {
  }

  /** The candidates are exactly the users with no membership row. */
  lemma CandidatesAreNonMembers(users: seq<User>, g: Group, u: User)
    ensures u in AddMemberCandidates(users, g) <==>
      u in users && forall m :: m in g.members ==> RefId(m.userId) != u.id
  {
  }

  /** A candidate who is not the creator cannot send in the group before being added. */
  lemma CandidateCannotSendYet(groups: seq<Group>, users: seq<User>, g: Group, u: User)
    requires FindGroup(groups, g.id) == Some(g)
    requires u in AddMemberCandidates(users, g) && u.id != RefId(g.creator)
    ensures !CanSendInGroup(groups, Some(u.id), g.id)
  {
  }

  /**
   * After the replacement, looking up the replaced id finds the server's copy
   * (when the group was known) and every other id finds what it found before.
   */
  lemma ReplaceGroupLookup(groups: seq<Group>, groupId: string, updated: Group, other: string)
    requires updated.id == groupId
    ensures FindGroup(ReplaceGroup(groups, groupId, updated), groupId)
         == if FindGroup(groups, groupId).Some? then Some(updated) else None
    ensures other != groupId ==>
      FindGroup(ReplaceGroup(groups, groupId, updated), other) == FindGroup(groups, other)
  {
    var r := ReplaceGroup(groups, groupId, updated);
    FirstIndexAgrees(groups, r, HasId(groupId));
    if other != groupId {
      FirstIndexAgrees(groups, r, HasId(other));
      var k := FirstIndex(groups, HasId(other));
      if k < |groups| {
        assert r[k] == groups[k];
      }
    }
  }

  /** After an add-member or permission update, the server's copy alone decides who may send there. */
  lemma ReplaceDecidesPermission(groups: seq<Group>, groupId: string, updated: Group, viewer: Option<string>)
    requires updated.id == groupId && FindGroup(groups, groupId).Some?
    ensures CanSendInGroup(ReplaceGroup(groups, groupId, updated), viewer, groupId)
        == CanSendInGroup([updated], viewer, groupId)
  {
    ReplaceGroupLookup(groups, groupId, updated, groupId);
    assert FindGroup([updated], groupId) == Some(updated);
  }

  lemma ReplaceGroupIdempotent(groups: seq<Group>, groupId: string, updated: Group)
    ensures ReplaceGroup(ReplaceGroup(groups, groupId, updated), groupId, updated)
         == ReplaceGroup(groups, groupId, updated)
  {
  }
}
