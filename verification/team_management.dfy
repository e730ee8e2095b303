/**
 * The team screen: the actor's role, the owner-gated role change and removal
 * of a member, and the invite that appends a placeholder member. Every write
 * replaces the whole `members` array of the organization with a list computed
 * from the screen's last snapshot, and none of them touches `memberUIDs`.
 */
module TeamManagement {
  import opened Common
  import opened Seqs
  import opened Organizations
  import opened OrgDatabase

  // ---------------------------------------------------------------------------
  // The member list operations.

  /** `members.find(m => m.uid === uid)`'s role, or '' when no entry has that uid. */
  function RoleOf(members: seq<Member>, uid: Uid): (r: Role)
    ensures uid !in UidsOf(members) ==> r == ""
    ensures uid in UidsOf(members) ==> r == members[FirstIndex(UidsOf(members), uid)].role
  {
    if members == [] then ""
    else
      assert UidsOf(members) == [members[0].uid] + UidsOf(members[1..]);
      if members[0].uid == uid then members[0].role
      else RoleOf(members[1..], uid)
  }

  /** `canManage`: the actor may invite. */
  predicate CanManage(role: Role) {
    role == OwnerRole || role == AdminRole
  }

  /** Someone with no entry in the organization gets the role '' and can manage nothing. */
  lemma OutsiderCannotManage(members: seq<Member>, uid: Uid)
    requires uid !in UidsOf(members)
    ensures RoleOf(members, uid) == "" && !CanManage(RoleOf(members, uid))
  {
  }

  /** The gate of role change and removal: only an owner, and never on their own entry. */
  predicate MayChange(actor: Identity, actorRole: Role, target: Member) {
    !(target.uid == actor.uid || actorRole != OwnerRole)
  }

  /** `members.map(m => m.uid === uid ? { ...m, role } : m)`. */
  function WithRole(members: seq<Member>, uid: Uid, role: Role): (r: seq<Member>)
    ensures |r| == |members| && UidsOf(r) == UidsOf(members)
    ensures forall i :: 0 <= i < |r| ==> r[i].email == members[i].email
    ensures forall i :: 0 <= i < |r| && r[i].uid == uid ==> r[i].role == role
    ensures forall i :: 0 <= i < |r| && members[i].uid != uid ==> r[i] == members[i]
  {
    seq(|members|, i requires 0 <= i < |members| =>
      if members[i].uid == uid then members[i].(role := role) else members[i])
  }

  /** `members.filter(m => m.uid !== uid)`. */
  function WithoutUid(members: seq<Member>, uid: Uid): (r: seq<Member>)
    ensures |r| <= |members|
    ensures uid !in UidsOf(r)
    ensures forall m :: m in r <==> m in members && m.uid != uid
    ensures uid !in UidsOf(members) ==> r == members
  {
    if members == [] then []
    else
      assert UidsOf(members) == [members[0].uid] + UidsOf(members[1..]);
      var rest := WithoutUid(members[1..], uid);
      if members[0].uid == uid then rest
      else
        assert UidsOf([members[0]] + rest) == [members[0].uid] + UidsOf(rest);
        [members[0]] + rest
  }

  /** Removal keeps the surviving entries in their original order: it distributes over concatenation. */
  lemma {:induction false} WithoutUidAppend(a: seq<Member>, b: seq<Member>, uid: Uid)
    ensures WithoutUid(a + b, uid) == WithoutUid(a, uid) + WithoutUid(b, uid)
  {
    if a == [] {
      assert a + b == b;
    } else {
      assert (a + b)[1..] == a[1..] + b;
      WithoutUidAppend(a[1..], b, uid);
    }
  }

  /** The uid given to an invited member until they register. */
  function PendingUid(email: Email): Uid {
    "pending_" + email
  }

  /** `[...members, { uid: 'pending_' + email, email, role }]`, with no check for an existing entry. */
  function WithInvite(members: seq<Member>, email: Email, role: Role): (r: seq<Member>)
    ensures |r| == |members| + 1 && r[..|members|] == members
    ensures r[|members|] == Member(PendingUid(email), email, role)
  {
    members + [Member(PendingUid(email), email, role)]
  }

  // ---------------------------------------------------------------------------
  // What the writes do to the organization's invariants.

  /** A role change keeps uids and order, so it keeps the ordered mirror. */
  lemma RoleChangeKeepsMirror(o: Organization, uid: Uid, role: Role)
    requires Mirrored(o)
    ensures Mirrored(o.(members := WithRole(o.members, uid, role)))
  {
  }

  /**
   * Removal writes only `members`: a uid that was mirrored stays in
   * `memberUIDs` with no entry left in `members`, so even the set mirror breaks.
   */
  lemma RemovalBreaksMirror(o: Organization, uid: Uid)
    requires MirroredAsSet(o)
    requires uid in UidsOf(o.members)
    ensures !MirroredAsSet(o.(members := WithoutUid(o.members, uid)))
  {
    assert uid in o.memberUIDs.uids;
  }

  /** Invite writes only `members`, so the ordered mirror never survives it. */
  lemma InviteBreaksMirror(o: Organization, email: Email, role: Role)
    requires Mirrored(o)
    ensures !Mirrored(o.(members := WithInvite(o.members, email, role)))
  {
    var r := WithInvite(o.members, email, role);
    assert |UidsOf(r)| != |UidsOf(o.members)|;
  }

  /** The placeholder uid is not in `memberUIDs` (unless it already was), so the set mirror breaks too. */
  lemma InviteBreaksSetMirror(o: Organization, email: Email, role: Role)
    requires MirroredAsSet(o)
    requires PendingUid(email) !in UidsOf(o.members)
    ensures !MirroredAsSet(o.(members := WithInvite(o.members, email, role)))
  {
    var r := WithInvite(o.members, email, role);
    assert UidsOf(r)[|o.members|] == PendingUid(email);
  }

  /** A change to someone else's entries leaves the actor's role as it was. */
  lemma ActorRoleUnchanged(members: seq<Member>, actor: Uid, uid: Uid, role: Role)
    requires actor != uid
    ensures RoleOf(WithRole(members, uid, role), actor) == RoleOf(members, actor)
    ensures RoleOf(WithoutUid(members, uid), actor) == RoleOf(members, actor)
  {
    var w := WithRole(members, uid, role);
    if actor in UidsOf(members) {
      var k := FirstIndex(UidsOf(members), actor);
      assert UidsOf(w) == UidsOf(members);
      assert w[k] == members[k];
    }
    RoleOfWithoutOther(members, actor, uid);
  }

  lemma {:induction false} RoleOfWithoutOther(members: seq<Member>, actor: Uid, uid: Uid)
    requires actor != uid
    ensures RoleOf(WithoutUid(members, uid), actor) == RoleOf(members, actor)
  {
    if members != [] {
      RoleOfWithoutOther(members[1..], actor, uid);
      var rest := WithoutUid(members[1..], uid);
      if members[0].uid != uid {
        assert ([members[0]] + rest)[1..] == rest;
      }
    }
  }

  /** Promoting nobody to owner never adds owners. */
  lemma {:induction false} RoleChangeAddsNoOwner(members: seq<Member>, uid: Uid, role: Role)
    requires role != OwnerRole
    ensures OwnerCount(WithRole(members, uid, role)) <= OwnerCount(members)
  {
    if members != [] {
      RoleChangeAddsNoOwner(members[1..], uid, role);
      assert WithRole(members, uid, role)[1..] == WithRole(members[1..], uid, role);
    }
  }

  // ---------------------------------------------------------------------------
  // The screen.

  datatype InviteOutcome =
    | Rejected      // the alert: no email, no organization loaded, or the actor cannot manage
    | Written       // the member list was written and the email field cleared
    | WriteFailed   // the update was refused (no such document); the email field keeps its text

  class TeamScreen {
    const db: Database
    const user: Identity
    /** The organization the screen is bound to. */
    const orgId: DocId
    /** The last snapshot of that organization, once one has arrived. */
    var organization: Option<Organization>
    var currentUserRole: Role
    var inviteEmail: Email
    var inviteRole: Role
    var loading: bool

    ghost predicate Valid()
      reads this, db
    {
      db.Valid()
    }

    constructor (db: Database, user: Identity, orgId: DocId)
      requires db.Valid()
      ensures Valid()
      ensures this.db == db && this.user == user && this.orgId == orgId
      ensures organization == None && currentUserRole == "" && inviteEmail == ""
      ensures inviteRole == EditorRole && loading
    {
      this.db := db;
      this.user := user;
      this.orgId := orgId;
      organization := None;
      currentUserRole := "";
      inviteEmail := "";
      inviteRole := EditorRole;
      loading := true;
    }

    /** A snapshot of the organization document: load it and look up the actor's role. */
    method OnSnapshot()
      requires Valid()
      modifies this
      ensures Valid() && !loading
      ensures orgId in db.orgs ==>
                organization == Some(db.orgs[orgId]) && currentUserRole == RoleOf(db.orgs[orgId].members, user.uid)
      ensures orgId !in db.orgs ==> organization == old(organization) && currentUserRole == old(currentUserRole)
      ensures inviteEmail == old(inviteEmail) && inviteRole == old(inviteRole)
    {
      if orgId in db.orgs {
        var o := db.orgs[orgId];
        organization := Some(o);
        currentUserRole := RoleOf(o.members, user.uid);
      }
      loading := false;
    }

    /** `MemberRow.handleRoleChange`: rewrites `members` from the snapshot with the target's role replaced. */
    method HandleRoleChange(target: Member, newRole: Role) returns (written: bool)
      requires Valid() && organization.Some?
      modifies db
      ensures Valid()
      ensures written <==> MayChange(user, currentUserRole, target) && orgId in old(db.orgs)
      ensures db.orgs == if written
                         then old(db.orgs)[orgId := old(db.orgs)[orgId].(members := WithRole(organization.value.members, target.uid, newRole))]
                         else old(db.orgs)
      ensures db.nextOrgId == old(db.nextOrgId)
      ensures db.orgProjects == old(db.orgProjects) && db.userProjects == old(db.userProjects)
    {
      if target.uid == user.uid || currentUserRole != OwnerRole {
        return false;
      }
      var updated := WithRole(organization.value.members, target.uid, newRole);
      written := db.UpdateOrg(orgId, (o: Organization) => o.(members := updated));
    }

    /** `MemberRow.handleRemoveMember`: rewrites `members` from the snapshot without the target's entries. */
    method HandleRemoveMember(target: Member) returns (written: bool)
      requires Valid() && organization.Some?
      modifies db
      ensures Valid()
      ensures written <==> MayChange(user, currentUserRole, target) && orgId in old(db.orgs)
      ensures db.orgs == if written
                         then old(db.orgs)[orgId := old(db.orgs)[orgId].(members := WithoutUid(organization.value.members, target.uid))]
                         else old(db.orgs)
      ensures db.nextOrgId == old(db.nextOrgId)
      ensures db.orgProjects == old(db.orgProjects) && db.userProjects == old(db.userProjects)
    {
      if target.uid == user.uid || currentUserRole != OwnerRole {
        return false;
      }
      var updated := WithoutUid(organization.value.members, target.uid);
      written := db.UpdateOrg(orgId, (o: Organization) => o.(members := updated));
    }

    /** `handleInvite`: appends the placeholder member to the snapshot's list and writes it. */
    method HandleInvite() returns (outcome: InviteOutcome)
      requires Valid()
      modifies this, db
      ensures Valid()
      ensures outcome == Rejected <==> old(inviteEmail) == "" || old(organization).None? || !CanManage(old(currentUserRole))
      ensures outcome == Written ==> orgId in old(db.orgs)
      ensures outcome == WriteFailed ==> orgId !in old(db.orgs)
      ensures db.orgs == if outcome == Written
                         then old(db.orgs)[orgId := old(db.orgs)[orgId].(members := WithInvite(old(organization).value.members, old(inviteEmail), old(inviteRole)))]
                         else old(db.orgs)
      ensures inviteEmail == if outcome == Written then "" else old(inviteEmail)
      ensures organization == old(organization) && currentUserRole == old(currentUserRole)
      ensures inviteRole == old(inviteRole) && loading == old(loading)
      ensures db.nextOrgId == old(db.nextOrgId)
      ensures db.orgProjects == old(db.orgProjects) && db.userProjects == old(db.userProjects)
    {
      if inviteEmail == "" || organization.None? || !CanManage(currentUserRole) {
        return Rejected;
      }
      var updated := WithInvite(organization.value.members, inviteEmail, inviteRole);
      var ok := db.UpdateOrg(orgId, (o: Organization) => o.(members := updated));
      if ok {
        inviteEmail := "";
        outcome := Written;
      } else {
        outcome := WriteFailed;
      }
    }
  }
}
