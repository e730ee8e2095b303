/**
 * The organization document: owner, name, the ordered member list, the
 * `memberUIDs` index kept beside it for array-contains queries, and the
 * pending invites. Also the two writes the invitation screen performs on it.
 */
module Organizations {
  import opened Common
  import opened Seqs

  type Uid = string
  type Email = string
  /** Roles are free-form strings in the documents; these four are the ones the screens offer. */
  type Role = string

  const OwnerRole: Role := "owner"
  const AdminRole: Role := "admin"
  const EditorRole: Role := "editor"
  const ViewerRole: Role := "viewer"

  /** A signed-in identity. */
  datatype Identity = Identity(uid: Uid, email: Email)

  datatype Member = Member(uid: Uid, email: Email, role: Role)

  /** The `memberUIDs` field as stored: missing (older documents), present but not an array, or an array. */
  datatype UidField = Absent | Malformed | Uids(uids: seq<Uid>)

  datatype Organization = Organization(
    ownerId: Uid,
    name: string,
    members: seq<Member>,
    memberUIDs: UidField,
    pendingInvites: seq<Email>,
    createdAt: Option<Timestamp>)

  /** `members.map(m => m.uid)`. */
  function UidsOf(members: seq<Member>): seq<Uid> {
    seq(|members|, i requires 0 <= i < |members| => members[i].uid)
  }

  /** The intended invariant: `memberUIDs` lists the uids of `members`, in the same order. */
  predicate Mirrored(o: Organization) {
    o.memberUIDs == Uids(UidsOf(o.members))
  }

  /** The weaker invariant: `memberUIDs` is an array holding the same uids as `members`. */
  predicate MirroredAsSet(o: Organization) {
    o.memberUIDs.Uids?
    && (forall u :: u in o.memberUIDs.uids ==> u in UidsOf(o.members))
    && (forall u :: u in UidsOf(o.members) ==> u in o.memberUIDs.uids)
  }

  /** The number of members whose role is `owner`. */
  function OwnerCount(members: seq<Member>): nat {
    if members == [] then 0
    else (if members[0].role == OwnerRole then 1 else 0) + OwnerCount(members[1..])
  }

  lemma MirroredIsMirroredAsSet(o: Organization)
    requires Mirrored(o)
    ensures MirroredAsSet(o)
  {
  }

  // ---------------------------------------------------------------------------
  // Accepting an invitation: one update of three fields.

  /**
   * `arrayUnion(uid)` on `memberUIDs`; on a field that is missing or not an
   * array the store writes an array holding just that uid.
   */
  function UnionUid(f: UidField, u: Uid): (r: UidField)
    ensures r.Uids? && u in r.uids
    ensures f.Uids? ==> r.uids == ArrayUnion(f.uids, u)
    ensures !f.Uids? ==> r.uids == [u]
  {
    match f
    case Uids(s) => Uids(ArrayUnion(s, u))
    case _ => Uids([u])
  }

  /** The member entry written on accept: the role is always `viewer`. */
  function InviteeEntry(user: Identity): Member {
    Member(user.uid, user.email, ViewerRole)
  }

  /**
   * The accept update: `arrayUnion` of the viewer entry on `members`, `arrayUnion`
   * of the uid on `memberUIDs`, `arrayRemove` of the email on `pendingInvites`.
   */
  function Accepted(o: Organization, user: Identity): (r: Organization)
    ensures r.ownerId == o.ownerId && r.name == o.name && r.createdAt == o.createdAt
    // members: the old entries in order, then at most one new entry, the viewer entry
    ensures |o.members| <= |r.members| <= |o.members| + 1 && r.members[..|o.members|] == o.members
    ensures InviteeEntry(user) in r.members
    ensures forall i :: |o.members| <= i < |r.members| ==> r.members[i] == Member(user.uid, user.email, ViewerRole)
    ensures InviteeEntry(user) in o.members ==> r.members == o.members
    ensures InviteeEntry(user) !in o.members ==> r.members == o.members + [InviteeEntry(user)]
    // memberUIDs: an array that now holds the uid, keeping an old array's entries; anything else is overwritten
    ensures r.memberUIDs.Uids? && user.uid in r.memberUIDs.uids
    ensures o.memberUIDs.Uids? ==> r.memberUIDs.uids == ArrayUnion(o.memberUIDs.uids, user.uid)
    ensures !o.memberUIDs.Uids? ==> r.memberUIDs.uids == [user.uid]
    // pendingInvites: every occurrence of the email is gone, every other invite stays
    ensures user.email !in r.pendingInvites
    ensures forall e :: e in r.pendingInvites <==> e in o.pendingInvites && e != user.email
  {
    o.(members := ArrayUnion(o.members, InviteeEntry(user)),
       memberUIDs := UnionUid(o.memberUIDs, user.uid),
       pendingInvites := ArrayRemove(o.pendingInvites, user.email))
  }

  lemma UidsOfAppend(ms: seq<Member>, m: Member)
    ensures UidsOf(ms + [m]) == UidsOf(ms) + [m.uid]
  {
  }

  /** A uid missing from `members` and the mirror that held before still holds after accept. */
  lemma AcceptPreservesMirror(o: Organization, user: Identity)
    requires Mirrored(o)
    requires user.uid !in UidsOf(o.members)
    ensures Mirrored(Accepted(o, user))
  {
    var m := InviteeEntry(user);
    assert m !in o.members by {
      forall i | 0 <= i < |o.members| ensures o.members[i] != m {
        assert UidsOf(o.members)[i] == o.members[i].uid;
      }
    }
    UidsOfAppend(o.members, m);
  }

  /** Accept always keeps the set mirror: the uid lands in both fields. */
  lemma AcceptPreservesMirrorAsSet(o: Organization, user: Identity)
    requires MirroredAsSet(o)
    ensures MirroredAsSet(Accepted(o, user))
  {
    var r := Accepted(o, user);
    forall u | u in UidsOf(r.members) ensures u in r.memberUIDs.uids {
      var i :| 0 <= i < |r.members| && r.members[i].uid == u;
      if i < |o.members| {
        assert UidsOf(o.members)[i] == u;
      }
    }
    forall u | u in r.memberUIDs.uids ensures u in UidsOf(r.members) {
      if u == user.uid {
        var i :| 0 <= i < |r.members| && r.members[i] == InviteeEntry(user);
        assert UidsOf(r.members)[i] == u;
      } else {
        assert u in o.memberUIDs.uids;
        var i :| 0 <= i < |o.members| && o.members[i].uid == u;
        assert UidsOf(r.members)[i] == u;
      }
    }
  }

  /**
   * The ordered mirror is not kept in general: a uid already present with
   * another role gets a second, viewer entry while `memberUIDs` stays as it was.
   */
  lemma AcceptCanBreakOrderedMirror()
    ensures var o := Organization("o", "T", [Member("u", "u@x.com", "editor")], Uids(["u"]), ["u@x.com"], None);
            Mirrored(o) && !Mirrored(Accepted(o, Identity("u", "u@x.com")))
  {
    var o := Organization("o", "T", [Member("u", "u@x.com", "editor")], Uids(["u"]), ["u@x.com"], None);
    var r := Accepted(o, Identity("u", "u@x.com"));
    assert Member("u", "u@x.com", "viewer") != Member("u", "u@x.com", "editor");
    assert |r.members| == 2;
  }

  /** Accepting twice is the same as accepting once. */
  lemma AcceptIdempotent(o: Organization, user: Identity)
    ensures Accepted(Accepted(o, user), user) == Accepted(o, user)
  {
    var r := Accepted(o, user);
    assert ArrayRemove(r.pendingInvites, user.email) == r.pendingInvites;
  }

  // ---------------------------------------------------------------------------
  // Declining an invitation and provisioning an organization of one's own.

  /** The first write of decline: `arrayRemove(email)` on `pendingInvites` and nothing else. */
  function InviteRemoved(o: Organization, email: Email): (r: Organization)
    ensures r.ownerId == o.ownerId && r.name == o.name && r.members == o.members
    ensures r.memberUIDs == o.memberUIDs && r.createdAt == o.createdAt
    ensures email !in r.pendingInvites
    ensures forall e :: e in r.pendingInvites <==> e in o.pendingInvites && e != email
  {
    o.(pendingInvites := ArrayRemove(o.pendingInvites, email))
  }

  /** `email.split('@')[0]`: the text before the first '@', or all of it when there is none. */
  function LocalPart(email: string): (r: string)
    ensures '@' !in r
    ensures |r| <= |email| && r == email[..|r|]
    ensures |r| < |email| ==> email[|r|] == '@'
  {
    if email == [] then []
    else if email[0] == '@' then []
    else [email[0]] + LocalPart(email[1..])
  }

  /** The name of an organization created on decline: the local part followed by "'s Team". */
  function TeamName(email: Email): string {
    LocalPart(email) + "'s Team"
  }

  /** The organization created on decline, owned by the declining identity alone. */
  function NewTeamOrg(user: Identity, now: Timestamp): (r: Organization)
    ensures r.ownerId == user.uid
    ensures r.members == [Member(user.uid, user.email, OwnerRole)]
    ensures r.pendingInvites == []
    ensures r.name == TeamName(user.email)
  {
    Organization(user.uid, TeamName(user.email), [Member(user.uid, user.email, OwnerRole)],
                 Uids([user.uid]), [], Some(now))
  }

  /** The new organization satisfies the mirror and has exactly one owner, its creator. */
  lemma NewTeamOrgWellFormed(user: Identity, now: Timestamp)
    ensures Mirrored(NewTeamOrg(user, now))
    ensures OwnerCount(NewTeamOrg(user, now).members) == 1
    ensures RoleOfIs(NewTeamOrg(user, now).members, user.uid, OwnerRole)
  {
    var ms := NewTeamOrg(user, now).members;
    assert ms[1..] == [];
  }

  /** Some entry for uid carries the given role. */
  predicate RoleOfIs(members: seq<Member>, uid: Uid, role: Role) {
    exists i :: 0 <= i < |members| && members[i].uid == uid && members[i].role == role
  }

  /** The name keeps exactly what precedes the first '@', or the whole address when it has none. */
  lemma TeamNameBeforeFirstAt(email: Email, k: nat)
    requires k <= |email| && '@' !in email[..k]
    requires k < |email| ==> email[k] == '@'
    ensures LocalPart(email) == email[..k]
    ensures TeamName(email) == email[..k] + "'s Team"
  {
    var r := LocalPart(email);
    forall i | 0 <= i < k ensures email[i] != '@' {
      assert email[..k][i] == email[i];
    }
    forall i | 0 <= i < |r| ensures email[i] != '@' {
      assert r[i] == email[i];
    }
    assert |r| == k;
  }
}
