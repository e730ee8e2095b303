/**
 * The screen shown to a signed-in identity with a pending invitation: accept
 * (join the inviting organization as a viewer) or decline and create an
 * organization of one's own. A write the backend refuses, whether because it
 * is unreachable or because the document is gone, is caught and logged, and
 * the decision callback is then not called.
 */
module InvitationScreen {
  import opened Common
  import opened Organizations
  import opened OrgDatabase

  /** The invitation being answered: the inviting organization and its display name. */
  datatype Invitation = Invitation(orgId: DocId, orgName: string)

  class InvitationScreen {
    const db: Database
    const user: Identity
    const invitation: Invitation

    ghost predicate Valid()
      reads this, db
    {
      db.Valid()
    }

    constructor (db: Database, user: Identity, invitation: Invitation)
      requires db.Valid()
      ensures Valid() && this.db == db && this.user == user && this.invitation == invitation
    {
      this.db := db;
      this.user := user;
      this.invitation := invitation;
    }

    /**
     * `handleAccept`: one update of the inviting organization. `online` says
     * whether the backend takes the write; `decided` is whether `onDecision` ran.
     */
    method HandleAccept(online: bool) returns (decided: bool)
      requires Valid()
      modifies db
      ensures Valid()
      ensures decided <==> online && invitation.orgId in old(db.orgs)
      ensures db.orgs == if decided
                         then old(db.orgs)[invitation.orgId := Accepted(old(db.orgs)[invitation.orgId], user)]
                         else old(db.orgs)
      ensures db.nextOrgId == old(db.nextOrgId)
      ensures db.orgProjects == old(db.orgProjects) && db.userProjects == old(db.userProjects)
    {
      if !online {
        return false;
      }
      decided := db.UpdateOrg(invitation.orgId, (o: Organization) => Accepted(o, user));
    }

    /**
     * `handleDeclineAndCreate`: two separate writes. The first removes the
     * email from the inviting organization's pending invites; the second adds
     * a new organization owned by the user. `firstOnline` and `secondOnline`
     * say whether the backend takes each write; `now` is the server time.
     */
    method HandleDeclineAndCreate(firstOnline: bool, secondOnline: bool, now: Timestamp)
      returns (decided: bool, newOrgId: Option<DocId>)
      requires Valid()
      modifies db
      ensures Valid()
      ensures decided <==> firstOnline && invitation.orgId in old(db.orgs) && secondOnline
      ensures decided <==> newOrgId.Some?
      // the first write, when it went through
      ensures var declined := firstOnline && invitation.orgId in old(db.orgs);
              var afterFirst := if declined
                                then old(db.orgs)[invitation.orgId := InviteRemoved(old(db.orgs)[invitation.orgId], user.email)]
                                else old(db.orgs);
              // the second write, only after the first
              db.orgs == if decided then afterFirst[newOrgId.value := NewTeamOrg(user, now)] else afterFirst
      ensures newOrgId.Some? ==> newOrgId.value !in old(db.orgs) && newOrgId.value == old(db.nextOrgId)
      ensures db.orgProjects == old(db.orgProjects) && db.userProjects == old(db.userProjects)
    {
      newOrgId := None;
      if !firstOnline {
        return false, None;
      }
      var removed := db.UpdateOrg(invitation.orgId, (o: Organization) => InviteRemoved(o, user.email));
      if !removed || !secondOnline {
        return false, None;
      }
      var id := db.AddOrg(NewTeamOrg(user, now));
      return true, Some(id);
    }
  }
}
