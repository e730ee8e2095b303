/**
 * The part of the document store the membership workflow and the migration
 * scripts touch: the `organizations` collection, each organization's
 * `projects` subcollection, and the legacy per-user `users/{uid}/projects`.
 */
module OrgDatabase {
  import opened Common
  import opened Organizations
  import opened Projects

  class Database {
    var orgs: map<DocId, Organization>
    var nextOrgId: DocId
    /** `organizations/{orgId}/projects`. */
    var orgProjects: map<DocId, map<DocId, Project>>
    /** `users/{uid}/projects`, the layout before organizations existed. */
    var userProjects: map<Uid, map<DocId, Project>>

    /** Organization ids are handed out from a counter, so `nextOrgId` is fresh. */
    ghost predicate Valid()
      reads this
    {
      forall id :: id in orgs ==> id < nextOrgId
    }

    /** A store holding the given organizations, with `next` above every id in use. */
    constructor (orgs0: map<DocId, Organization>, next: DocId, userProjects0: map<Uid, map<DocId, Project>>)
      requires forall id :: id in orgs0 ==> id < next
      ensures Valid()
      ensures orgs == orgs0 && nextOrgId == next
      ensures orgProjects == map[] && userProjects == userProjects0
    {
      orgs := orgs0;
      nextOrgId := next;
      orgProjects := map[];
      userProjects := userProjects0;
    }

    /** `addDoc` / `collection.doc().set`: the organization is stored under a fresh id. */
    method AddOrg(o: Organization) returns (id: DocId)
      requires Valid()
      modifies this
      ensures Valid()
      ensures id == old(nextOrgId) && nextOrgId == id + 1 && id !in old(orgs)
      ensures orgs == old(orgs)[id := o]
      ensures orgProjects == old(orgProjects) && userProjects == old(userProjects)
    {
      id := nextOrgId;
      orgs := orgs[id := o];
      nextOrgId := nextOrgId + 1;
    }

    /** `updateDoc` on an organization: fails, changing nothing, when the document does not exist. */
    method UpdateOrg(id: DocId, merge: Organization -> Organization) returns (ok: bool)
      requires Valid()
      modifies this
      ensures Valid()
      ensures ok <==> id in old(orgs)
      ensures orgs == if ok then old(orgs)[id := merge(old(orgs)[id])] else old(orgs)
      ensures nextOrgId == old(nextOrgId)
      ensures orgProjects == old(orgProjects) && userProjects == old(userProjects)
    {
      ok := id in orgs;
      if ok {
        orgs := orgs[id := merge(orgs[id])];
      }
    }

    /**
     * A committed batch of `update(orgRef, { memberUIDs })` writes. A batch is
     * atomic: it fails as a whole, changing nothing, when one of its documents
     * does not exist.
     */
    method CommitMemberUids(batch: map<DocId, seq<Uid>>) returns (ok: bool)
      requires Valid()
      modifies this
      ensures Valid()
      ensures ok <==> batch.Keys <= old(orgs).Keys
      ensures orgs == if ok
                      then (map id | id in old(orgs) ::
                              if id in batch then old(orgs)[id].(memberUIDs := Uids(batch[id])) else old(orgs)[id])
                      else old(orgs)
      ensures nextOrgId == old(nextOrgId)
      ensures orgProjects == old(orgProjects) && userProjects == old(userProjects)
    {
      ok := batch.Keys <= orgs.Keys;
      if ok {
        orgs := map id | id in orgs ::
                  if id in batch then orgs[id].(memberUIDs := Uids(batch[id])) else orgs[id];
      }
    }

    /**
     * A committed batch of `set` writes into `organizations/{orgId}/projects`,
     * each document keeping its id. The subcollection may be empty before.
     */
    method CommitProjectCopies(orgId: DocId, batch: map<DocId, Project>)
      requires Valid()
      modifies this
      ensures Valid()
      ensures orgProjects == old(orgProjects)[orgId := ProjectsOf(old(orgProjects), orgId) + batch]
      ensures orgs == old(orgs) && nextOrgId == old(nextOrgId) && userProjects == old(userProjects)
    {
      orgProjects := orgProjects[orgId := ProjectsOf(orgProjects, orgId) + batch];
    }
  }

  /** The projects subcollection of an organization; empty when it has none. */
  function ProjectsOf(orgProjects: map<DocId, map<DocId, Project>>, orgId: DocId): map<DocId, Project> {
    if orgId in orgProjects then orgProjects[orgId] else map[]
  }
}
