/**
 * The earlier migration script `migrate.js`: every listed user who owns no
 * organization gets one (without `memberUIDs`), and the user's projects under
 * `users/{uid}/projects` are copied, ids kept, into the new organization's
 * `projects` subcollection in one batch. One `try` wraps the whole loop, so
 * the first error ends the run for every remaining user.
 */
module UserMigration {
  import opened Common
  import opened Seqs
  import opened Organizations
  import opened Projects
  import opened OrgDatabase
  import opened OrgMigration

  /** The organization this script creates: one owner member and no `memberUIDs` field at all. */
  function LegacyOrg(user: Identity): (r: Organization)
    ensures r.ownerId == user.uid && r.name == user.email + "'s Organization"
    ensures r.members == [Member(user.uid, user.email, OwnerRole)] && OwnerCount(r.members) == 1
    ensures r.memberUIDs == Absent && !MirroredAsSet(r)
  {
    var r := Organization(user.uid, user.email + "'s Organization", [Member(user.uid, user.email, OwnerRole)],
                          Absent, [], None);
    assert r.members[1..] == [];
    r
  }

  /** The later script's repair turns such an organization into exactly the one the later script creates. */
  lemma RepairCompletesLegacyOrg(user: Identity)
    ensures NeedsRepair(LegacyOrg(user)) && Repaired(LegacyOrg(user)) == MigratedOrg(user)
  {
  }

  /** `users/{uid}/projects`, empty for a user who never had any. */
  function LegacyProjects(userProjects: map<Uid, map<DocId, Project>>, uid: Uid): map<DocId, Project> {
    if uid in userProjects then userProjects[uid] else map[]
  }

  /** What the script has written so far, and how many batches it committed. */
  datatype RunState = RunState(
    orgs: map<DocId, Organization>,
    next: DocId,
    orgProjects: map<DocId, map<DocId, Project>>,
    batches: nat)

  /** One user of the loop, carried through to the end. */
  function Step(s: RunState, user: Identity, userProjects: map<Uid, map<DocId, Project>>): RunState {
    if Owns(s.orgs, user.uid) then s
    else
      var created := RunState(s.orgs[s.next := LegacyOrg(user)], s.next + 1, s.orgProjects, s.batches);
      var copies := LegacyProjects(userProjects, user.uid);
      if copies == map[] then created
      else created.(orgProjects := s.orgProjects[s.next := ProjectsOf(s.orgProjects, s.next) + copies],
                    batches := s.batches + 1)
  }

  /** What one user costs: nothing for an owner; otherwise a new organization and, with old projects, one batch copying them all. */
  lemma StepProperties(s: RunState, user: Identity, userProjects: map<Uid, map<DocId, Project>>)
    // users who already own an organization are skipped
    ensures Owns(s.orgs, user.uid) ==> Step(s, user, userProjects) == s
    ensures !Owns(s.orgs, user.uid) ==>
              Step(s, user, userProjects).orgs == s.orgs[s.next := LegacyOrg(user)]
              && Step(s, user, userProjects).next == s.next + 1
    // no batch when there is nothing to copy
    ensures !Owns(s.orgs, user.uid) && LegacyProjects(userProjects, user.uid) == map[] ==>
              Step(s, user, userProjects).orgProjects == s.orgProjects && Step(s, user, userProjects).batches == s.batches
    // otherwise one batch, writing every old project under its own id
    ensures !Owns(s.orgs, user.uid) && LegacyProjects(userProjects, user.uid) != map[] ==>
              var r := Step(s, user, userProjects);
              r.batches == s.batches + 1 && r.orgProjects.Keys == s.orgProjects.Keys + {s.next}
              && (forall pid :: pid in LegacyProjects(userProjects, user.uid) ==>
                    pid in r.orgProjects[s.next] && r.orgProjects[s.next][pid] == LegacyProjects(userProjects, user.uid)[pid])
  {
  }

  /** The loop over a list of users, when nothing fails. */
  function RunAll(s: RunState, users: seq<Identity>, userProjects: map<Uid, map<DocId, Project>>): RunState {
    if users == [] then s
    else Step(RunAll(s, users[..|users| - 1], userProjects), users[|users| - 1], userProjects)
  }

  /** The organization write of one user, when the error comes after it (reading or copying the old projects). */
  function OrgOnly(s: RunState, user: Identity): (r: RunState)
    ensures Owns(s.orgs, user.uid) ==> r == s
    ensures !Owns(s.orgs, user.uid) ==> r == s.(orgs := s.orgs[s.next := LegacyOrg(user)], next := s.next + 1)
  {
    if Owns(s.orgs, user.uid) then s
    else s.(orgs := s.orgs[s.next := LegacyOrg(user)], next := s.next + 1)
  }

  /**
   * Where the run breaks, if it does: at the user with index `at`, either
   * before that user's organization is written or after it.
   */
  datatype Failure = Failure(at: nat, afterOrgWrite: bool)

  /** The whole run: the users before the failing one in full, the failing one perhaps in part, nobody after. */
  function Run(s: RunState, users: seq<Identity>, userProjects: map<Uid, map<DocId, Project>>, failure: Option<Failure>): RunState {
    var page := Take(users, UserPageSize);
    if failure.None? || failure.value.at >= |page| then RunAll(s, page, userProjects)
    else
      var done := RunAll(s, page[..failure.value.at], userProjects);
      if failure.value.afterOrgWrite then OrgOnly(done, page[failure.value.at]) else done
  }

  /** Without a failure every considered user ends up owning an organization. */
  lemma {:induction false} RunAllOwnsAll(s: RunState, users: seq<Identity>, userProjects: map<Uid, map<DocId, Project>>)
    requires Fresh(OrgTable(s.orgs, s.next))
    ensures Fresh(OrgTable(RunAll(s, users, userProjects).orgs, RunAll(s, users, userProjects).next))
    ensures forall id :: id in s.orgs ==>
              id in RunAll(s, users, userProjects).orgs && RunAll(s, users, userProjects).orgs[id] == s.orgs[id]
    ensures forall i :: 0 <= i < |users| ==> Owns(RunAll(s, users, userProjects).orgs, users[i].uid)
  {
    if users != [] {
      var p := users[..|users| - 1];
      RunAllOwnsAll(s, p, userProjects);
      var before := RunAll(s, p, userProjects);
      StepProperties(before, users[|users| - 1], userProjects);
      var r := RunAll(s, users, userProjects);
      forall i | 0 <= i < |users| ensures Owns(r.orgs, users[i].uid) {
        if i < |p| {
          assert users[i] == p[i];
          var k :| k in before.orgs && before.orgs[k].ownerId == p[i].uid;
          assert r.orgs[k] == before.orgs[k];
        } else if !Owns(before.orgs, users[i].uid) {
          assert r.orgs[before.next].ownerId == users[i].uid;
        }
      }
    }
  }

  /** Each user costs at most one new organization and at most one batch. */
  lemma {:induction false} RunAllBatchBound(s: RunState, users: seq<Identity>, userProjects: map<Uid, map<DocId, Project>>)
    ensures RunAll(s, users, userProjects).batches <= s.batches + |users|
    ensures RunAll(s, users, userProjects).next - s.next <= |users|
    ensures s.next <= RunAll(s, users, userProjects).next
  {
    if users != [] {
      RunAllBatchBound(s, users[..|users| - 1], userProjects);
      StepProperties(RunAll(s, users[..|users| - 1], userProjects), users[|users| - 1], userProjects);
    }
  }

  /** The loop body for one user: skip an owner, otherwise create the organization and copy the old projects. */
  method MigrateUser(db: Database, user: Identity, batches: nat) returns (batchesAfter: nat)
    requires db.Valid()
    modifies db
    ensures db.Valid() && db.userProjects == old(db.userProjects)
    ensures RunState(db.orgs, db.nextOrgId, db.orgProjects, batchesAfter)
            == Step(RunState(old(db.orgs), old(db.nextOrgId), old(db.orgProjects), batches), user, db.userProjects)
  {
    batchesAfter := batches;
    if !Owns(db.orgs, user.uid) {
      var orgId := db.AddOrg(LegacyOrg(user));
      var oldProjects := LegacyProjects(db.userProjects, user.uid);
      if oldProjects != map[] {
        db.CommitProjectCopies(orgId, oldProjects);
        batchesAfter := batches + 1;
      }
    }
  }

  /** The user at which the run throws: its organization is written only when the error comes after that write. */
  method FailingUser(db: Database, user: Identity, afterOrgWrite: bool)
    requires db.Valid()
    modifies db
    ensures db.Valid() && db.userProjects == old(db.userProjects) && db.orgProjects == old(db.orgProjects)
    ensures var s := RunState(old(db.orgs), old(db.nextOrgId), old(db.orgProjects), 0);
            var r := if afterOrgWrite then OrgOnly(s, user) else s;
            db.orgs == r.orgs && db.nextOrgId == r.next
  {
    if afterOrgWrite && !Owns(db.orgs, user.uid) {
      var _ := db.AddOrg(LegacyOrg(user));
    }
  }

  /** `migrateUsers` against the store; `failure` says where, if anywhere, an operation throws. */
  method MigrateUsers(db: Database, users: seq<Identity>, failure: Option<Failure>) returns (batches: nat)
    requires db.Valid()
    modifies db
    ensures db.Valid()
    ensures var r := Run(RunState(old(db.orgs), old(db.nextOrgId), old(db.orgProjects), 0), users, old(db.userProjects), failure);
            db.orgs == r.orgs && db.nextOrgId == r.next && db.orgProjects == r.orgProjects && batches == r.batches
    // the old projects are copied, never deleted
    ensures db.userProjects == old(db.userProjects)
  {
    ghost var s0 := RunState(db.orgs, db.nextOrgId, db.orgProjects, 0);
    var page := Take(users, UserPageSize);
    var stop := if failure.Some? && failure.value.at < |page| then failure.value.at else |page|;
    batches := 0;
    var i := 0;
    while i < stop
      invariant 0 <= i <= stop <= |page|
      invariant db.Valid() && db.userProjects == old(db.userProjects)
      invariant RunState(db.orgs, db.nextOrgId, db.orgProjects, batches) == RunAll(s0, page[..i], db.userProjects)
    {
      assert page[..i + 1][..i] == page[..i];
      batches := MigrateUser(db, page[i], batches);
      i := i + 1;
    }
    if stop < |page| {
      FailingUser(db, page[stop], failure.value.afterOrgWrite);
    } else {
      assert page[..|page|] == page;
    }
  }
}
