/**
 * The one-off migration script `migrate.cjs`. Part 1 gives every listed user
 * who owns no organization one of their own, with `memberUIDs` filled in.
 * Part 2 adds `memberUIDs`, rebuilt from `members`, to every organization
 * where it is missing or not an array, in one batch.
 */
module OrgMigration {
  import opened Common
  import opened Seqs
  import opened Organizations
  import opened OrgDatabase

  /** `listUsers(1000)`: the script sees at most the first page of users. */
  const UserPageSize: nat := 1000

  /** The organization part 1 creates: the user alone, as owner, mirrored into `memberUIDs`. */
  function MigratedOrg(user: Identity): (r: Organization)
    ensures r.ownerId == user.uid && r.name == user.email + "'s Organization"
    ensures Mirrored(r) && OwnerCount(r.members) == 1 && RoleOfIs(r.members, user.uid, OwnerRole)
  {
    var r := Organization(user.uid, user.email + "'s Organization", [Member(user.uid, user.email, OwnerRole)],
                          Uids([user.uid]), [], None);
    assert r.members[1..] == [];
    r
  }

  /** The query `where('ownerId', '==', uid)` is not empty. */
  predicate Owns(orgs: map<DocId, Organization>, uid: Uid) {
    exists id :: id in orgs && orgs[id].ownerId == uid
  }

  /** The organizations collection together with the next fresh id. */
  datatype OrgTable = OrgTable(orgs: map<DocId, Organization>, next: DocId)

  predicate Fresh(t: OrgTable) {
    forall id :: id in t.orgs ==> id < t.next
  }

  /** Part 1 on a list of users, one user after the other. */
  function Provision(t: OrgTable, users: seq<Identity>): OrgTable
  {
    if users == [] then t
    else
      var before := Provision(t, users[..|users| - 1]);
      var u := users[|users| - 1];
      if Owns(before.orgs, u.uid) then before
      else OrgTable(before.orgs[before.next := MigratedOrg(u)], before.next + 1)
  }

  /** Part 1 only adds organizations: every existing one keeps its id and content. */
  lemma {:induction false} ProvisionKeepsExisting(t: OrgTable, users: seq<Identity>)
    requires Fresh(t)
    ensures Fresh(Provision(t, users)) && t.next <= Provision(t, users).next
    ensures forall id :: id in t.orgs ==> id in Provision(t, users).orgs && Provision(t, users).orgs[id] == t.orgs[id]
  {
    if users != [] {
      ProvisionKeepsExisting(t, users[..|users| - 1]);
    }
  }

  /** Every organization part 1 creates is one user's `MigratedOrg`, for a user who owned none before. */
  lemma {:induction false} ProvisionCreatesOnlyMigratedOrgs(t: OrgTable, users: seq<Identity>)
    requires Fresh(t)
    ensures forall id :: id in Provision(t, users).orgs && id !in t.orgs ==>
              exists i :: 0 <= i < |users| && Provision(t, users).orgs[id] == MigratedOrg(users[i])
                                           && !Owns(t.orgs, users[i].uid)
  {
    if users != [] {
      var p := users[..|users| - 1];
      ProvisionCreatesOnlyMigratedOrgs(t, p);
      ProvisionKeepsExisting(t, p);
      var before := Provision(t, p);
      var u := users[|users| - 1];
      var r := Provision(t, users);
      forall id | id in r.orgs && id !in t.orgs
        ensures exists i :: 0 <= i < |users| && r.orgs[id] == MigratedOrg(users[i]) && !Owns(t.orgs, users[i].uid)
      {
        if id in before.orgs {
          var i :| 0 <= i < |p| && before.orgs[id] == MigratedOrg(p[i]) && !Owns(t.orgs, p[i].uid);
          assert users[i] == p[i];
        } else {
          assert !Owns(before.orgs, u.uid) && r.orgs[id] == MigratedOrg(u);
          forall k | k in t.orgs ensures t.orgs[k].ownerId != u.uid {
            assert k in before.orgs && before.orgs[k] == t.orgs[k];
          }
        }
      }
    }
  }

  /** After part 1 every user it considered owns an organization. */
  lemma {:induction false} ProvisionOwnsAll(t: OrgTable, users: seq<Identity>)
    requires Fresh(t)
    ensures forall i :: 0 <= i < |users| ==> Owns(Provision(t, users).orgs, users[i].uid)
  {
    if users != [] {
      var p := users[..|users| - 1];
      ProvisionOwnsAll(t, p);
      var before := Provision(t, p);
      ProvisionKeepsExisting(t, p);
      var r := Provision(t, users);
      forall i | 0 <= i < |users| ensures Owns(r.orgs, users[i].uid) {
        if i < |p| {
          assert users[i] == p[i];
          var k :| k in before.orgs && before.orgs[k].ownerId == p[i].uid;
          assert r.orgs[k] == before.orgs[k];
        } else {
          var u := users[|users| - 1];
          if !Owns(before.orgs, u.uid) {
            assert r.orgs[before.next].ownerId == u.uid;
          }
        }
      }
    }
  }

  /** When every user already owns an organization, part 1 writes nothing. */
  lemma {:induction false} ProvisionNoOp(t: OrgTable, users: seq<Identity>)
    requires forall i :: 0 <= i < |users| ==> Owns(t.orgs, users[i].uid)
    ensures Provision(t, users) == t
  {
    if users != [] {
      ProvisionNoOp(t, users[..|users| - 1]);
    }
  }

  /** Part 2's test: `!memberUIDs || !Array.isArray(memberUIDs)`. An empty array passes it. */
  predicate NeedsRepair(o: Organization) {
    !o.memberUIDs.Uids?
  }

  /** Part 2 on one organization. */
  function Repaired(o: Organization): (r: Organization)
    ensures NeedsRepair(o) ==> r == o.(memberUIDs := Uids(UidsOf(o.members))) && Mirrored(r)
    ensures !NeedsRepair(o) ==> r == o
    ensures !NeedsRepair(r)
  {
    if NeedsRepair(o) then o.(memberUIDs := Uids(UidsOf(o.members))) else o
  }

  /** Part 2 on the whole collection. */
  function RepairAll(orgs: map<DocId, Organization>): (r: map<DocId, Organization>)
    ensures r.Keys == orgs.Keys
    ensures forall id :: id in r ==> r[id] == Repaired(orgs[id])
  {
    map id | id in orgs :: Repaired(orgs[id])
  }

  /** The batch part 2 builds: the rebuilt uid list of every organization that needs one. */
  function RepairBatch(orgs: map<DocId, Organization>): (batch: map<DocId, seq<Uid>>)
    ensures batch.Keys <= orgs.Keys
    ensures forall id :: id in batch <==> id in orgs && NeedsRepair(orgs[id])
    ensures forall id :: id in batch ==> batch[id] == UidsOf(orgs[id].members)
    // writing the batch is exactly part 2: the batched ids get what RepairAll gives them
    ensures forall id :: id in batch ==> RepairAll(orgs)[id] == orgs[id].(memberUIDs := Uids(batch[id]))
  {
    map id | id in orgs && NeedsRepair(orgs[id]) :: UidsOf(orgs[id].members)
  }

  /** After part 2 every organization has an array `memberUIDs`; the repaired ones mirror `members`. */
  lemma RepairEstablishesArrays(orgs: map<DocId, Organization>)
    ensures forall id :: id in RepairAll(orgs) ==> !NeedsRepair(RepairAll(orgs)[id])
    ensures forall id :: id in orgs && NeedsRepair(orgs[id]) ==> Mirrored(RepairAll(orgs)[id])
  {
  }

  /** An array `memberUIDs` is left as it is, even one that disagrees with `members`. */
  lemma RepairKeepsWrongArrays()
    ensures var o := Organization("a", "T", [Member("a", "a@x.com", OwnerRole)], Uids([]), [], None);
            !Mirrored(o) && RepairAll(map[0 := o]) == map[0 := o]
  {
    var o := Organization("a", "T", [Member("a", "a@x.com", OwnerRole)], Uids([]), [], None);
    assert UidsOf(o.members) == ["a"];
    assert RepairAll(map[0 := o])[0] == o;
  }

  /** A second pass of part 2 finds nothing to update. */
  lemma RepairIdempotent(orgs: map<DocId, Organization>)
    ensures RepairBatch(RepairAll(orgs)) == map[]
    ensures RepairAll(RepairAll(orgs)) == RepairAll(orgs)
  {
  }

  /** Part 2 changes no owner, so it cannot change what part 1 would do. */
  lemma RepairKeepsOwners(orgs: map<DocId, Organization>, uid: Uid)
    ensures Owns(RepairAll(orgs), uid) <==> Owns(orgs, uid)
  {
    if Owns(orgs, uid) {
      var k :| k in orgs && orgs[k].ownerId == uid;
      assert RepairAll(orgs)[k].ownerId == uid;
    }
  }

  /** The whole script on a table. */
  function Migrate(t: OrgTable, users: seq<Identity>): OrgTable {
    var p := Provision(t, Take(users, UserPageSize));
    OrgTable(RepairAll(p.orgs), p.next)
  }

  /** Running the script a second time creates no organization and repairs nothing. */
  lemma MigrateTwiceIsOnce(t: OrgTable, users: seq<Identity>)
    requires Fresh(t)
    ensures Migrate(Migrate(t, users), users) == Migrate(t, users)
  {
    var us := Take(users, UserPageSize);
    var m := Migrate(t, users);
    ProvisionOwnsAll(t, us);
    forall i | 0 <= i < |us| ensures Owns(m.orgs, us[i].uid) {
      RepairKeepsOwners(Provision(t, us).orgs, us[i].uid);
    }
    ProvisionNoOp(m, us);
    RepairIdempotent(Provision(t, us).orgs);
  }

  /** Part 1 over two lists of users is part 1 over the first, then over the second. */
  lemma {:induction false} ProvisionAppend(t: OrgTable, a: seq<Identity>, b: seq<Identity>)
    ensures Provision(t, a + b) == Provision(Provision(t, a), b)
    decreases |b|
  {
    if b == [] {
      assert a + b == a;
    } else {
      var n := |b| - 1;
      assert (a + b)[..|a + b| - 1] == a + b[..n];
      assert (a + b)[|a + b| - 1] == b[n];
      ProvisionAppend(t, a, b[..n]);
    }
  }

  /**
   * Where the script ends. Nothing catches a rejected request, so the first
   * one ends the run: a read or the organization write for the user at `at`
   * of the page, or the final commit of part 2.
   */
  datatype Stop = Completes | UserFails(at: nat) | CommitRejected

  /** What the collection holds when the script ends at `stop`. */
  function MigrateUntil(t: OrgTable, users: seq<Identity>, stop: Stop): (r: OrgTable)
    ensures stop.Completes? ==> r == Migrate(t, users)
  {
    var page := Take(users, UserPageSize);
    match stop
    case Completes => Migrate(t, users)
    case UserFails(at) => if at < |page| then Provision(t, page[..at]) else Migrate(t, users)
    case CommitRejected => Provision(t, page)
  }

  /** Running the script again after it stopped gives what one uninterrupted run gives. */
  lemma RerunAfterStop(t: OrgTable, users: seq<Identity>, stop: Stop)
    requires Fresh(t)
    ensures Migrate(MigrateUntil(t, users, stop), users) == Migrate(t, users)
  {
    var page := Take(users, UserPageSize);
    var at := if stop.UserFails? && stop.at < |page| then stop.at else |page|;
    if stop.Completes? || (stop.UserFails? && stop.at >= |page|) {
      MigrateTwiceIsOnce(t, users);
    } else {
      var done := Provision(t, page[..at]);
      assert page[..|page|] == page;
      assert done == MigrateUntil(t, users, stop);
      ProvisionOwnsAll(t, page[..at]);
      forall i | 0 <= i < at ensures Owns(done.orgs, page[i].uid) {
        assert page[..at][i] == page[i];
      }
      ProvisionAppend(done, page[..at], page[at..]);
      assert page[..at] + page[at..] == page;
      ProvisionNoOp(done, page[..at]);
      ProvisionAppend(t, page[..at], page[at..]);
    }
  }

  /** Part 2's `forEach` over the snapshot: an update for every organization that needs one. */
  method CollectRepairBatch(snapshot: map<DocId, Organization>) returns (batch: map<DocId, seq<Uid>>)
    ensures batch == RepairBatch(snapshot)
  {
    batch := map[];
    var toVisit := snapshot.Keys;
    while toVisit != {}
      invariant toVisit <= snapshot.Keys
      invariant batch == map id | id in snapshot.Keys - toVisit && NeedsRepair(snapshot[id]) :: UidsOf(snapshot[id].members)
      decreases toVisit
    {
      var id :| id in toVisit;
      if NeedsRepair(snapshot[id]) {
        batch := batch[id := UidsOf(snapshot[id].members)];
      }
      toVisit := toVisit - {id};
    }
  }

  /** Part 1: an organization for every user of the page who owns none. */
  method ProvisionUsers(db: Database, page: seq<Identity>)
    requires db.Valid()
    modifies db
    ensures db.Valid()
    ensures OrgTable(db.orgs, db.nextOrgId) == Provision(OrgTable(old(db.orgs), old(db.nextOrgId)), page)
    ensures db.orgProjects == old(db.orgProjects) && db.userProjects == old(db.userProjects)
  {
    ghost var t0 := OrgTable(db.orgs, db.nextOrgId);
    var i := 0;
    while i < |page|
      invariant 0 <= i <= |page|
      invariant db.Valid()
      invariant OrgTable(db.orgs, db.nextOrgId) == Provision(t0, page[..i])
      invariant db.orgProjects == old(db.orgProjects) && db.userProjects == old(db.userProjects)
    {
      var user := page[i];
      assert page[..i + 1][..i] == page[..i];
      if !Owns(db.orgs, user.uid) {
        var _ := db.AddOrg(MigratedOrg(user));
      }
      i := i + 1;
    }
    assert page[..|page|] == page;
  }

  /**
   * `migrateData`: part 1 over the first page of users, then part 2 as one
   * batch. `stop` is the rejected request that ends the run, if any.
   */
  method MigrateData(db: Database, users: seq<Identity>, stop: Stop) returns (completed: bool)
    requires db.Valid()
    modifies db
    ensures db.Valid()
    ensures completed <==> stop.Completes? || (stop.UserFails? && stop.at >= |Take(users, UserPageSize)|)
    ensures OrgTable(db.orgs, db.nextOrgId) == MigrateUntil(OrgTable(old(db.orgs), old(db.nextOrgId)), users, stop)
    ensures db.orgProjects == old(db.orgProjects) && db.userProjects == old(db.userProjects)
  {
    var page := Take(users, UserPageSize);
    if stop.UserFails? && stop.at < |page| {
      ProvisionUsers(db, page[..stop.at]);
      return false;
    }
    ProvisionUsers(db, page);
    if stop.CommitRejected? {
      return false;
    }
    // part 2: collect the batch over the snapshot, then commit it
    var snapshot := db.orgs;
    var batch := CollectRepairBatch(snapshot);
    completed := db.CommitMemberUids(batch);
    assert db.orgs == RepairAll(snapshot);
  }
}
