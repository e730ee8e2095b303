/**
 * The analytics charts: how many projects are in each status, and how many
 * projects use each material.
 */
module Analytics {
  import opened Common
  import opened Seqs
  import opened Projects

  /** A bar of the status chart. */
  datatype StatusCount = StatusCount(name: string, count: nat)

  /** A slice of the materials chart. */
  datatype Usage = Usage(name: string, value: nat)

  /** The three status counts never add up to more than the number of projects. */
  lemma {:induction false} StatusCountsBounded(projects: seq<ProjectEntry>)
    ensures Count(projects, StatusIs(QueuedStatus)) + Count(projects, StatusIs(InProgressStatus))
            + Count(projects, StatusIs(CompletedStatus)) <= |projects|
  {
    if projects != [] {
      StatusCountsBounded(projects[1..]);
    }
  }

  /** `projectStatusData`. */
  function ProjectStatusData(projects: seq<ProjectEntry>): (r: seq<StatusCount>)
    ensures |r| == 3 && r[0].name == "En cola" && r[1].name == "En proceso" && r[2].name == "Completado"
    ensures r[0].count == Count(projects, StatusIs(QueuedStatus))
    ensures r[1].count == Count(projects, StatusIs(InProgressStatus))
    ensures r[2].count == Count(projects, StatusIs(CompletedStatus))
    ensures r[0].count + r[1].count + r[2].count <= |projects|
  {
    StatusCountsBounded(projects);
    [StatusCount("En cola", Count(projects, StatusIs(QueuedStatus))),
     StatusCount("En proceso", Count(projects, StatusIs(InProgressStatus))),
     StatusCount("Completado", Count(projects, StatusIs(CompletedStatus)))]
  }

  /** `if (project.material)`: the project names a material. */
  predicate HasMaterial(e: ProjectEntry) {
    e.project.fields.material != ""
  }

  function UsesMaterial(name: string): ProjectEntry -> bool {
    (e: ProjectEntry) => e.project.fields.material == name
  }

  function NameIs(name: string): Usage -> bool {
    (u: Usage) => u.name == name
  }

  function Names(u: seq<Usage>): (r: seq<string>)
    ensures |r| == |u| && forall i :: 0 <= i < |u| ==> r[i] == u[i].name
  {
    seq(|u|, i requires 0 <= i < |u| => u[i].name)
  }

  /** The sum of the values of a chart. */
  function TotalUses(u: seq<Usage>): nat {
    if u == [] then 0 else TotalUses(u[..|u| - 1]) + u[|u| - 1].value
  }

  lemma {:induction false} TotalUsesUpdate(u: seq<Usage>, k: nat, x: Usage)
    requires k < |u|
    ensures TotalUses(u[k := x]) == TotalUses(u) - u[k].value + x.value
  {
    var n := |u| - 1;
    if k < n {
      assert u[k := x][..n] == u[..n][k := x];
      TotalUsesUpdate(u[..n], k, x);
    } else {
      assert u[k := x][..n] == u[..n];
    }
  }

  /** The materials named by the projects, in project order, repeats included. */
  function UsedMaterials(projects: seq<ProjectEntry>): (r: seq<string>)
    ensures forall i :: 0 <= i < |r| ==> r[i] != ""
    ensures forall m :: m in r ==> exists i :: 0 <= i < |projects| && projects[i].project.fields.material == m
    ensures forall i :: 0 <= i < |projects| && HasMaterial(projects[i]) ==> projects[i].project.fields.material in r
    // one entry per project that names a material
    ensures |r| == Count(projects, HasMaterial)
  {
    if projects == [] then []
    else
      var n := |projects| - 1;
      var before := UsedMaterials(projects[..n]);
      var m := projects[n].project.fields.material;
      assert forall i :: 0 <= i < n ==> projects[..n][i] == projects[i];
      assert projects == projects[..n] + [projects[n]];
      CountAppend(projects[..n], projects[n], HasMaterial);
      if m != "" then before + [m] else before
  }

  lemma UsedMaterialsLast(s: seq<ProjectEntry>)
    requires s != []
    ensures var m := s[|s| - 1].project.fields.material;
            UsedMaterials(s) == UsedMaterials(s[..|s| - 1]) + (if m != "" then [m] else [])
  {
  }

  /** The used materials of two lists one after the other: project order is kept. */
  lemma {:induction false} UsedMaterialsAppend(a: seq<ProjectEntry>, b: seq<ProjectEntry>)
    ensures UsedMaterials(a + b) == UsedMaterials(a) + UsedMaterials(b)
    decreases |b|
  {
    if b == [] {
      assert a + b == a;
    } else {
      var n := |b| - 1;
      var ab := a + b;
      assert ab[..|ab| - 1] == a + b[..n];
      assert ab[|ab| - 1] == b[n];
      UsedMaterialsLast(ab);
      UsedMaterialsLast(b);
      UsedMaterialsAppend(a, b[..n]);
    }
  }

  /** One project of the reduce: one more use of the entry with its material, or a new entry with one use. */
  function Tally(acc: seq<Usage>, name: string): seq<Usage> {
    var k := FindIndex(acc, NameIs(name));
    if k < |acc| then acc[k := acc[k].(value := acc[k].value + 1)] else acc + [Usage(name, 1)]
  }

  /** `materialUsage`, project after project. */
  function MaterialUsage(projects: seq<ProjectEntry>): seq<Usage> {
    if projects == [] then []
    else
      var before := MaterialUsage(projects[..|projects| - 1]);
      var m := projects[|projects| - 1].project.fields.material;
      if m != "" then Tally(before, m) else before
  }

  /** `acc.find(item => item.name === name)` finds an entry exactly when the name is on the chart. */
  lemma FoundIffNamed(acc: seq<Usage>, name: string)
    ensures FindIndex(acc, NameIs(name)) < |acc| <==> name in Names(acc)
  {
    var k := FindIndex(acc, NameIs(name));
    if k < |acc| {
      assert Names(acc)[k] == name;
    } else {
      forall j | 0 <= j < |acc| ensures Names(acc)[j] != name {
        assert !NameIs(name)(acc[j]);
      }
    }
  }

  /** A tally of a name already on the chart bumps that entry, and only it when names do not repeat. */
  lemma TallyFound(acc: seq<Usage>, name: string)
    requires NoDup(Names(acc)) && name in Names(acc)
    ensures |Tally(acc, name)| == |acc|
    ensures forall k :: 0 <= k < |acc| ==> Tally(acc, name)[k].name == acc[k].name
    ensures forall k :: 0 <= k < |acc| && acc[k].name != name ==> Tally(acc, name)[k] == acc[k]
    ensures forall k :: 0 <= k < |acc| && acc[k].name == name ==> Tally(acc, name)[k].value == acc[k].value + 1
    ensures TotalUses(Tally(acc, name)) == TotalUses(acc) + 1
  {
    var k := FindIndex(acc, NameIs(name));
    FoundIffNamed(acc, name);
    forall j | 0 <= j < |acc| && acc[j].name == name ensures j == k {
      assert Names(acc)[j] == Names(acc)[k];
    }
    TotalUsesUpdate(acc, k, acc[k].(value := acc[k].value + 1));
  }

  /** A tally of a new name appends an entry with one use. */
  lemma TallyNew(acc: seq<Usage>, name: string)
    requires name !in Names(acc)
    ensures Tally(acc, name) == acc + [Usage(name, 1)]
    ensures TotalUses(Tally(acc, name)) == TotalUses(acc) + 1
  {
    FoundIffNamed(acc, name);
    assert (acc + [Usage(name, 1)])[..|acc|] == acc;
  }

  /** One entry per material named by some project, in order of first appearance. */
  lemma {:induction false} MaterialUsageNames(projects: seq<ProjectEntry>)
    ensures Names(MaterialUsage(projects)) == Distinct(UsedMaterials(projects))
    ensures NoDup(Names(MaterialUsage(projects)))
  {
    if projects != [] {
      var n := |projects| - 1;
      var pre := projects[..n];
      var m := projects[n].project.fields.material;
      MaterialUsageNames(pre);
      var acc := MaterialUsage(pre);
      var u := MaterialUsage(projects);
      if m != "" {
        assert UsedMaterials(projects)[..|UsedMaterials(projects)| - 1] == UsedMaterials(pre);
        if m in Names(acc) {
          TallyFound(acc, m);
          assert Names(u) == Names(acc);
        } else {
          TallyNew(acc, m);
          assert Names(u) == Names(acc) + [m];
        }
      }
      DistinctProperties(UsedMaterials(projects));
    }
  }

  /** Every entry of the chart names a material and counts exactly the projects with it. */
  predicate CountsMatch(projects: seq<ProjectEntry>, u: seq<Usage>) {
    forall k :: 0 <= k < |u| ==> u[k].name != "" && u[k].value == Count(projects, UsesMaterial(u[k].name))
  }

  /** A project whose material is already on the chart: its entry gains one, the others keep their counts. */
  lemma CountsAfterKnownMaterial(pre: seq<ProjectEntry>, e: ProjectEntry, acc: seq<Usage>)
    requires CountsMatch(pre, acc) && NoDup(Names(acc))
    requires e.project.fields.material != "" && e.project.fields.material in Names(acc)
    ensures CountsMatch(pre + [e], Tally(acc, e.project.fields.material))
  {
    var m := e.project.fields.material;
    TallyFound(acc, m);
    var u := Tally(acc, m);
    forall k | 0 <= k < |u| ensures u[k].name != "" && u[k].value == Count(pre + [e], UsesMaterial(u[k].name)) {
      CountAppend(pre, e, UsesMaterial(u[k].name));
    }
  }

  /** A project with a material new to the chart: a new entry with one use, the others keep their counts. */
  lemma CountsAfterNewMaterial(pre: seq<ProjectEntry>, e: ProjectEntry, acc: seq<Usage>)
    requires CountsMatch(pre, acc)
    requires e.project.fields.material != "" && e.project.fields.material !in UsedMaterials(pre)
    requires e.project.fields.material !in Names(acc)
    ensures CountsMatch(pre + [e], Tally(acc, e.project.fields.material))
  {
    var m := e.project.fields.material;
    TallyNew(acc, m);
    var u := Tally(acc, m);
    forall i | 0 <= i < |pre| ensures !UsesMaterial(m)(pre[i]) {
      assert HasMaterial(pre[i]) ==> pre[i].project.fields.material in UsedMaterials(pre);
    }
    CountZero(pre, UsesMaterial(m));
    forall k | 0 <= k < |u| ensures u[k].name != "" && u[k].value == Count(pre + [e], UsesMaterial(u[k].name)) {
      CountAppend(pre, e, UsesMaterial(u[k].name));
    }
  }

  /** A project without a material changes no count. */
  lemma CountsAfterNoMaterial(pre: seq<ProjectEntry>, e: ProjectEntry, acc: seq<Usage>)
    requires CountsMatch(pre, acc) && e.project.fields.material == ""
    ensures CountsMatch(pre + [e], acc)
  {
    forall k | 0 <= k < |acc| ensures acc[k].value == Count(pre + [e], UsesMaterial(acc[k].name)) {
      CountAppend(pre, e, UsesMaterial(acc[k].name));
    }
  }

  /** Each entry counts exactly the projects with its material. */
  lemma {:induction false} MaterialUsageCounts(projects: seq<ProjectEntry>)
    ensures CountsMatch(projects, MaterialUsage(projects))
  {
    if projects != [] {
      var n := |projects| - 1;
      var pre := projects[..n];
      var e := projects[n];
      var m := e.project.fields.material;
      MaterialUsageCounts(pre);
      MaterialUsageNames(pre);
      DistinctProperties(UsedMaterials(pre));
      assert projects == pre + [e];
      if m == "" {
        CountsAfterNoMaterial(pre, e, MaterialUsage(pre));
      } else if m in Names(MaterialUsage(pre)) {
        CountsAfterKnownMaterial(pre, e, MaterialUsage(pre));
      } else {
        CountsAfterNewMaterial(pre, e, MaterialUsage(pre));
      }
    }
  }

  /** The values add up to the number of projects that name a material; the others are ignored. */
  lemma {:induction false} MaterialUsageTotal(projects: seq<ProjectEntry>)
    ensures TotalUses(MaterialUsage(projects)) == Count(projects, HasMaterial)
  {
    if projects != [] {
      var n := |projects| - 1;
      var pre := projects[..n];
      var e := projects[n];
      var m := e.project.fields.material;
      MaterialUsageTotal(pre);
      MaterialUsageNames(pre);
      var acc := MaterialUsage(pre);
      assert projects == pre + [e];
      CountAppend(pre, e, HasMaterial);
      if m != "" && m in Names(acc) {
        TallyFound(acc, m);
      } else if m != "" {
        TallyNew(acc, m);
      }
    }
  }

  /** `acc.find(item => item.name === name)`, as the index of the entry found, or |acc| for none. */
  method FindEntry(acc: seq<Usage>, name: string) returns (k: nat)
    ensures k <= |acc|
    ensures k < |acc| ==> acc[k].name == name
    ensures forall j :: 0 <= j < k ==> acc[j].name != name
  {
    k := 0;
    while k < |acc| && acc[k].name != name
      invariant 0 <= k <= |acc|
      invariant forall j :: 0 <= j < k ==> acc[j].name != name
    {
      k := k + 1;
    }
  }

  /**
   * The `reduce` as the loop it is: the accumulator's entry for the project's
   * material is found with `find` and bumped in place, or a new entry is pushed.
   */
  method ComputeMaterialUsage(projects: seq<ProjectEntry>) returns (acc: seq<Usage>)
    ensures acc == MaterialUsage(projects)
  {
    acc := [];
    var i := 0;
    while i < |projects|
      invariant 0 <= i <= |projects|
      invariant acc == MaterialUsage(projects[..i])
    {
      assert projects[..i + 1][..i] == projects[..i];
      var m := projects[i].project.fields.material;
      if m != "" {
        var k := FindEntry(acc, m);
        assert k == FindIndex(acc, NameIs(m));
        if k < |acc| {
          acc := acc[k := acc[k].(value := acc[k].value + 1)];
        } else {
          acc := acc + [Usage(m, 1)];
        }
      }
      i := i + 1;
    }
    assert projects[..|projects|] == projects;
  }
}
