/**
 * The dashboard's figures: project counts by status, the revenue of the
 * completed projects, the four most recent projects, the total stock and the
 * five best-stocked materials. Everything is computed on copies; the inputs
 * are values and stay as they are.
 */
module Dashboard {
  import opened Common
  import opened Js
  import opened Seqs
  import opened Sorting
  import opened Materials
  import opened Projects

  datatype Stats = Stats(
    activeProjects: nat,
    completedProjects: nat,
    totalRevenue: real,
    totalStockKg: real,
    topMaterials: seq<MaterialEntry>)

  datatype Overview = Overview(stats: Stats, recentProjects: seq<ProjectEntry>)

  /** `Number(project.budget) || 0`. */
  function Revenue(e: ProjectEntry): real {
    NumberOr(e.project.fields.budget, 0.0)
  }

  /** `stockInGrams || 0`, which for a stored material is its stock. */
  function StockOf(m: MaterialEntry): real {
    m.material.stockInGrams
  }

  /** The revenue: the budgets of the completed projects, summed. */
  function TotalRevenue(projects: seq<ProjectEntry>): real {
    Sum(Filter(projects, StatusIs(CompletedStatus)), Revenue)
  }

  /** A completed project adds its budget to the revenue; a project with any other status adds nothing. */
  lemma RevenueStep(projects: seq<ProjectEntry>, e: ProjectEntry)
    ensures TotalRevenue(projects + [e])
            == TotalRevenue(projects) + (if e.project.fields.status == CompletedStatus then Revenue(e) else 0.0)
  {
    var p := StatusIs(CompletedStatus);
    FilterAppend(projects, [e], p);
    assert [e][1..] == [];
    SumAppend(Filter(projects, p), Filter([e], p), Revenue);
    assert Sum([e], Revenue) == Revenue(e) by {
      assert [e][..0] == [];
    }
  }

  /** The same revenue, read as a sum over every project in which a project not completed counts 0. */
  lemma RevenueOverAllProjects(projects: seq<ProjectEntry>)
    ensures TotalRevenue(projects) == Sum(projects, Masked(StatusIs(CompletedStatus), Revenue))
  {
    SumOverFilter(projects, StatusIs(CompletedStatus), Revenue);
  }

  /** With non-negative budgets the revenue is non-negative. */
  lemma RevenueNonNegative(projects: seq<ProjectEntry>)
    requires forall i :: 0 <= i < |projects| ==> NumberOr(projects[i].project.fields.budget, 0.0) >= 0.0
    ensures TotalRevenue(projects) >= 0.0
  {
    var done := Filter(projects, StatusIs(CompletedStatus));
    forall i | 0 <= i < |done| ensures Revenue(done[i]) >= 0.0 {
      assert done[i] in projects;
    }
    SumNonNegative(done, Revenue);
  }

  /** The stats effect. */
  function ComputeOverview(projects: seq<ProjectEntry>, materials: seq<MaterialEntry>): (r: Overview)
    ensures r.stats.activeProjects == Count(projects, StatusIs(InProgressStatus))
    ensures r.stats.completedProjects == Count(projects, StatusIs(CompletedStatus))
    ensures r.stats.activeProjects + r.stats.completedProjects <= |projects|
    ensures r.stats.totalRevenue == TotalRevenue(projects)
    ensures r.stats.totalStockKg * 1000.0 == Sum(materials, StockOf)
    // the four newest projects, newest first, a missing createdAt counting as 0
    ensures |r.recentProjects| == if |projects| < 4 then |projects| else 4
    ensures forall i :: 0 <= i < |r.recentProjects| ==> r.recentProjects[i] in projects
    ensures multiset(r.recentProjects) <= multiset(projects)
    ensures forall i, j :: 0 <= i < j < |r.recentProjects| ==> CreatedKey(r.recentProjects[i]) >= CreatedKey(r.recentProjects[j])
    // at most five materials, best-stocked first
    ensures |r.stats.topMaterials| == if |materials| < 5 then |materials| else 5
    ensures forall i :: 0 <= i < |r.stats.topMaterials| ==> r.stats.topMaterials[i] in materials
    ensures multiset(r.stats.topMaterials) <= multiset(materials)
    ensures forall i, j :: 0 <= i < j < |r.stats.topMaterials| ==> StockOf(r.stats.topMaterials[i]) >= StockOf(r.stats.topMaterials[j])
  {
    CountDisjoint(projects, StatusIs(InProgressStatus), StatusIs(CompletedStatus));
    Overview(
      Stats(Count(projects, StatusIs(InProgressStatus)), Count(projects, StatusIs(CompletedStatus)),
            TotalRevenue(projects), Sum(materials, StockOf) / 1000.0, TopBy(materials, StockOf, 5)),
      TopBy(projects, CreatedKey, 4))
  }

  /** No material left out of the top five has more stock than one in it. */
  lemma TopMaterialsDominate(projects: seq<ProjectEntry>, materials: seq<MaterialEntry>, m: MaterialEntry)
    requires m in materials && m !in ComputeOverview(projects, materials).stats.topMaterials
    ensures forall i :: 0 <= i < |ComputeOverview(projects, materials).stats.topMaterials| ==>
              StockOf(ComputeOverview(projects, materials).stats.topMaterials[i]) >= StockOf(m)
  {
    var top := TopBy(materials, StockOf, 5);
    assert multiset(top)[m] == 0;
    assert m in multiset(materials) - multiset(top);
    TopByDominates(materials, StockOf, 5, m);
  }

  /** No project left out of the recent four was created later than one in it. */
  lemma RecentProjectsDominate(projects: seq<ProjectEntry>, materials: seq<MaterialEntry>, p: ProjectEntry)
    requires p in projects && p !in ComputeOverview(projects, materials).recentProjects
    ensures forall i :: 0 <= i < |ComputeOverview(projects, materials).recentProjects| ==>
              CreatedKey(ComputeOverview(projects, materials).recentProjects[i]) >= CreatedKey(p)
  {
    var recent := TopBy(projects, CreatedKey, 4);
    assert multiset(recent)[p] == 0;
    assert p in multiset(projects) - multiset(recent);
    TopByDominates(projects, CreatedKey, 4, p);
  }
}
