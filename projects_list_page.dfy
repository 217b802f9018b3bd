/** The catalogue page (`ProjectsListPage.tsx`): which projects the filters
    keep, and which batch the compare action of each card adds. */
module ProjectsListPage {
  import opened Wrappers
  import opened Domain
  import opened Seqs
  import opened Text
  import opened Lookups
  import JsMath
  import ProjectCard
  import UiStore

  function HasStatus(status: BatchStatus): Batch -> bool {
    (b: Batch) => b.status == status
  }

  /** The filter callback, with its early returns in source order. Only the
      project's own batches take part, all of them whatever their status. */
  predicate ProjectMatches(p: Project, batches: seq<Batch>, f: ProjectFilters) {
    var own := BatchesOfProject(batches, p.id);
    if Truthy(f.search) && !MatchesText(p.name, f.search.value) then false
    else if Truthy(f.location) && !MatchesText(p.location, f.location.value) then false
    else if Truthy(f.certifier) && Truthy(p.certifier) && !MatchesText(p.certifier.value, f.certifier.value) then false
    else if f.status.Some? && !AnyWhere(HasStatus(f.status.value), own) then false
    else if f.minPrice.Some? || f.maxPrice.Some? then
      var prices := ProjectCard.PricesOf(own);
      && !(f.minPrice.Some? && JsMath.Below(JsMath.Min(prices), f.minPrice.value))
      && !(f.maxPrice.Some? && JsMath.Above(JsMath.Max(prices), f.maxPrice.value))
    else true
  }

  /** What the filter callback means, condition by condition. An empty text
      filter is no filter; a project without a certifier passes the certifier
      filter; a project without batches passes both price bounds. */
  lemma ProjectMatchesIff(p: Project, batches: seq<Batch>, f: ProjectFilters)
    ensures ProjectMatches(p, batches, f) <==>
      && (Truthy(f.search) ==> MatchesText(p.name, f.search.value))
      && (Truthy(f.location) ==> MatchesText(p.location, f.location.value))
      && (Truthy(f.certifier) && Truthy(p.certifier) ==> MatchesText(p.certifier.value, f.certifier.value))
      && (f.status.Some? ==>
            exists k :: 0 <= k < |batches| && batches[k].projectId == p.id && batches[k].status == f.status.value)
      && (f.minPrice.Some? ==>
            forall k :: 0 <= k < |batches| && batches[k].projectId == p.id ==> batches[k].pricePerTon >= f.minPrice.value)
      && (f.maxPrice.Some? ==>
            forall k :: 0 <= k < |batches| && batches[k].projectId == p.id ==> batches[k].pricePerTon <= f.maxPrice.value)
  {
    var own := BatchesOfProject(batches, p.id);
    if f.status.Some? {
      StatusOverOwn(own, batches, p.id, f.status.value);
    }
    if f.minPrice.Some? {
      JsMath.MinBelowIff(ProjectCard.PricesOf(own), f.minPrice.value);
      MinOverOwn(own, batches, p.id, f.minPrice.value);
    }
    if f.maxPrice.Some? {
      JsMath.MaxAboveIff(ProjectCard.PricesOf(own), f.maxPrice.value);
      MaxOverOwn(own, batches, p.id, f.maxPrice.value);
    }
  }

  lemma StatusOverOwn(own: seq<Batch>, batches: seq<Batch>, projectId: string, status: BatchStatus)
    requires own == BatchesOfProject(batches, projectId)
    ensures AnyWhere(HasStatus(status), own) <==>
      exists k :: 0 <= k < |batches| && batches[k].projectId == projectId && batches[k].status == status
  {
    if exists k :: 0 <= k < |batches| && batches[k].projectId == projectId && batches[k].status == status {
      var k :| 0 <= k < |batches| && batches[k].projectId == projectId && batches[k].status == status;
      var j :| 0 <= j < |own| && own[j] == batches[k];
      assert HasStatus(status)(own[j]);
    }
    if AnyWhere(HasStatus(status), own) {
      var j :| 0 <= j < |own| && HasStatus(status)(own[j]);
      var k :| 0 <= k < |batches| && batches[k] == own[j];
    }
  }

  lemma MinOverOwn(own: seq<Batch>, batches: seq<Batch>, projectId: string, bound: real)
    requires own == BatchesOfProject(batches, projectId)
    ensures (exists j :: 0 <= j < |ProjectCard.PricesOf(own)| && ProjectCard.PricesOf(own)[j] < bound) <==>
      exists k :: 0 <= k < |batches| && batches[k].projectId == projectId && batches[k].pricePerTon < bound
  {
    var prices := ProjectCard.PricesOf(own);
    if exists k :: 0 <= k < |batches| && batches[k].projectId == projectId && batches[k].pricePerTon < bound {
      var k :| 0 <= k < |batches| && batches[k].projectId == projectId && batches[k].pricePerTon < bound;
      var j :| 0 <= j < |own| && own[j] == batches[k];
      assert prices[j] < bound;
    }
    if exists j :: 0 <= j < |prices| && prices[j] < bound {
      var j :| 0 <= j < |prices| && prices[j] < bound;
      var k :| 0 <= k < |batches| && batches[k] == own[j];
    }
  }

  lemma MaxOverOwn(own: seq<Batch>, batches: seq<Batch>, projectId: string, bound: real)
    requires own == BatchesOfProject(batches, projectId)
    ensures (exists j :: 0 <= j < |ProjectCard.PricesOf(own)| && ProjectCard.PricesOf(own)[j] > bound) <==>
      exists k :: 0 <= k < |batches| && batches[k].projectId == projectId && batches[k].pricePerTon > bound
  {
    var prices := ProjectCard.PricesOf(own);
    if exists k :: 0 <= k < |batches| && batches[k].projectId == projectId && batches[k].pricePerTon > bound {
      var k :| 0 <= k < |batches| && batches[k].projectId == projectId && batches[k].pricePerTon > bound;
      var j :| 0 <= j < |own| && own[j] == batches[k];
      assert prices[j] > bound;
    }
    if exists j :: 0 <= j < |prices| && prices[j] > bound {
      var j :| 0 <= j < |prices| && prices[j] > bound;
      var k :| 0 <= k < |batches| && batches[k] == own[j];
    }
  }

  function Matching(batches: seq<Batch>, f: ProjectFilters): Project -> bool {
    (p: Project) => ProjectMatches(p, batches, f)
  }

  /** `filteredProjects`: the matching projects, in catalogue order. */
  function FilteredProjects(projects: seq<Project>, batches: seq<Batch>, f: ProjectFilters): (r: seq<Project>)
    ensures IsSubsequence(r, projects)
    ensures forall k :: 0 <= k < |r| ==> r[k] in projects && ProjectMatches(r[k], batches, f)
    ensures forall k :: 0 <= k < |projects| && ProjectMatches(projects[k], batches, f) ==> projects[k] in r
    ensures forall p :: p in projects ==> multiset(r)[p] == if ProjectMatches(p, batches, f) then multiset(projects)[p] else 0
  {
    FilterMultiset(Matching(batches, f), projects);
    Filter(Matching(batches, f), projects)
  }

  /** The page's initial `{}`. */
  const NoFilters := ProjectFilters(None, None, None, None, None, None)

  /** With no filters every project is listed. */
  lemma NoFiltersKeepAll(projects: seq<Project>, batches: seq<Batch>)
    ensures FilteredProjects(projects, batches, NoFilters) == projects
  {
    assert forall k :: 0 <= k < |projects| ==> Matching(batches, NoFilters)(projects[k]);
  }

  /** `firstAvailableBatch`: the first of the project's batches that is AVAILABLE. */
  function CompareTarget(batches: seq<Batch>, projectId: string): (r: Option<Batch>)
    ensures r.None? <==>
      forall k :: 0 <= k < |batches| && batches[k].projectId == projectId ==> batches[k].status != Available
    ensures r.Some? ==> r.value in batches && r.value.projectId == projectId && r.value.status == Available
    ensures r.Some? ==> exists k :: IsFirstWhere(ProjectCard.IsAvailable, BatchesOfProject(batches, projectId), k)
                                 && BatchesOfProject(batches, projectId)[k] == r.value
  {
    var own := BatchesOfProject(batches, projectId);
    var r := FirstWhere(ProjectCard.IsAvailable, own);
    assert r.None? <==>
      forall k :: 0 <= k < |batches| && batches[k].projectId == projectId ==> batches[k].status != Available by {
      if r.Some? {
        var j :| IsFirstWhere(ProjectCard.IsAvailable, own, j) && own[j] == r.value;
        var k :| 0 <= k < |batches| && batches[k] == own[j];
      } else {
        forall k | 0 <= k < |batches| && batches[k].projectId == projectId
          ensures batches[k].status != Available
        {
          var j :| 0 <= j < |own| && own[j] == batches[k];
        }
      }
    }
    r
  }

  /** A card offers to compare exactly when its project has an available batch. */
  lemma CompareOfferedIffTarget(batches: seq<Batch>, projectId: string)
    ensures ProjectCard.ShowCompare(CompareTarget(batches, projectId).Some?, BatchesOfProject(batches, projectId))
        <==> CompareTarget(batches, projectId).Some?
  {
    var own := BatchesOfProject(batches, projectId);
    var t := CompareTarget(batches, projectId);
    if t.Some? {
      var j :| 0 <= j < |own| && own[j] == t.value;
      assert own[j] in ProjectCard.AvailableBatches(own);
    }
  }

  /** The card's compare action: the target batch goes into the compare list
      and the drawer opens. */
  method OnCompare(ui: UiStore.Ui, batches: seq<Batch>, projectId: string)
    requires CompareTarget(batches, projectId).Some?
    modifies ui
    ensures ui.compareBatches == UiStore.WithCompared(old(ui.compareBatches), CompareTarget(batches, projectId).value.id)
    ensures ui.compareDrawerOpen
  {
    var target := CompareTarget(batches, projectId).value;
    ui.AddToCompare(target.id);
    ui.SetCompareDrawerOpen(true);
  }
}
