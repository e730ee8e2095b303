/**
 * Print projects: the document shape, the budget formula of the project
 * screen, the status filter, the `createdAt` order of the list, and the
 * screen's handlers over the project collection.
 */
module Projects {
  import opened Common
  import opened Js
  import opened Seqs
  import opened Sorting
  import opened DocStore

  const QueuedStatus: string := "en_cola"
  const InProgressStatus: string := "en_proceso"
  const CompletedStatus: string := "completado"
  /** The filter value that shows every project. */
  const AllFilter: string := "todos"

  /** The fields of the project form, stored as entered (numeric inputs are strings until a screen coerces them). */
  datatype ProjectFields = ProjectFields(
    name: string,
    client: string,
    status: string,
    estimatedDeliveryDate: string,
    projectType: string,
    material: string,
    description: string,
    quantity: JsNum,
    budget: JsNum,
    weight: JsNum,
    designHours: JsNum)

  datatype Project = Project(fields: ProjectFields, createdAt: Option<Timestamp>, updatedAt: Option<Timestamp>)

  /** A document of a snapshot: its id and its data. */
  datatype ProjectEntry = ProjectEntry(id: DocId, project: Project)

  /** The empty form: status `en_cola`, everything else blank. */
  const EmptyForm := ProjectFields("", "", QueuedStatus, "", "", "", "", Blank, Blank, Blank, Blank)

  // ---------------------------------------------------------------------------
  // The budget formula.

  /** The price per gram of each material the project screen knows. */
  function TablePrice(material: string): (price: Option<real>)
    ensures price.Some? <==> material in {"PLA", "ABS", "PETG", "ASA", "Resina"}
    ensures price.Some? ==> 0.0 < price.value <= 0.1
  {
    if material == "PLA" then Some(0.03)
    else if material == "ABS" then Some(0.04)
    else if material == "PETG" then Some(0.05)
    else if material == "ASA" then Some(0.06)
    else if material == "Resina" then Some(0.1)
    else None
  }

  const DesignCostPerHour: real := 25.0
  const ProfitMargin: real := 30.0

  /** Material plus design cost, with the margin, times the quantity. */
  function BudgetFormula(weight: real, pricePerGram: real, hours: real, quantity: real): real {
    (weight * pricePerGram + hours * DesignCostPerHour) * (1.0 + ProfitMargin / 100.0) * quantity
  }

  /**
   * `calculateProjectBudget`: the old budget when weight or material is
   * missing; otherwise the formula, printed as text, with hours defaulting to
   * 0 and quantity to 1. Anything `Number` cannot read, an unknown material
   * included, makes the result the text "NaN".
   */
  function CalculateProjectBudget(data: ProjectFields): (r: JsNum)
    ensures !Truthy(data.weight) || data.material == "" ==> r == data.budget
    ensures Truthy(data.weight) && data.material != "" ==> r.Text? || r.Garbage?
    ensures Truthy(data.weight) && data.material != "" && TablePrice(data.material).None? ==> r.Garbage?
  {
    if !Truthy(data.weight) || data.material == "" then data.budget
    else
      match (TablePrice(data.material), ToNumber(data.weight),
             ToNumber(Or(data.designHours, Number(0.0))), ToNumber(Or(data.quantity, Number(1.0))))
      case (Some(price), Some(w), Some(h), Some(q)) => Text(BudgetFormula(w, price, h, q))
      case _ => Garbage
  }

  /** Falsy hours count as 0 and a falsy quantity as 1. */
  lemma BudgetDefaults(data: ProjectFields)
    ensures !Truthy(data.designHours) ==>
              CalculateProjectBudget(data) == CalculateProjectBudget(data.(designHours := Number(0.0)))
    ensures !Truthy(data.quantity) ==>
              CalculateProjectBudget(data) == CalculateProjectBudget(data.(quantity := Number(1.0)))
  {
  }

  /** The data the edit handler passes: the form over the edited project, the three numbers coerced. */
  function EditBudgetInput(form: ProjectFields): ProjectFields {
    form.(quantity := Number(NumberOr(form.quantity, 1.0)),
          weight := Number(NumberOr(form.weight, 0.0)),
          designHours := Number(NumberOr(form.designHours, 0.0)))
  }

  /**
   * With the edit handler's coercions the budget is never unreadable for a
   * known material: it is the old budget for a zero or unreadable weight or an
   * empty material, and the formula otherwise.
   */
  lemma EditBudget(form: ProjectFields)
    ensures var r := CalculateProjectBudget(EditBudgetInput(form));
            var w := NumberOr(form.weight, 0.0);
            && (w == 0.0 || form.material == "" ==> r == form.budget)
            && (w != 0.0 && TablePrice(form.material).Some? ==>
                  r == Text(BudgetFormula(w, TablePrice(form.material).value,
                                          NumberOr(form.designHours, 0.0), NumberOr(form.quantity, 1.0))))
  {
  }

  /** 100 g of PLA and 2 hours of design: (3 + 50) · 1.3 = 68.9. */
  lemma BudgetExample()
    ensures CalculateProjectBudget(EmptyForm.(weight := Text(100.0), material := "PLA", designHours := Text(2.0)))
            == Text(68.9)
  {
  }

  // ---------------------------------------------------------------------------
  // The list: status filter and creation order.

  function StatusIs(status: string): ProjectEntry -> bool {
    (e: ProjectEntry) => e.project.fields.status == status
  }

  /** `filteredProjects`: everything for `todos`, otherwise the projects with that status. */
  function FilteredProjects(projects: seq<ProjectEntry>, filter: string): (r: seq<ProjectEntry>)
    ensures filter == AllFilter ==> r == projects
    ensures filter != AllFilter ==> forall e :: e in r <==> e in projects && e.project.fields.status == filter
    ensures |r| <= |projects|
  {
    if filter == AllFilter then projects else Filter(projects, StatusIs(filter))
  }

  /** The filter keeps the list's order: it distributes over concatenation. */
  lemma FilteredKeepsOrder(a: seq<ProjectEntry>, b: seq<ProjectEntry>, filter: string)
    ensures FilteredProjects(a + b, filter) == FilteredProjects(a, filter) + FilteredProjects(b, filter)
  {
    if filter != AllFilter {
      FilterAppend(a, b, StatusIs(filter));
    }
  }

  /** The creation time of an entry, as the sort compares it. */
  function CreatedKey(e: ProjectEntry): real {
    CreatedOrZero(e.project.createdAt)
  }

  /** The comparator calls `createdAt.toDate()`, which throws on a document without the field. */
  predicate NoCreatedAt(e: ProjectEntry) {
    e.project.createdAt.None?
  }

  const LoadError := "Error al cargar la lista de proyectos."
  const EmptyNameError := "El nombre del proyecto no puede estar vacío."
  const SaveError := "Error al guardar el proyecto."
  const StatusError := "No se pudo actualizar el estado del proyecto."
  const DeleteError := "Error al eliminar el proyecto."

  // ---------------------------------------------------------------------------
  // The screen.

  class ProjectScreen {
    const store: Collection<Project>
    var projects: seq<ProjectEntry>
    var form: ProjectFields
    var editing: Option<ProjectEntry>
    var errorMessage: string
    var filterStatus: string
    var toDelete: Option<ProjectEntry>
    var showDeleteModal: bool

    ghost predicate Valid()
      reads this, store
    {
      store.Valid()
    }

    constructor (store: Collection<Project>)
      requires store.Valid()
      ensures Valid() && this.store == store
      ensures projects == [] && form == EmptyForm && editing == None && errorMessage == ""
      ensures filterStatus == AllFilter && toDelete == None && !showDeleteModal
    {
      this.store := store;
      projects := [];
      form := EmptyForm;
      editing := None;
      errorMessage := "";
      filterStatus := AllFilter;
      toDelete := None;
      showDeleteModal := false;
    }

    /** A snapshot: the list newest first, or, when the sort throws, an error and the previous list. */
    method OnSnapshot(snapshot: seq<ProjectEntry>)
      modifies this
      ensures ComparatorThrows(snapshot, NoCreatedAt) ==> projects == old(projects) && errorMessage == LoadError
      ensures !ComparatorThrows(snapshot, NoCreatedAt) ==> projects == SortDesc(snapshot, CreatedKey) && errorMessage == ""
      ensures form == old(form) && editing == old(editing) && filterStatus == old(filterStatus)
      ensures toDelete == old(toDelete) && showDeleteModal == old(showDeleteModal)
    {
      if ComparatorThrows(snapshot, NoCreatedAt) {
        errorMessage := LoadError;
      } else {
        projects := SortDesc(snapshot, CreatedKey);
        errorMessage := "";
      }
    }

    /** `handleAddOrEditProject`; `online` says whether the backend takes the write. */
    method HandleAddOrEdit(online: bool, now: Timestamp) returns (outcome: SaveOutcome)
      requires Valid()
      modifies this, store
      ensures Valid()
      ensures outcome == Invalid <==> IsBlank(old(form).name)
      ensures outcome == Invalid ==> errorMessage == EmptyNameError
      ensures outcome == Saved <==> !IsBlank(old(form).name) && online
                                    && (old(editing).None? || old(editing).value.id in old(store.docs))
      // the data written: the form, with the budget recomputed only on an edit of a project that had one
      ensures var data := if old(editing).Some? && Truthy(old(editing).value.project.fields.budget)
                          then old(form).(budget := CalculateProjectBudget(EditBudgetInput(old(form))))
                          else old(form);
              && (outcome == Saved && old(editing).Some? ==>
                    var id := old(editing).value.id;
                    id in old(store.docs)
                    && store.docs == old(store.docs)[id := Project(data, old(store.docs)[id].createdAt, Some(now))])
              && (outcome == Saved && old(editing).None? ==>
                    exists id: DocId :: id !in old(store.docs)
                                        && store.docs == old(store.docs)[id := Project(data, Some(now), Some(now))])
      ensures outcome != Saved ==> store.docs == old(store.docs)
      ensures outcome == Saved ==> form == EmptyForm && editing == None && errorMessage == ""
      ensures outcome == Failed ==> form == old(form) && editing == old(editing) && errorMessage == SaveError
      ensures outcome == Invalid ==> form == old(form) && editing == old(editing)
      ensures projects == old(projects) && filterStatus == old(filterStatus)
      ensures toDelete == old(toDelete) && showDeleteModal == old(showDeleteModal)
    {
      if IsBlank(form.name) {
        errorMessage := EmptyNameError;
        return Invalid;
      }
      var data := form;
      if editing.Some? && Truthy(editing.value.project.fields.budget) {
        data := form.(budget := CalculateProjectBudget(EditBudgetInput(form)));
      }
      if !online {
        errorMessage := SaveError;
        return Failed;
      }
      match editing {
        case Some(e) =>
          var ok := store.Update(e.id, (p: Project) => Project(data, p.createdAt, Some(now)));
          if !ok {
            errorMessage := SaveError;
            return Failed;
          }
          editing := None;
        case None =>
          var id := store.Add(Project(data, Some(now), Some(now)));
      }
      form := EmptyForm;
      errorMessage := "";
      outcome := Saved;
    }

    /** `handleChangeStatus`: only `status` and `updatedAt` change. */
    method HandleChangeStatus(id: DocId, newStatus: string, online: bool, now: Timestamp) returns (ok: bool)
      requires Valid()
      modifies this, store
      ensures Valid()
      ensures ok <==> online && id in old(store.docs)
      ensures store.docs == if ok
                            then old(store.docs)[id := old(store.docs)[id].(fields := old(store.docs)[id].fields.(status := newStatus),
                                                                              updatedAt := Some(now))]
                            else old(store.docs)
      ensures errorMessage == if ok then old(errorMessage) else StatusError
      ensures projects == old(projects) && form == old(form) && editing == old(editing)
      ensures filterStatus == old(filterStatus) && toDelete == old(toDelete) && showDeleteModal == old(showDeleteModal)
    {
      ok := false;
      if online {
        ok := store.Update(id, (p: Project) => p.(fields := p.fields.(status := newStatus), updatedAt := Some(now)));
      }
      if !ok {
        errorMessage := StatusError;
      }
    }

    /** `handleEditClick`: the form takes the project's fields (the date is reformatted, which is not modelled). */
    method HandleEditClick(e: ProjectEntry)
      modifies this
      ensures editing == Some(e) && form == e.project.fields
      ensures projects == old(projects) && errorMessage == old(errorMessage) && filterStatus == old(filterStatus)
      ensures toDelete == old(toDelete) && showDeleteModal == old(showDeleteModal)
    {
      editing := Some(e);
      form := e.project.fields;
    }

    /** `handleCancelEdit`. */
    method HandleCancelEdit()
      modifies this
      ensures editing == None && form == EmptyForm
      ensures projects == old(projects) && errorMessage == old(errorMessage) && filterStatus == old(filterStatus)
      ensures toDelete == old(toDelete) && showDeleteModal == old(showDeleteModal)
    {
      editing := None;
      form := EmptyForm;
    }

    /** `handleDeleteClick`. */
    method HandleDeleteClick(e: ProjectEntry)
      modifies this
      ensures toDelete == Some(e) && showDeleteModal
      ensures projects == old(projects) && form == old(form) && editing == old(editing)
      ensures errorMessage == old(errorMessage) && filterStatus == old(filterStatus)
    {
      toDelete := Some(e);
      showDeleteModal := true;
    }

    /** `confirmDelete`: nothing without a selected project; the modal closes either way. */
    method ConfirmDelete(online: bool) returns (deleted: bool)
      requires Valid()
      modifies this, store
      ensures Valid()
      ensures deleted <==> old(toDelete).Some? && online
      ensures store.docs == if deleted then old(store.docs) - {old(toDelete).value.id} else old(store.docs)
      ensures old(toDelete).Some? ==> !showDeleteModal
      ensures old(toDelete).None? ==> showDeleteModal == old(showDeleteModal)
      ensures toDelete == if deleted then None else old(toDelete)
      ensures old(toDelete).Some? && !online ==> errorMessage == DeleteError
      ensures deleted || old(toDelete).None? ==> errorMessage == old(errorMessage)
      ensures projects == old(projects) && form == old(form) && editing == old(editing) && filterStatus == old(filterStatus)
    {
      if toDelete.None? {
        return false;
      }
      if !online {
        errorMessage := DeleteError;
        showDeleteModal := false;
        return false;
      }
      store.Delete(toDelete.value.id);
      toDelete := None;
      showDeleteModal := false;
      deleted := true;
    }

    /** `cancelDelete`. */
    method CancelDelete()
      modifies this
      ensures toDelete == None && !showDeleteModal
      ensures projects == old(projects) && form == old(form) && editing == old(editing)
      ensures errorMessage == old(errorMessage) && filterStatus == old(filterStatus)
    {
      toDelete := None;
      showDeleteModal := false;
    }
  }
}
