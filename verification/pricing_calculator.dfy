/**
 * The price calculator: it prices a print from weight, design hours and
 * quantity with the inventory's price per kilogram of the chosen material
 * type, can load those inputs from a queued or in-progress project, and saves
 * the result back into that project's budget.
 */
module PricingCalculator {
  import opened Common
  import opened Js
  import opened Seqs
  import opened DocStore
  import opened Materials
  import opened Projects

  predicate IsEditable(e: ProjectEntry) {
    e.project.fields.status == QueuedStatus || e.project.fields.status == InProgressStatus
  }

  /** `editableProjects`: the projects the selector offers, the queued and the in-progress ones. */
  function EditableProjects(projects: seq<ProjectEntry>): (r: seq<ProjectEntry>)
    ensures forall e :: e in r <==> e in projects && IsEditable(e)
    ensures forall e :: e in r ==> e.project.fields.status != CompletedStatus
  {
    Filter(projects, IsEditable)
  }

  function HasId(id: DocId): ProjectEntry -> bool {
    (e: ProjectEntry) => e.id == id
  }

  function OfType(materialType: string): MaterialEntry -> bool {
    (e: MaterialEntry) => e.material.materialType == materialType
  }

  /** `projects.find(p => p.id === id)`. */
  function FindProject(projects: seq<ProjectEntry>, id: DocId): (r: Option<ProjectEntry>)
    ensures r.Some? ==> r.value in projects && r.value.id == id
    ensures r.None? <==> forall e :: e in projects ==> e.id != id
  {
    var k := FindIndex(projects, HasId(id));
    if k < |projects| then Some(projects[k])
    else
      assert forall e :: e in projects ==> e.id != id by {
        forall e | e in projects ensures e.id != id {
          var i :| 0 <= i < |projects| && projects[i] == e;
          assert !HasId(id)(projects[i]);
        }
      }
      None
  }

  /** `materials.find(m => m.type === materialType)`: the first material of that type. */
  function FindMaterial(materials: seq<MaterialEntry>, materialType: string): (r: Option<MaterialEntry>)
    ensures r.Some? ==> exists k :: 0 <= k < |materials| && materials[k] == r.value
                                   && r.value.material.materialType == materialType
                                   && forall i :: 0 <= i < k ==> materials[i].material.materialType != materialType
    ensures r.None? <==> forall e :: e in materials ==> e.material.materialType != materialType
  {
    var k := FindIndex(materials, OfType(materialType));
    if k < |materials| then
      assert forall i :: 0 <= i < k ==> !OfType(materialType)(materials[i]);
      Some(materials[k])
    else
      assert forall e :: e in materials ==> e.material.materialType != materialType by {
        forall e | e in materials ensures e.material.materialType != materialType {
          var i :| 0 <= i < |materials| && materials[i] == e;
          assert !OfType(materialType)(materials[i]);
        }
      }
      None
  }

  /** The material type of every material, in inventory order. */
  function TypesOf(materials: seq<MaterialEntry>): (r: seq<string>)
    ensures |r| == |materials| && forall i :: 0 <= i < |r| ==> r[i] == materials[i].material.materialType
  {
    seq(|materials|, i requires 0 <= i < |materials| => materials[i].material.materialType)
  }

  /** `availableMaterialTypes`: each type of the inventory once, in the order it first appears. */
  function AvailableMaterialTypes(materials: seq<MaterialEntry>): (r: seq<string>)
    ensures NoDup(r)
    ensures forall t :: t in r <==> exists i :: 0 <= i < |materials| && materials[i].material.materialType == t
  {
    var types := TypesOf(materials);
    DistinctProperties(types);
    assert forall t :: t in types <==> exists i :: 0 <= i < |materials| && materials[i].material.materialType == t by {
      forall t | t in types ensures exists i :: 0 <= i < |materials| && materials[i].material.materialType == t {
        var i :| 0 <= i < |types| && types[i] == t;
      }
    }
    Distinct(types)
  }

  /** `isProjectLocked`: a completed project can be neither priced nor saved. */
  predicate IsLocked(selected: Option<ProjectEntry>) {
    selected.Some? && selected.value.project.fields.status == CompletedStatus
  }

  /**
   * The selector lists only editable projects, so as long as document ids are
   * unique a project chosen in it is found and is not locked.
   */
  lemma MenuSelectionNeverLocked(projects: seq<ProjectEntry>, id: DocId)
    requires forall a, b :: a in projects && b in projects && a.id == b.id ==> a == b
    requires exists e :: e in EditableProjects(projects) && e.id == id
    ensures FindProject(projects, id).Some? && !IsLocked(FindProject(projects, id))
  {
    var e :| e in EditableProjects(projects) && e.id == id;
    assert e in projects;
    assert FindProject(projects, id).value == e;
  }

  /** The calculator's margin: a state variable that no input changes. */
  const CalculatorMargin: real := 30.0

  /**
   * `calculatePrice`'s arithmetic for a material priced `pricePerKg`, printed
   * as text; an input `Number` cannot read makes it the text "NaN". The
   * quantity counts only for a bulk order.
   */
  function PriceOf(weight: JsNum, designHours: JsNum, isBulk: bool, quantity: JsNum, pricePerKg: real): (r: JsNum)
    ensures r.Text? || r.Garbage?
    ensures r.Text? <==> ToNumber(weight).Some? && ToNumber(designHours).Some? && (isBulk ==> ToNumber(quantity).Some?)
    ensures Truthy(r)
  {
    match (ToNumber(weight), ToNumber(designHours))
    case (Some(w), Some(h)) =>
      var price := (w * (pricePerKg / 1000.0) + h * DesignCostPerHour) * (1.0 + CalculatorMargin / 100.0);
      if !isBulk then Text(price)
      else if ToNumber(quantity).Some? then Text(price * ToNumber(quantity).value)
      else Garbage
    case _ => Garbage
  }

  /** A bulk order costs the single price times the quantity. */
  lemma BulkScalesByQuantity(weight: JsNum, designHours: JsNum, quantity: JsNum, pricePerKg: real)
    requires ToNumber(weight).Some? && ToNumber(designHours).Some? && ToNumber(quantity).Some?
    ensures PriceOf(weight, designHours, true, quantity, pricePerKg).v
            == PriceOf(weight, designHours, false, quantity, pricePerKg).v * ToNumber(quantity).value
  {
  }

  /**
   * The calculator and the project screen's budget formula agree when the
   * inventory's price per kilogram is the project screen's price per gram
   * times 1000 and the quantity is a non-zero number that counts.
   */
  lemma CalculatorAgreesWithProjectBudget(data: ProjectFields, isBulk: bool, pricePerKg: real)
    requires Truthy(data.weight) && TablePrice(data.material).Some?
    requires pricePerKg == 1000.0 * TablePrice(data.material).value
    requires ToNumber(data.weight).Some? && ToNumber(data.designHours).Some?
    requires ToNumber(data.quantity).Some? && Truthy(data.quantity)
    requires isBulk || ToNumber(data.quantity).value == 1.0
    ensures PriceOf(data.weight, data.designHours, isBulk, data.quantity, pricePerKg) == CalculateProjectBudget(data)
  {
    var p := TablePrice(data.material).value;
    assert pricePerKg / 1000.0 == p;
    assert ToNumber(Or(data.designHours, Number(0.0))) == ToNumber(data.designHours);
    assert Or(data.quantity, Number(1.0)) == data.quantity;
  }

  /**
   * A calculation that comes to zero is still saved: the printed "0.00" is a
   * non-empty string, so the save guard's truthiness test lets it through,
   * while the calculator's initial number 0 does not.
   */
  lemma ZeroPriceIsSaveable(quantity: JsNum, pricePerKg: real)
    ensures PriceOf(Number(0.0), Number(0.0), false, quantity, pricePerKg) == Text(0.0)
    ensures Truthy(Text(0.0)) && !Truthy(Number(0.0))
  {
  }

  /** The project after `handleSaveBudget`'s update: the inputs coerced with `Number`, the rest kept. */
  function WithBudget(p: Project, totalPrice: JsNum, weight: JsNum, materialType: string,
                      designHours: JsNum, quantity: JsNum, now: Timestamp): (r: Project)
    ensures r.createdAt == p.createdAt && r.updatedAt == Some(now)
    ensures r.fields.name == p.fields.name && r.fields.client == p.fields.client && r.fields.status == p.fields.status
    ensures r.fields.estimatedDeliveryDate == p.fields.estimatedDeliveryDate && r.fields.projectType == p.fields.projectType
    ensures r.fields.description == p.fields.description && r.fields.material == materialType
    ensures ToNumber(r.fields.budget) == ToNumber(totalPrice) && (r.fields.budget.Number? || r.fields.budget.NaN?)
    ensures ToNumber(r.fields.weight) == ToNumber(weight) && ToNumber(r.fields.designHours) == ToNumber(designHours)
    ensures ToNumber(r.fields.quantity) == ToNumber(quantity)
  {
    p.(fields := p.fields.(budget := Coerce(totalPrice), weight := Coerce(weight), material := materialType,
                           designHours := Coerce(designHours), quantity := Coerce(quantity)),
       updatedAt := Some(now))
  }

  datatype CalcOutcome =
    | LockedProject   // the selected project is completed: error notification
    | NotInInventory  // no material of the chosen type: error notification
    | Priced          // totalPrice holds the new price

  datatype BudgetOutcome =
    | NoBudget        // no project selected, or a falsy price: error notification
    | LockedBudget    // the selected project is completed: error notification
    | BudgetSaved     // written: success notification
    | BudgetFailed    // the write was refused: error notification

  class Calculator {
    const store: Collection<Project>
    /** The project object chosen in the selector, as it was when chosen. */
    var selected: Option<ProjectEntry>
    var weight: JsNum
    var materialType: string
    var designHours: JsNum
    var isBulk: bool
    var quantity: JsNum
    var totalPrice: JsNum

    ghost predicate Valid()
      reads this, store
    {
      store.Valid()
    }

    constructor (store: Collection<Project>)
      requires store.Valid()
      ensures Valid() && this.store == store && selected == None
      ensures weight == Number(0.0) && materialType == "PLA" && designHours == Number(0.0)
      ensures !isBulk && quantity == Number(1.0) && totalPrice == Number(0.0)
    {
      this.store := store;
      selected := None;
      weight := Number(0.0);
      materialType := "PLA";
      designHours := Number(0.0);
      isBulk := false;
      quantity := Number(1.0);
      totalPrice := Number(0.0);
    }

    /** The effect on `selectedProject`: load the project's inputs, `x || default` each, or the defaults. */
    method LoadSelection()
      modifies this
      ensures selected == old(selected)
      ensures selected.None? ==>
                weight == Number(0.0) && materialType == "PLA" && designHours == Number(0.0)
                && quantity == Number(1.0) && !isBulk && totalPrice == Number(0.0)
      ensures selected.Some? ==>
                var f := selected.value.project.fields;
                weight == Or(f.weight, Number(0.0)) && designHours == Or(f.designHours, Number(0.0))
                && materialType == (if f.material != "" then f.material else "PLA")
                && quantity == Or(f.quantity, Number(1.0)) && totalPrice == Or(f.budget, Number(0.0))
                && (isBulk <==> GreaterThan(Or(f.quantity, Number(1.0)), 1.0))
    {
      match selected {
        case Some(e) =>
          var f := e.project.fields;
          weight := Or(f.weight, Number(0.0));
          materialType := if f.material != "" then f.material else "PLA";
          designHours := Or(f.designHours, Number(0.0));
          quantity := Or(f.quantity, Number(1.0));
          isBulk := GreaterThan(Or(f.quantity, Number(1.0)), 1.0);
          totalPrice := Or(f.budget, Number(0.0));
        case None =>
          weight := Number(0.0);
          materialType := "PLA";
          designHours := Number(0.0);
          quantity := Number(1.0);
          isBulk := false;
          totalPrice := Number(0.0);
      }
    }

    /** `handleProjectSelect`: the empty option clears the selection; an id is looked up among all projects. */
    method HandleProjectSelect(projects: seq<ProjectEntry>, choice: Option<DocId>)
      modifies this
      ensures choice.None? ==> selected == None
      ensures choice.Some? ==> selected == FindProject(projects, choice.value)
      ensures selected.None? ==>
                weight == Number(0.0) && materialType == "PLA" && designHours == Number(0.0)
                && quantity == Number(1.0) && !isBulk && totalPrice == Number(0.0)
      ensures selected.Some? ==>
                var f := selected.value.project.fields;
                weight == Or(f.weight, Number(0.0)) && designHours == Or(f.designHours, Number(0.0))
                && materialType == (if f.material != "" then f.material else "PLA")
                && quantity == Or(f.quantity, Number(1.0)) && totalPrice == Or(f.budget, Number(0.0))
                && (isBulk <==> GreaterThan(Or(f.quantity, Number(1.0)), 1.0))
    {
      selected := if choice.None? then None else FindProject(projects, choice.value);
      LoadSelection();
    }

    /** `handleCalculateClick` with `calculatePrice` against the current inventory. */
    method HandleCalculate(materials: seq<MaterialEntry>) returns (outcome: CalcOutcome)
      modifies this
      ensures outcome == LockedProject <==> IsLocked(selected)
      ensures outcome == NotInInventory <==> !IsLocked(selected) && FindMaterial(materials, materialType).None?
      ensures outcome != Priced ==> totalPrice == old(totalPrice)
      ensures outcome == Priced ==>
                totalPrice == PriceOf(weight, designHours, isBulk, quantity,
                                      FindMaterial(materials, materialType).value.material.pricePerKg)
      ensures selected == old(selected) && weight == old(weight) && materialType == old(materialType)
      ensures designHours == old(designHours) && isBulk == old(isBulk) && quantity == old(quantity)
    {
      if IsLocked(selected) {
        return LockedProject;
      }
      var found := FindMaterial(materials, materialType);
      if found.None? {
        return NotInInventory;
      }
      totalPrice := PriceOf(weight, designHours, isBulk, quantity, found.value.material.pricePerKg);
      outcome := Priced;
    }

    /** `handleSaveBudget`; `online` says whether the backend takes the write. */
    method HandleSaveBudget(online: bool, now: Timestamp) returns (outcome: BudgetOutcome)
      requires Valid()
      modifies store
      ensures Valid()
      ensures outcome == NoBudget <==> selected.None? || !Truthy(totalPrice)
      ensures outcome == LockedBudget <==> selected.Some? && Truthy(totalPrice) && IsLocked(selected)
      ensures outcome == BudgetSaved <==> selected.Some? && Truthy(totalPrice) && !IsLocked(selected)
                                          && online && selected.value.id in old(store.docs)
      ensures outcome == BudgetSaved ==>
                var id := selected.value.id;
                store.docs == old(store.docs)[id := WithBudget(old(store.docs)[id], totalPrice, weight, materialType,
                                                               designHours, quantity, now)]
      ensures outcome != BudgetSaved ==> store.docs == old(store.docs)
    {
      if selected.None? || !Truthy(totalPrice) {
        return NoBudget;
      }
      if IsLocked(selected) {
        return LockedBudget;
      }
      if !online {
        return BudgetFailed;
      }
      var price, w, m, h, q := totalPrice, weight, materialType, designHours, quantity;
      var ok := store.Update(selected.value.id, (p: Project) => WithBudget(p, price, w, m, h, q, now));
      outcome := if ok then BudgetSaved else BudgetFailed;
    }
  }

  /** Choosing a project and saving at once writes its own budget back, as a number. */
  lemma SelectThenSaveKeepsBudget(p: Project)
    requires Truthy(p.fields.budget) && ToNumber(p.fields.budget).Some?
    ensures var f := p.fields;
            ToNumber(WithBudget(p, Or(f.budget, Number(0.0)), Or(f.weight, Number(0.0)), f.material,
                                Or(f.designHours, Number(0.0)), Or(f.quantity, Number(1.0)), 0).fields.budget)
            == ToNumber(f.budget)
  {
  }
}
