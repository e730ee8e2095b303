/**
 * The filament and resin inventory: the material document, the form that
 * edits it (numeric inputs coerced with `Number(x) || 0` on save), the
 * low-stock test, the brand-then-name order of the inventory list, and the
 * inventory screen's handlers over the materials collection.
 */
module Materials {
  import opened Common
  import opened Js
  import opened Sorting
  import opened DocStore

  datatype MaterialForm = MaterialForm(
    name: string,
    brand: string,
    materialType: string,
    color: string,
    pricePerKg: JsNum,
    stockInGrams: JsNum,
    reorderThreshold: JsNum)

  /** A stored material; the screen always writes its numeric fields as numbers. */
  datatype Material = Material(
    name: string,
    brand: string,
    materialType: string,
    color: string,
    pricePerKg: real,
    stockInGrams: real,
    reorderThreshold: real,
    pricePerGram: real,
    createdAt: Option<Timestamp>,
    updatedAt: Option<Timestamp>)

  /** A document of the snapshot: its id and its data. */
  datatype MaterialEntry = MaterialEntry(id: DocId, material: Material)

  /** The empty form: type PLA, colour white, everything else blank. */
  const DefaultForm := MaterialForm("", "", "PLA", "#FFFFFF", Blank, Blank, Blank)

  /** The save guard: name, brand and type must all be non-empty. */
  predicate HasRequiredFields(f: MaterialForm) {
    f.name != "" && f.brand != "" && f.materialType != ""
  }

  /** `Number(x) || 0`. */
  function NumberOrZero(x: JsNum): (r: real)
    ensures ToNumber(x).Some? ==> r == ToNumber(x).value
    ensures ToNumber(x).None? ==> r == 0.0
    ensures x.Blank? ==> r == 0.0
  {
    NumberOr(x, 0.0)
  }

  /**
   * The document the form saves: the text fields as entered, the three numbers
   * coerced, `pricePerGram` derived from the coerced price per kilogram, and the
   * given timestamps.
   */
  function FromForm(f: MaterialForm, createdAt: Option<Timestamp>, now: Timestamp): (m: Material)
    ensures m.name == f.name && m.brand == f.brand && m.materialType == f.materialType && m.color == f.color
    ensures m.pricePerKg == NumberOrZero(f.pricePerKg) && m.stockInGrams == NumberOrZero(f.stockInGrams)
    ensures m.reorderThreshold == NumberOrZero(f.reorderThreshold)
    ensures m.pricePerGram * 1000.0 == m.pricePerKg
    ensures m.createdAt == createdAt && m.updatedAt == Some(now)
  {
    Material(f.name, f.brand, f.materialType, f.color,
             NumberOrZero(f.pricePerKg), NumberOrZero(f.stockInGrams), NumberOrZero(f.reorderThreshold),
             NumberOrZero(f.pricePerKg) / 1000.0, createdAt, Some(now))
  }

  /** `handleEditClick`: the form filled from a stored material. */
  function FormOf(m: Material): MaterialForm {
    MaterialForm(m.name, m.brand, m.materialType, m.color,
                 Number(m.pricePerKg), Number(m.stockInGrams), Number(m.reorderThreshold))
  }

  /** Opening a material for edit and saving it unchanged writes the same values back. */
  lemma EditRoundTrip(m: Material, now: Timestamp)
    requires m.pricePerGram * 1000.0 == m.pricePerKg
    ensures FromForm(FormOf(m), m.createdAt, now) == m.(updatedAt := Some(now))
  {
  }

  /** The stock is below the reorder threshold. */
  predicate IsLowStock(m: Material) {
    m.stockInGrams < m.reorderThreshold
  }

  /** `a.brand.localeCompare(b.brand) || a.name.localeCompare(b.name)`, as "a may come before b". */
  predicate BrandThenNameLe(a: MaterialEntry, b: MaterialEntry) {
    if a.material.brand != b.material.brand then StrLe(a.material.brand, b.material.brand)
    else StrLe(a.material.name, b.material.name)
  }

  lemma BrandThenNameTransitive(a: MaterialEntry, b: MaterialEntry, c: MaterialEntry)
    requires BrandThenNameLe(a, b) && BrandThenNameLe(b, c)
    ensures BrandThenNameLe(a, c)
  {
    var x, y, z := a.material, b.material, c.material;
    if x.brand == y.brand && y.brand == z.brand {
      StrLeTransitive(x.name, y.name, z.name);
    } else if x.brand == z.brand {
      StrLeAntisymmetric(x.brand, y.brand);
      assert false;
    } else if x.brand != y.brand && y.brand != z.brand {
      StrLeTransitive(x.brand, y.brand, z.brand);
    }
  }

  /** The inventory comparator is a total preorder, so sorting with it is well defined. */
  lemma BrandThenNameIsTotalPreorder()
    ensures TotalPreorder(BrandThenNameLe)
  {
    forall a, b ensures BrandThenNameLe(a, b) || BrandThenNameLe(b, a) {
      StrLeTotal(a.material.brand, b.material.brand);
      StrLeTotal(a.material.name, b.material.name);
    }
    forall a, b, c | BrandThenNameLe(a, b) && BrandThenNameLe(b, c) ensures BrandThenNameLe(a, c) {
      BrandThenNameTransitive(a, b, c);
    }
  }

  class MaterialScreen {
    const store: Collection<Material>
    /** The sorted snapshot the screen lists. */
    var inventory: seq<MaterialEntry>
    var isLoading: bool
    var showAddForm: bool
    var form: MaterialForm
    var editing: Option<DocId>
    var toDelete: Option<DocId>

    ghost predicate Valid()
      reads this, store
    {
      store.Valid()
    }

    constructor (store: Collection<Material>)
      requires store.Valid()
      ensures Valid() && this.store == store
      ensures inventory == [] && isLoading && !showAddForm
      ensures form == DefaultForm && editing == None && toDelete == None
    {
      this.store := store;
      inventory := [];
      isLoading := true;
      showAddForm := false;
      form := DefaultForm;
      editing := None;
      toDelete := None;
    }

    /** A snapshot of the collection: the inventory is the snapshot ordered by brand, then name. */
    method OnSnapshot(snapshot: seq<MaterialEntry>)
      requires Valid()
      modifies this
      ensures Valid() && !isLoading
      ensures multiset(inventory) == multiset(snapshot)
      ensures forall i, j :: 0 <= i < j < |inventory| ==> BrandThenNameLe(inventory[i], inventory[j])
      ensures showAddForm == old(showAddForm) && form == old(form)
      ensures editing == old(editing) && toDelete == old(toDelete)
    {
      BrandThenNameIsTotalPreorder();
      SortCorrect(snapshot, BrandThenNameLe);
      inventory := Sort(snapshot, BrandThenNameLe);
      isLoading := false;
    }

    /** `resetFormAndClose`. */
    method ResetFormAndClose()
      modifies this
      ensures form == DefaultForm && editing == None && !showAddForm
      ensures inventory == old(inventory) && isLoading == old(isLoading) && toDelete == old(toDelete)
    {
      form := DefaultForm;
      editing := None;
      showAddForm := false;
    }

    /** `handleEditClick`: open the form on a stored material. */
    method HandleEditClick(e: MaterialEntry)
      modifies this
      ensures editing == Some(e.id) && form == FormOf(e.material) && showAddForm
      ensures inventory == old(inventory) && isLoading == old(isLoading) && toDelete == old(toDelete)
    {
      editing := Some(e.id);
      form := FormOf(e.material);
      showAddForm := true;
    }

    /** `handleToggleForm`: opening the form starts from a blank add. */
    method HandleToggleForm()
      modifies this
      ensures showAddForm == !old(showAddForm)
      ensures !old(showAddForm) ==> form == DefaultForm && editing == None
      ensures old(showAddForm) ==> form == old(form) && editing == old(editing)
      ensures inventory == old(inventory) && isLoading == old(isLoading) && toDelete == old(toDelete)
    {
      if !showAddForm {
        editing := None;
        form := DefaultForm;
      }
      showAddForm := !showAddForm;
    }

    /**
     * `handleAddOrEditMaterial`. `online` says whether the backend takes the
     * write; an update of a document that no longer exists is refused too.
     */
    method HandleAddOrEdit(online: bool, now: Timestamp) returns (outcome: SaveOutcome)
      requires Valid()
      modifies this, store
      ensures Valid()
      ensures outcome == Invalid <==> !HasRequiredFields(old(form))
      ensures outcome == Saved <==> HasRequiredFields(old(form)) && online
                                    && (old(editing).None? || old(editing).value in old(store.docs))
      ensures outcome == Saved && old(editing).Some? ==>
                var id := old(editing).value;
                id in old(store.docs) && store.docs == old(store.docs)[id := FromForm(old(form), old(store.docs)[id].createdAt, now)]
      ensures outcome == Saved && old(editing).None? ==>
                exists id: DocId :: id !in old(store.docs) && store.docs == old(store.docs)[id := FromForm(old(form), Some(now), now)]
      ensures outcome != Saved ==> store.docs == old(store.docs)
      ensures outcome == Saved ==> form == DefaultForm && editing == None && !showAddForm
      ensures outcome != Saved ==> form == old(form) && editing == old(editing) && showAddForm == old(showAddForm)
      ensures inventory == old(inventory) && toDelete == old(toDelete)
    {
      if !HasRequiredFields(form) {
        return Invalid;
      }
      if !online {
        return Failed;
      }
      var f := form;
      match editing {
        case Some(id) =>
          var ok := store.Update(id, (m: Material) => FromForm(f, m.createdAt, now));
          if !ok {
            return Failed;
          }
        case None =>
          var id := store.Add(FromForm(f, Some(now), now));
      }
      ResetFormAndClose();
      outcome := Saved;
    }

    /** `handleDeleteClick`. */
    method HandleDeleteClick(e: MaterialEntry)
      modifies this
      ensures toDelete == Some(e.id)
      ensures inventory == old(inventory) && form == old(form) && editing == old(editing) && showAddForm == old(showAddForm)
    {
      toDelete := Some(e.id);
    }

    /** `confirmDelete`: nothing without a selected material; the selection is cleared only on success. */
    method ConfirmDelete(online: bool) returns (deleted: bool)
      requires Valid()
      modifies this, store
      ensures Valid()
      ensures deleted <==> old(toDelete).Some? && online
      ensures store.docs == if deleted then old(store.docs) - {old(toDelete).value} else old(store.docs)
      ensures toDelete == if deleted then None else old(toDelete)
      ensures inventory == old(inventory) && form == old(form) && editing == old(editing) && showAddForm == old(showAddForm)
    {
      if toDelete.None? || !online {
        return false;
      }
      store.Delete(toDelete.value);
      toDelete := None;
      deleted := true;
    }
  }
}
