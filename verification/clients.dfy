/**
 * The client list: the name check, the three fields an edit writes, the
 * newest-first order, and the screen's handlers over the clients collection.
 */
module Clients {
  import opened Common
  import opened Js
  import opened Sorting
  import opened DocStore

  datatype ClientForm = ClientForm(name: string, email: string, phone: string)

  datatype Client = Client(name: string, email: string, phone: string, createdAt: Option<Timestamp>)

  datatype ClientEntry = ClientEntry(id: DocId, client: Client)

  const EmptyClientForm := ClientForm("", "", "")

  /** The document an add writes: the form plus `createdAt`. */
  function NewClient(f: ClientForm, now: Timestamp): (c: Client)
    ensures c.name == f.name && c.email == f.email && c.phone == f.phone && c.createdAt == Some(now)
  {
    Client(f.name, f.email, f.phone, Some(now))
  }

  /** The document after an edit: name, email and phone from the form, `createdAt` kept. */
  function Edited(c: Client, f: ClientForm): (r: Client)
    ensures r.name == f.name && r.email == f.email && r.phone == f.phone
    ensures r.createdAt == c.createdAt
  {
    c.(name := f.name, email := f.email, phone := f.phone)
  }

  /** `handleEditClick`: the form filled from a stored client. */
  function FormOf(c: Client): ClientForm {
    ClientForm(c.name, c.email, c.phone)
  }

  /** Opening a client and saving it unchanged leaves the document as it was. */
  lemma EditRoundTrip(c: Client)
    ensures Edited(c, FormOf(c)) == c
  {
  }

  /** Editing a client and then adding one with the same form differ only in `createdAt`. */
  lemma EditLikeAdd(c: Client, f: ClientForm, now: Timestamp)
    ensures Edited(c, f) == NewClient(f, now).(createdAt := c.createdAt)
  {
  }

  function CreatedKey(e: ClientEntry): real {
    CreatedOrZero(e.client.createdAt)
  }

  /** The comparator calls `createdAt.toDate()`, which throws on a document without the field. */
  predicate NoCreatedAt(e: ClientEntry) {
    e.client.createdAt.None?
  }

  const LoadError := "Error al cargar la lista de clientes."
  const EmptyNameError := "El nombre del cliente no puede estar vacío."
  const SaveError := "Error al guardar el cliente."
  const DeleteError := "Error al eliminar el cliente."

  class ClientScreen {
    const store: Collection<Client>
    var clients: seq<ClientEntry>
    var form: ClientForm
    var editing: Option<ClientEntry>
    var errorMessage: string
    var toDelete: Option<ClientEntry>
    var showDeleteModal: bool

    ghost predicate Valid()
      reads this, store
    {
      store.Valid()
    }

    constructor (store: Collection<Client>)
      requires store.Valid()
      ensures Valid() && this.store == store
      ensures clients == [] && form == EmptyClientForm && editing == None && errorMessage == ""
      ensures toDelete == None && !showDeleteModal
    {
      this.store := store;
      clients := [];
      form := EmptyClientForm;
      editing := None;
      errorMessage := "";
      toDelete := None;
      showDeleteModal := false;
    }

    /** A snapshot: the list newest first, or, when the sort throws, an error and the previous list. */
    method OnSnapshot(snapshot: seq<ClientEntry>)
      modifies this
      ensures ComparatorThrows(snapshot, NoCreatedAt) ==> clients == old(clients) && errorMessage == LoadError
      ensures !ComparatorThrows(snapshot, NoCreatedAt) ==> clients == SortDesc(snapshot, CreatedKey) && errorMessage == ""
      ensures form == old(form) && editing == old(editing)
      ensures toDelete == old(toDelete) && showDeleteModal == old(showDeleteModal)
    {
      if ComparatorThrows(snapshot, NoCreatedAt) {
        errorMessage := LoadError;
      } else {
        clients := SortDesc(snapshot, CreatedKey);
        errorMessage := "";
      }
    }

    /** `handleAddOrEditClient`; `online` says whether the backend takes the write. */
    method HandleAddOrEdit(online: bool, now: Timestamp) returns (outcome: SaveOutcome)
      requires Valid()
      modifies this, store
      ensures Valid()
      ensures outcome == Invalid <==> IsBlank(old(form).name)
      ensures outcome == Invalid ==> errorMessage == EmptyNameError
      ensures outcome == Saved <==> !IsBlank(old(form).name) && online
                                    && (old(editing).None? || old(editing).value.id in old(store.docs))
      ensures outcome == Saved && old(editing).Some? ==>
                var id := old(editing).value.id;
                id in old(store.docs) && store.docs == old(store.docs)[id := Edited(old(store.docs)[id], old(form))]
      ensures outcome == Saved && old(editing).None? ==>
                exists id: DocId :: id !in old(store.docs) && store.docs == old(store.docs)[id := NewClient(old(form), now)]
      ensures outcome != Saved ==> store.docs == old(store.docs)
      ensures outcome == Saved ==> form == EmptyClientForm && editing == None && errorMessage == ""
      ensures outcome == Failed ==> form == old(form) && editing == old(editing) && errorMessage == SaveError
      ensures outcome == Invalid ==> form == old(form) && editing == old(editing)
      ensures clients == old(clients) && toDelete == old(toDelete) && showDeleteModal == old(showDeleteModal)
    {
      if IsBlank(form.name) {
        errorMessage := EmptyNameError;
        return Invalid;
      }
      if !online {
        errorMessage := SaveError;
        return Failed;
      }
      var f := form;
      match editing {
        case Some(e) =>
          var ok := store.Update(e.id, (c: Client) => Edited(c, f));
          if !ok {
            errorMessage := SaveError;
            return Failed;
          }
          editing := None;
        case None =>
          var id := store.Add(NewClient(f, now));
      }
      form := EmptyClientForm;
      errorMessage := "";
      outcome := Saved;
    }

    /** `handleEditClick`. */
    method HandleEditClick(e: ClientEntry)
      modifies this
      ensures editing == Some(e) && form == FormOf(e.client)
      ensures clients == old(clients) && errorMessage == old(errorMessage)
      ensures toDelete == old(toDelete) && showDeleteModal == old(showDeleteModal)
    {
      editing := Some(e);
      form := FormOf(e.client);
    }

    /** `handleCancelEdit`. */
    method HandleCancelEdit()
      modifies this
      ensures editing == None && form == EmptyClientForm
      ensures clients == old(clients) && errorMessage == old(errorMessage)
      ensures toDelete == old(toDelete) && showDeleteModal == old(showDeleteModal)
    {
      editing := None;
      form := EmptyClientForm;
    }

    /** `handleDeleteClick`. */
    method HandleDeleteClick(e: ClientEntry)
      modifies this
      ensures toDelete == Some(e) && showDeleteModal
      ensures clients == old(clients) && form == old(form) && editing == old(editing) && errorMessage == old(errorMessage)
    {
      toDelete := Some(e);
      showDeleteModal := true;
    }

    /** `confirmDelete`: nothing without a selected client; the modal closes after the attempt either way. */
    method ConfirmDelete(online: bool) returns (deleted: bool)
      requires Valid()
      modifies this, store
      ensures Valid()
      ensures deleted <==> old(toDelete).Some? && online
      ensures store.docs == if deleted then old(store.docs) - {old(toDelete).value.id} else old(store.docs)
      ensures old(toDelete).Some? ==> !showDeleteModal
      ensures old(toDelete).None? ==> showDeleteModal == old(showDeleteModal) && errorMessage == old(errorMessage)
      ensures toDelete == if deleted then None else old(toDelete)
      ensures old(toDelete).Some? && !online ==> errorMessage == DeleteError
      ensures deleted ==> errorMessage == old(errorMessage)
      ensures clients == old(clients) && form == old(form) && editing == old(editing)
    {
      if toDelete.None? {
        return false;
      }
      if !online {
        errorMessage := DeleteError;
        showDeleteModal := false;
        return false;
      }
      store.Delete(toDelete.value.id);
      toDelete := None;
      showDeleteModal := false;
      deleted := true;
    }

    /** `cancelDelete`. */
    method CancelDelete()
      modifies this
      ensures toDelete == None && !showDeleteModal
      ensures clients == old(clients) && form == old(form) && editing == old(editing) && errorMessage == old(errorMessage)
    {
      toDelete := None;
      showDeleteModal := false;
    }
  }
}
