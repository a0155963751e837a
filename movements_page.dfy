/**
 * The entry, exit and consumption pages (pages/MovementsPage.tsx): the list
 * of one movement type, the permission flags, and the add/edit/delete form
 * handlers over the shared store.
 */
module MovementsPage {
  import opened Types
  import opened Text
  import opened Seqs
  import Database

  /** `currentMovement`; an empty date field is None. */
  datatype MovementForm = MovementForm(
    material: string,
    quantidade: int,
    colaborador: string,
    data: Option<Day>,
    notaFiscal: string)

  /** `initialFormState`, with today's date. */
  function InitialForm(today: Day): MovementForm
  {
    MovementForm("", 0, "", Some(today), "")
  }

  /** The text inputs and selects of the form, by their `name` attribute. */
  datatype TextField = MaterialName | CollaboratorName | Invoice

  function FieldText(f: MovementForm, k: TextField): string
  {
    match k
    case MaterialName => f.material
    case CollaboratorName => f.colaborador
    case Invoice => f.notaFiscal
  }

  /** `handleInputChange` on a text field: the value is stored as typed. */
  function WithText(f: MovementForm, k: TextField, value: string): MovementForm
  {
    match k
    case MaterialName => f.(material := value)
    case CollaboratorName => f.(colaborador := value)
    case Invoice => f.(notaFiscal := value)
  }

  /** The movements of the page's type, in list order. */
  function Listed(movs: seq<Movement>, kind: MovementType): seq<Movement>
  {
    Filter(movs, (m: Movement) => m.tipo == kind)
  }

  /**
   * The page lists exactly the movements of its type, each as often as it is
   * stored, and listing two runs one after the other keeps their order.
   */
  lemma ListedSpec(movs: seq<Movement>, more: seq<Movement>, kind: MovementType)
    ensures forall k :: 0 <= k < |Listed(movs, kind)| ==> Listed(movs, kind)[k].tipo == kind
    ensures forall mv: Movement :: mv.tipo == kind ==> multiset(Listed(movs, kind))[mv] == multiset(movs)[mv]
    ensures forall mv :: mv in Listed(movs, kind) ==> mv.tipo == kind
    ensures Listed(movs + more, kind) == Listed(movs, kind) + Listed(more, kind)
  {
    FilterMultiset(movs, (m: Movement) => m.tipo == kind);
    FilterAppend(movs, more, (m: Movement) => m.tipo == kind);
  }

  function CanAdd(role: Option<Role>): bool
  {
    role == Some(Operador) || role == Some(Gerente) || role == Some(Diretor)
  }

  function CanEdit(role: Option<Role>): bool
  {
    role == Some(Operador) || role == Some(Gerente) || role == Some(Diretor)
  }

  function CanDelete(role: Option<Role>): bool
  {
    role == Some(Diretor)
  }

  /** Whether the row's delete button is shown. */
  function DeleteOffered(role: Option<Role>, mv: Movement): bool
  {
    CanDelete(role) || (CanEdit(role) && StartsWith(mv.id, "MOV1"))
  }

  /**
   * Every signed-in user may add and edit; only a Diretor may delete, yet
   * the delete button also appears to every signed-in user on a movement
   * whose id starts with `MOV1`.
   */
  lemma PermissionsSpec(role: Option<Role>, mv: Movement)
    ensures CanAdd(role) <==> role.Some?
    ensures CanEdit(role) <==> role.Some?
    ensures CanDelete(role) ==> CanEdit(role)
    ensures DeleteOffered(role, mv) <==> role == Some(Diretor) || (role.Some? && StartsWith(mv.id, "MOV1"))
    ensures role.Some? && role != Some(Diretor) && DeleteOffered(role, mv) ==> !CanDelete(role)
  {
    if role.Some? {
      assert role == Some(role.value);
      match role.value {
        case Operador =>
        case Gerente =>
        case Diretor =>
      }
    }
  }

  /** `isFormValid`. */
  predicate IsFormValid(f: MovementForm)
  {
    f.material != "" && f.colaborador != "" && f.quantidade > 0 && f.data.Some?
  }

  /** `parseInt(value, 10) || 0`, where `parsed` is what `parseInt` returned (None for NaN). */
  function QuantityInput(parsed: Option<int>): int
  {
    match parsed
    case None => 0
    case Some(v) => v
  }

  /** Unparsable or non-positive quantity input leaves the form invalid. */
  lemma QuantityInputSpec(f: MovementForm, parsed: Option<int>)
    ensures parsed.None? ==> !IsFormValid(f.(quantidade := QuantityInput(parsed)))
    ensures parsed.Some? && parsed.value <= 0 ==> !IsFormValid(f.(quantidade := QuantityInput(parsed)))
    ensures parsed.Some? ==> QuantityInput(parsed) == parsed.value
  {
  }

  /**
   * Typing in a text field sets that field to the typed text and no other;
   * quantity and date are kept. Clearing the material or the collaborator
   * makes the form invalid, while the invoice field never affects validity.
   */
  lemma TextInputSpec(f: MovementForm, k: TextField, value: string)
    ensures FieldText(WithText(f, k, value), k) == value
    ensures forall k' :: k' != k ==> FieldText(WithText(f, k, value), k') == FieldText(f, k')
    ensures WithText(f, k, value).quantidade == f.quantidade && WithText(f, k, value).data == f.data
    ensures value == "" && k != Invoice ==> !IsFormValid(WithText(f, k, value))
    ensures IsFormValid(WithText(f, Invoice, value)) <==> IsFormValid(f)
  {
  }

  /** What `addMovement` receives from the form: the invoice field is passed as typed. */
  function FormInput(f: MovementForm): Database.MovementInput
    requires f.data.Some?
  {
    Database.MovementInput(f.material, f.quantidade, f.colaborador, f.data.value, Some(f.notaFiscal))
  }

  /** The form filled from an existing movement; a missing invoice shows as empty. */
  function FormOf(mv: Movement): MovementForm
  {
    MovementForm(mv.material, mv.quantidade, mv.colaborador, Some(mv.data),
                 match mv.notaFiscal case Some(n) => n case None => "")
  }

  /** `{ ...movementToEdit, ...currentMovement }`. */
  function EditedMovement(orig: Movement, f: MovementForm): Movement
    requires f.data.Some?
  {
    Movement(orig.id, f.material, f.quantidade, f.colaborador, orig.tipo, f.data.value, Some(f.notaFiscal))
  }

  /**
   * Editing keeps the id and the type and takes everything else from the
   * form; opening the form on a movement and saving it unchanged gives the
   * same movement back, except that a missing invoice becomes empty.
   */
  lemma EditedMovementSpec(orig: Movement, f: MovementForm)
    requires f.data.Some?
    ensures var e := EditedMovement(orig, f);
            && e.id == orig.id && e.tipo == orig.tipo
            && e.material == f.material && e.quantidade == f.quantidade && e.colaborador == f.colaborador
            && e.data == f.data.value && e.notaFiscal == Some(f.notaFiscal)
    ensures orig.notaFiscal.Some? ==> EditedMovement(orig, FormOf(orig)) == orig
    ensures orig.notaFiscal.None? ==> EditedMovement(orig, FormOf(orig)) == orig.(notaFiscal := Some(""))
  {
  }

  /**
   * The page's form and selection state over the shared store. The
   * signed-in role is not state here: it only decides which buttons the
   * page renders, through the permission functions above.
   */
  class MovementsPageState {
    const store: Database.Store
    const kind: MovementType
    var form: MovementForm
    var editing: Option<Movement>
    var toDelete: Option<Movement>
    var modalOpen: bool
    var deleteModalOpen: bool

    constructor (store: Database.Store, kind: MovementType, today: Day)
      ensures this.store == store && this.kind == kind
      ensures form == InitialForm(today) && editing.None? && toDelete.None? && !modalOpen && !deleteModalOpen
    {
      this.store := store;
      this.kind := kind;
      form := InitialForm(today);
      editing := None;
      toDelete := None;
      modalOpen := false;
      deleteModalOpen := false;
    }

    /** `handleOpenAddModal`. */
    method OpenAddModal(today: Day)
      modifies this
      ensures editing.None? && form == InitialForm(today) && modalOpen
      ensures toDelete == old(toDelete) && deleteModalOpen == old(deleteModalOpen)
    {
      editing := None;
      form := InitialForm(today);
      modalOpen := true;
    }

    /** `handleOpenEditModal`. */
    method OpenEditModal(mv: Movement)
      modifies this
      ensures editing == Some(mv) && form == FormOf(mv) && modalOpen
      ensures toDelete == old(toDelete) && deleteModalOpen == old(deleteModalOpen)
    {
      editing := Some(mv);
      form := FormOf(mv);
      modalOpen := true;
    }

    /** `handleInputChange` on a text field. */
    method ChangeText(k: TextField, value: string)
      modifies this
      ensures form == WithText(old(form), k, value)
      ensures editing == old(editing) && modalOpen == old(modalOpen)
      ensures toDelete == old(toDelete) && deleteModalOpen == old(deleteModalOpen)
    {
      form := WithText(form, k, value);
    }

    /** `handleInputChange` on the date field; a cleared field is None. */
    method ChangeDate(d: Option<Day>)
      modifies this
      ensures form == old(form).(data := d)
      ensures editing == old(editing) && modalOpen == old(modalOpen)
      ensures toDelete == old(toDelete) && deleteModalOpen == old(deleteModalOpen)
    {
      form := form.(data := d);
    }

    /** `handleInputChange` on the quantity field. */
    method ChangeQuantity(parsed: Option<int>)
      modifies this
      ensures form == old(form).(quantidade := QuantityInput(parsed))
      ensures editing == old(editing) && modalOpen == old(modalOpen)
      ensures toDelete == old(toDelete) && deleteModalOpen == old(deleteModalOpen)
    {
      form := form.(quantidade := QuantityInput(parsed));
    }

    /** `handleOpenDeleteModal`. */
    method OpenDeleteModal(mv: Movement)
      modifies this
      ensures toDelete == Some(mv) && deleteModalOpen
      ensures form == old(form) && editing == old(editing) && modalOpen == old(modalOpen)
    {
      toDelete := Some(mv);
      deleteModalOpen := true;
    }

    /** `handleConfirmDelete`: nothing without a selection; otherwise delete by id and clear it. */
    method ConfirmDelete()
      modifies this, store
      ensures old(toDelete).None? ==>
                store.movements == old(store.movements) && toDelete.None? && deleteModalOpen == old(deleteModalOpen)
      ensures old(toDelete).Some? ==>
                store.movements == Database.RemoveMovement(old(store.movements), old(toDelete).value.id)
                && toDelete.None? && !deleteModalOpen
      ensures store.materials == old(store.materials) && store.collaborators == old(store.collaborators)
      ensures form == old(form) && editing == old(editing) && modalOpen == old(modalOpen)
    {
      if toDelete.None? {
        return;
      }
      store.DeleteMovement(toDelete.value.id);
      deleteModalOpen := false;
      toDelete := None;
    }

    /** `closeModal`. */
    method CloseModal()
      modifies this
      ensures !modalOpen && editing.None?
      ensures form == old(form) && toDelete == old(toDelete) && deleteModalOpen == old(deleteModalOpen)
    {
      modalOpen := false;
      editing := None;
    }

    /**
     * `handleSubmit`: an invalid form changes nothing; when editing, the
     * merged movement replaces the one with its id (stock untouched);
     * otherwise the form goes to `addMovement` with the page's type.
     */
    method Submit(newId: string)
      modifies this, store
      ensures !IsFormValid(old(form)) ==>
                store.movements == old(store.movements) && store.materials == old(store.materials)
                && modalOpen == old(modalOpen) && editing == old(editing)
      ensures IsFormValid(old(form)) && old(editing).Some? ==>
                store.movements == Database.ReplaceMovement(old(store.movements), EditedMovement(old(editing).value, old(form)))
                && store.materials == old(store.materials)
      ensures IsFormValid(old(form)) && old(editing).None? ==>
                store.movements == Database.MovementsAfter(old(store.materials), old(store.collaborators), old(store.movements),
                                                           FormInput(old(form)), kind, newId)
                && store.materials == Database.StockAfter(old(store.materials), old(store.collaborators),
                                                          FormInput(old(form)), kind, newId)
      ensures IsFormValid(old(form)) ==> !modalOpen && editing.None?
      ensures store.collaborators == old(store.collaborators)
      ensures form == old(form) && toDelete == old(toDelete) && deleteModalOpen == old(deleteModalOpen)
    {
      if !IsFormValid(form) {
        return;
      }
      if editing.Some? {
        store.UpdateMovement(EditedMovement(editing.value, form));
      } else {
        store.AddMovement(FormInput(form), kind, newId);
      }
      CloseModal();
    }
  }
}
