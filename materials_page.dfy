/**
 * The material register (pages/MaterialsPage.tsx): the stock-status
 * classification of each row, the role permissions, and the add/edit/delete
 * form handlers over the shared store.
 */
module MaterialsPage {
  import opened Types
  import Database
  import Notifications

  datatype StockStatus = Negative | OutOfStock | Low | Normal

  /** The row and badge classification, checked in this priority order. */
  function StockStatusOf(q: int): StockStatus
  {
    if q < 0 then Negative
    else if q == 0 then OutOfStock
    else if 0 < q < 20 then Low
    else Normal
  }

  /**
   * The three flags of the source never hold together, so the priority
   * order decides nothing and each status is exactly its own flag, with
   * "normal" for 20 and above. The statuses agree with the notifications:
   * low exactly when a low-stock alert is raised, negative or out of stock
   * exactly when a zero-stock alert is.
   */
  lemma StockStatusSpec(m: Material, movs: seq<Movement>, today: TimeMs)
    ensures StockStatusOf(m.quantidade) == Negative <==> m.quantidade < 0
    ensures StockStatusOf(m.quantidade) == OutOfStock <==> m.quantidade == 0
    ensures StockStatusOf(m.quantidade) == Low <==> 0 < m.quantidade < 20
    ensures StockStatusOf(m.quantidade) == Normal <==> m.quantidade >= 20
    ensures var alerts := Notifications.MaterialAlerts(m, movs, today);
            && (StockStatusOf(m.quantidade) == Low <==> Notifications.HasAlert(alerts, Types.LowStock))
            && (StockStatusOf(m.quantidade) in {Negative, OutOfStock} <==> Notifications.HasAlert(alerts, ZeroStock))
  {
    Notifications.MaterialAlertsSpec(m, movs, today);
  }

  function CanEdit(role: Option<Role>): bool
  {
    role == Some(Gerente) || role == Some(Diretor)
  }

  function CanDelete(role: Option<Role>): bool
  {
    role == Some(Diretor)
  }

  /** Only a Gerente or a Diretor may add or edit materials, only a Diretor delete them; an Operador may do neither. */
  lemma PermissionsSpec(role: Option<Role>)
    ensures CanDelete(role) ==> CanEdit(role)
    ensures CanEdit(role) <==> role.Some? && role.value != Operador
    ensures CanDelete(role) <==> role.Some? && role.value == Diretor
  {
    if role.Some? {
      assert role == Some(role.value);
    }
  }

  /** `currentMaterial` without the photo. */
  datatype MaterialForm = MaterialForm(
    nome: string,
    codigoFabricante: string,
    quantidade: int,
    armazenamento: string,
    valorUnitario: real)

  const INITIAL_FORM: MaterialForm := MaterialForm("", "", 0, "", 0.0)

  /** The form filled from an existing material. */
  function FormOf(m: Material): MaterialForm
  {
    MaterialForm(m.nome, m.codigoFabricante, m.quantidade, m.armazenamento, m.valorUnitario)
  }

  /** `isFormValid`. */
  predicate IsFormValid(f: MaterialForm)
  {
    f.nome != "" && f.codigoFabricante != "" && f.armazenamento != "" && f.valorUnitario > 0.0
  }

  /** `parseFloat(value) || 0` on the price field; `parsed` is None for NaN. */
  function PriceInput(parsed: Option<real>): real
  {
    match parsed
    case None => 0.0
    case Some(v) => v
  }

  /** `parseFloat(value) || 0` on the quantity field, taken as an integer. */
  function QuantityInput(parsed: Option<int>): int
  {
    match parsed
    case None => 0
    case Some(v) => v
  }

  /** An unparsable price falls back to 0 and so makes the form invalid; the empty form is invalid. */
  lemma InputFallbackSpec(f: MaterialForm, price: Option<real>, quantity: Option<int>)
    ensures price.None? ==> PriceInput(price) == 0.0 && !IsFormValid(f.(valorUnitario := PriceInput(price)))
    ensures quantity.None? ==> QuantityInput(quantity) == 0
    ensures IsFormValid(f) ==> IsFormValid(f.(quantidade := QuantityInput(quantity)))
    ensures !IsFormValid(INITIAL_FORM)
  {
  }

  /** The text inputs of the form, by their `name` attribute. */
  datatype TextField = Nome | CodigoFabricante | Armazenamento

  function FieldText(f: MaterialForm, k: TextField): string
  {
    match k
    case Nome => f.nome
    case CodigoFabricante => f.codigoFabricante
    case Armazenamento => f.armazenamento
  }

  /** `handleInputChange` on a text input: the value is stored as typed. */
  function WithText(f: MaterialForm, k: TextField, value: string): MaterialForm
  {
    match k
    case Nome => f.(nome := value)
    case CodigoFabricante => f.(codigoFabricante := value)
    case Armazenamento => f.(armazenamento := value)
  }

  /**
   * Typing in a text input sets that field to the typed text and no other;
   * the numbers are kept. Clearing any text field makes the form invalid,
   * and a form with the three texts and a positive price is valid.
   */
  lemma TextInputSpec(f: MaterialForm, k: TextField, value: string)
    ensures FieldText(WithText(f, k, value), k) == value
    ensures forall k' :: k' != k ==> FieldText(WithText(f, k, value), k') == FieldText(f, k')
    ensures WithText(f, k, value).quantidade == f.quantidade && WithText(f, k, value).valorUnitario == f.valorUnitario
    ensures value == "" ==> !IsFormValid(WithText(f, k, value))
    ensures IsFormValid(f) <==>
              (forall k' :: FieldText(f, k') != "") && f.valorUnitario > 0.0
  {
    assert FieldText(f, Nome) == f.nome;
    assert FieldText(f, CodigoFabricante) == f.codigoFabricante;
    assert FieldText(f, Armazenamento) == f.armazenamento;
  }

  /** What `addMaterial` receives. */
  function FormInput(f: MaterialForm): Database.MaterialInput
  {
    Database.MaterialInput(f.nome, f.codigoFabricante, f.quantidade, f.armazenamento, f.valorUnitario)
  }

  /**
   * `{ ...materialToEdit, ...currentMaterial }`: the form was filled from the
   * edited material, so its id and `entradas` are the edited material's.
   */
  function EditedMaterial(orig: Material, f: MaterialForm): Material
  {
    orig.(nome := f.nome, codigoFabricante := f.codigoFabricante, quantidade := f.quantidade,
          armazenamento := f.armazenamento, valorUnitario := f.valorUnitario)
  }

  /**
   * Saving an edit replaces every material with the edited id by the merged
   * material, which keeps its id and `entradas`; no id in the list changes,
   * and saving an untouched form changes nothing.
   */
  lemma EditedMaterialSpec(ms: seq<Material>, orig: Material, f: MaterialForm)
    ensures EditedMaterial(orig, f).id == orig.id && EditedMaterial(orig, f).entradas == orig.entradas
    ensures FormOf(EditedMaterial(orig, f)) == f
    ensures EditedMaterial(orig, FormOf(orig)) == orig
    ensures var r := Database.ReplaceMaterial(ms, EditedMaterial(orig, f));
            && |r| == |ms|
            && (forall i :: 0 <= i < |ms| ==> r[i].id == ms[i].id)
            && (forall i :: 0 <= i < |ms| ==> r[i] == if ms[i].id == orig.id then EditedMaterial(orig, f) else ms[i])
  {
  }

  /**
   * The page's form and selection state over the shared store. The
   * signed-in role is not state here: it only decides which buttons the
   * page renders, through the permission functions above.
   */
  class MaterialsPageState {
    const store: Database.Store
    var form: MaterialForm
    var editing: Option<Material>
    var toDelete: Option<Material>
    var modalOpen: bool
    var deleteModalOpen: bool

    constructor (store: Database.Store)
      ensures this.store == store
      ensures form == INITIAL_FORM && editing.None? && toDelete.None? && !modalOpen && !deleteModalOpen
    {
      this.store := store;
      form := INITIAL_FORM;
      editing := None;
      toDelete := None;
      modalOpen := false;
      deleteModalOpen := false;
    }

    /** `handleOpenAddModal`. */
    method OpenAddModal()
      modifies this
      ensures editing.None? && form == INITIAL_FORM && modalOpen
      ensures toDelete == old(toDelete) && deleteModalOpen == old(deleteModalOpen)
    {
      editing := None;
      form := INITIAL_FORM;
      modalOpen := true;
    }

    /** `handleOpenEditModal`. */
    method OpenEditModal(m: Material)
      modifies this
      ensures editing == Some(m) && form == FormOf(m) && modalOpen
      ensures toDelete == old(toDelete) && deleteModalOpen == old(deleteModalOpen)
    {
      editing := Some(m);
      form := FormOf(m);
      modalOpen := true;
    }

    /** `handleInputChange` on a text input. */
    method ChangeText(k: TextField, value: string)
      modifies this
      ensures form == WithText(old(form), k, value)
      ensures editing == old(editing) && modalOpen == old(modalOpen)
      ensures toDelete == old(toDelete) && deleteModalOpen == old(deleteModalOpen)
    {
      form := WithText(form, k, value);
    }

    /** `handleInputChange` on the price field. */
    method ChangePrice(parsed: Option<real>)
      modifies this
      ensures form == old(form).(valorUnitario := PriceInput(parsed))
      ensures editing == old(editing) && modalOpen == old(modalOpen)
      ensures toDelete == old(toDelete) && deleteModalOpen == old(deleteModalOpen)
    {
      form := form.(valorUnitario := PriceInput(parsed));
    }

    /** `handleInputChange` on the quantity field. */
    method ChangeQuantity(parsed: Option<int>)
      modifies this
      ensures form == old(form).(quantidade := QuantityInput(parsed))
      ensures editing == old(editing) && modalOpen == old(modalOpen)
      ensures toDelete == old(toDelete) && deleteModalOpen == old(deleteModalOpen)
    {
      form := form.(quantidade := QuantityInput(parsed));
    }

    /** `handleOpenDeleteModal`. */
    method OpenDeleteModal(m: Material)
      modifies this
      ensures toDelete == Some(m) && deleteModalOpen
      ensures form == old(form) && editing == old(editing) && modalOpen == old(modalOpen)
    {
      toDelete := Some(m);
      deleteModalOpen := true;
    }

    /** `handleConfirmDelete`: nothing without a selection; otherwise delete by id and clear it. */
    method ConfirmDelete()
      modifies this, store
      ensures old(toDelete).None? ==>
                store.materials == old(store.materials) && toDelete.None? && deleteModalOpen == old(deleteModalOpen)
      ensures old(toDelete).Some? ==>
                store.materials == Database.RemoveMaterial(old(store.materials), old(toDelete).value.id)
                && toDelete.None? && !deleteModalOpen
      ensures store.movements == old(store.movements) && store.collaborators == old(store.collaborators)
      ensures form == old(form) && editing == old(editing) && modalOpen == old(modalOpen)
    {
      if toDelete.None? {
        return;
      }
      store.DeleteMaterial(toDelete.value.id);
      deleteModalOpen := false;
      toDelete := None;
    }

    /** The modal's close action: only hides the modal, the edit selection stays. */
    method CloseModal()
      modifies this
      ensures !modalOpen
      ensures form == old(form) && editing == old(editing)
      ensures toDelete == old(toDelete) && deleteModalOpen == old(deleteModalOpen)
    {
      modalOpen := false;
    }

    /**
     * `handleSubmit`: an invalid form changes nothing; in edit mode the
     * merged material replaces the one with its id; otherwise a new material
     * is added. Only the modal is closed: the edit selection is kept.
     */
    method Submit(newId: string)
      modifies this, store
      ensures !IsFormValid(old(form)) ==> store.materials == old(store.materials) && modalOpen == old(modalOpen)
      ensures IsFormValid(old(form)) && old(editing).Some? ==>
                store.materials == Database.ReplaceMaterial(old(store.materials), EditedMaterial(old(editing).value, old(form)))
      ensures IsFormValid(old(form)) && old(editing).None? ==>
                store.materials == [Database.NewMaterial(FormInput(old(form)), newId)] + old(store.materials)
      ensures IsFormValid(old(form)) ==> !modalOpen
      ensures store.movements == old(store.movements) && store.collaborators == old(store.collaborators)
      ensures form == old(form) && editing == old(editing)
      ensures toDelete == old(toDelete) && deleteModalOpen == old(deleteModalOpen)
    {
      if !IsFormValid(form) {
        return;
      }
      if editing.Some? {
        store.UpdateMaterial(EditedMaterial(editing.value, form));
      } else {
        store.AddMaterial(FormInput(form), newId);
      }
      modalOpen := false;
    }
  }
}
