/**
 * The in-memory entity store (contexts/DatabaseContext.tsx): the material,
 * movement and collaborator lists, replaced wholesale by each operation.
 * Each new list is a pure function of the old one; the class methods apply
 * them, and the lemmas state what they preserve.
 */
module Database {
  import opened Types
  import opened Text
  import opened Seqs

  /** What `addMovement` receives: a movement without `id` and `tipo`. */
  datatype MovementInput = MovementInput(
    material: string,
    quantidade: int,
    colaborador: string,
    data: Day,
    notaFiscal: Option<string>)

  /** What `addMaterial` receives: a material without `id` and `entradas`. */
  datatype MaterialInput = MaterialInput(
    nome: string,
    codigoFabricante: string,
    quantidade: int,
    armazenamento: string,
    valorUnitario: real)

  /** `materials.find(m => m.nome.toLowerCase() === name.toLowerCase())`, as an index. */
  function FindMaterialByName(ms: seq<Material>, name: string): Option<nat>
  {
    FirstIndex(ms, (m: Material) => EqualsIgnoreCase(m.nome, name))
  }

  /** `collaborators.find(c => c.nome.toLowerCase() === name.toLowerCase())`, as an index. */
  function FindCollaboratorByName(cs: seq<Collaborator>, name: string): Option<nat>
  {
    FirstIndex(cs, (c: Collaborator) => EqualsIgnoreCase(c.nome, name))
  }

  /** The signed change in stock a movement of this kind causes. */
  function StockDelta(kind: MovementType, q: int): int
  {
    if kind == Entrada then q else -q
  }

  function MovementDate(m: Movement): int
  {
    m.data
  }

  /** `[mv, ...movs].sort((a, b) => date(b) - date(a))`. */
  function RecordMovement(movs: seq<Movement>, mv: Movement): seq<Movement>
  {
    SortDesc([mv] + movs, MovementDate)
  }

  /** The movement `addMovement` stores once both names are resolved. */
  function CanonicalMovement(input: MovementInput, kind: MovementType, m: Material, c: Collaborator, newId: string): Movement
  {
    Movement(newId, m.nome, input.quantidade, c.nome, kind, input.data,
             if kind == Entrada then input.notaFiscal else None)
  }

  datatype AddMovementOutcome =
    | MaterialNotFound
    | CollaboratorNotFound
    | Recorded(movement: Movement, materialIndex: nat)

  /** Which branch `addMovement` takes, and the movement it records. */
  function ResolveMovement(ms: seq<Material>, cs: seq<Collaborator>, input: MovementInput, kind: MovementType, newId: string): (r: AddMovementOutcome)
    ensures r.Recorded? ==> r.materialIndex < |ms|
  {
    match FindMaterialByName(ms, input.material)
    case None => MaterialNotFound
    case Some(i) =>
      match FindCollaboratorByName(cs, input.colaborador)
      case None => CollaboratorNotFound
      case Some(j) => Recorded(CanonicalMovement(input, kind, ms[i], cs[j], newId), i)
  }

  /**
   * The material list after `addMovement`: the resolved material's stock
   * moves by the signed delta, or the list stays as it is when a name does
   * not resolve.
   */
  function StockAfter(ms: seq<Material>, cs: seq<Collaborator>, input: MovementInput, kind: MovementType, newId: string): seq<Material>
  {
    var o := ResolveMovement(ms, cs, input, kind, newId);
    if o.Recorded? then SetStock(ms, ms[o.materialIndex].id, ms[o.materialIndex].quantidade + StockDelta(kind, input.quantidade))
    else ms
  }

  /** The movement list after `addMovement`. */
  function MovementsAfter(ms: seq<Material>, cs: seq<Collaborator>, movs: seq<Movement>, input: MovementInput, kind: MovementType, newId: string): seq<Movement>
  {
    var o := ResolveMovement(ms, cs, input, kind, newId);
    if o.Recorded? then RecordMovement(movs, o.movement) else movs
  }

  lemma AfterRecorded(ms: seq<Material>, cs: seq<Collaborator>, movs: seq<Movement>, input: MovementInput, kind: MovementType, newId: string)
    requires ResolveMovement(ms, cs, input, kind, newId).Recorded?
    ensures var o := ResolveMovement(ms, cs, input, kind, newId);
            StockAfter(ms, cs, input, kind, newId)
              == SetStock(ms, ms[o.materialIndex].id, ms[o.materialIndex].quantidade + StockDelta(kind, input.quantidade))
    ensures MovementsAfter(ms, cs, movs, input, kind, newId) == RecordMovement(movs, ResolveMovement(ms, cs, input, kind, newId).movement)
  {
  }

  lemma AfterUnresolved(ms: seq<Material>, cs: seq<Collaborator>, movs: seq<Movement>, input: MovementInput, kind: MovementType, newId: string)
    requires !ResolveMovement(ms, cs, input, kind, newId).Recorded?
    ensures StockAfter(ms, cs, input, kind, newId) == ms
    ensures MovementsAfter(ms, cs, movs, input, kind, newId) == movs
  {
  }

  /** `updateMaterialStock`: every material with this id gets the new quantity. */
  function SetStock(ms: seq<Material>, id: string, q: int): seq<Material>
  {
    if ms == [] then []
    else [if ms[0].id == id then ms[0].(quantidade := q) else ms[0]] + SetStock(ms[1..], id, q)
  }

  /** `updateMovement`. */
  function ReplaceMovement(movs: seq<Movement>, updated: Movement): seq<Movement>
  {
    MapWhere(movs, (m: Movement) => m.id == updated.id, (m: Movement) => updated)
  }

  /** `deleteMovement`. */
  function RemoveMovement(movs: seq<Movement>, id: string): seq<Movement>
  {
    Filter(movs, (m: Movement) => m.id != id)
  }

  /** The material `addMaterial` prepends: its inflow counter starts at its quantity. */
  function NewMaterial(input: MaterialInput, newId: string): Material
  {
    Material(newId, input.nome, input.codigoFabricante, input.quantidade, input.armazenamento,
             Some(input.quantidade), input.valorUnitario)
  }

  /** `updateMaterial`. */
  function ReplaceMaterial(ms: seq<Material>, updated: Material): seq<Material>
  {
    MapWhere(ms, (m: Material) => m.id == updated.id, (m: Material) => updated)
  }

  /** `deleteMaterial`. */
  function RemoveMaterial(ms: seq<Material>, id: string): seq<Material>
  {
    Filter(ms, (m: Material) => m.id != id)
  }

  /** `updateCollaboratorRole`. */
  function SetRole(cs: seq<Collaborator>, id: string, role: Role): seq<Collaborator>
  {
    MapWhere(cs, (c: Collaborator) => c.id == id, (c: Collaborator) => c.(role := role))
  }

  function TotalStock(ms: seq<Material>): int
  {
    if ms == [] then 0 else ms[0].quantidade + TotalStock(ms[1..])
  }

  predicate UniqueIds(ms: seq<Material>)
  {
    forall i, j :: 0 <= i < j < |ms| ==> ms[i].id != ms[j].id
  }

  /**
   * `addMovement` records a movement exactly when both names resolve
   * case-insensitively; it then carries the stored (canonical) names of the
   * first matches, the given kind and quantity, and an invoice only for an inflow.
   */
  lemma ResolveMovementSpec(ms: seq<Material>, cs: seq<Collaborator>, input: MovementInput, kind: MovementType, newId: string)
    ensures ResolveMovement(ms, cs, input, kind, newId).Recorded? <==>
              (exists i :: 0 <= i < |ms| && EqualsIgnoreCase(ms[i].nome, input.material)) &&
              (exists j :: 0 <= j < |cs| && EqualsIgnoreCase(cs[j].nome, input.colaborador))
    ensures ResolveMovement(ms, cs, input, kind, newId).Recorded? ==>
              var o := ResolveMovement(ms, cs, input, kind, newId);
              var i := o.materialIndex;
              && i < |ms| && EqualsIgnoreCase(ms[i].nome, input.material)
              && (forall k :: 0 <= k < i ==> !EqualsIgnoreCase(ms[k].nome, input.material))
              && o.movement.material == ms[i].nome
              && EqualsIgnoreCase(o.movement.colaborador, input.colaborador)
              && (exists j :: 0 <= j < |cs| && cs[j].nome == o.movement.colaborador)
              && (exists j :: 0 <= j < |cs| && EqualsIgnoreCase(cs[j].nome, input.colaborador)
                   && (forall k :: 0 <= k < j ==> !EqualsIgnoreCase(cs[k].nome, input.colaborador))
                   && o.movement.colaborador == cs[j].nome)
              && o.movement.id == newId && o.movement.tipo == kind
              && o.movement.quantidade == input.quantidade && o.movement.data == input.data
              && o.movement.notaFiscal == (if kind == Entrada then input.notaFiscal else None)
  {
    var pm := (m: Material) => EqualsIgnoreCase(m.nome, input.material);
    var pc := (c: Collaborator) => EqualsIgnoreCase(c.nome, input.colaborador);
    var fm := FirstIndex(ms, pm);
    var fc := FirstIndex(cs, pc);
    if fm.None? {
      assert forall i :: 0 <= i < |ms| ==> !pm(ms[i]);
    } else if fc.None? {
      assert forall j :: 0 <= j < |cs| ==> !pc(cs[j]);
    } else {
      assert pm(ms[fm.value]) && pc(cs[fc.value]);
    }
  }

  /**
   * Recording a movement: the list grows by exactly that movement and ends
   * up sorted newest first.
   */
  lemma RecordMovementSorted(movs: seq<Movement>, mv: Movement)
    ensures |RecordMovement(movs, mv)| == |movs| + 1
    ensures multiset(RecordMovement(movs, mv)) == multiset(movs) + multiset{mv}
    ensures SortedDesc(RecordMovement(movs, mv), MovementDate)
  {
    SortDescCorrect([mv] + movs, MovementDate);
  }

  /** The new movement comes after every later movement and before every other one, same date included. */
  lemma RecordMovementPlacement(movs: seq<Movement>, mv: Movement)
    ensures var r := RecordMovement(movs, mv);
            exists k :: 0 <= k < |r| && r[k] == mv &&
              (forall j :: 0 <= j < k ==> r[j].data > mv.data) &&
              (forall j :: k < j < |r| ==> r[j].data <= mv.data)
  {
    RecordMovementUnfold(movs, mv);
    SortDescCorrect(movs, MovementDate);
    InsertDescPlacement(mv, SortDesc(movs, MovementDate), MovementDate);
  }

  lemma RecordMovementUnfold(movs: seq<Movement>, mv: Movement)
    ensures RecordMovement(movs, mv) == InsertDesc(mv, SortDesc(movs, MovementDate), MovementDate)
  {
    assert ([mv] + movs)[1..] == movs;
  }

  /** When the list is already newest first, recording inserts the movement and keeps every other entry in place. */
  lemma RecordMovementIntoSorted(movs: seq<Movement>, mv: Movement)
    requires SortedDesc(movs, MovementDate)
    ensures exists k :: 0 <= k <= |movs| && RecordMovement(movs, mv) == movs[..k] + [mv] + movs[k..]
  {
    SortDescSortedFixpoint(movs, MovementDate);
    RecordMovementUnfold(movs, mv);
    InsertDescSplit(mv, movs, MovementDate);
    var k := InsertPos(mv, movs, MovementDate);
    assert RecordMovement(movs, mv) == movs[..k] + [mv] + movs[k..];
  }

  /**
   * The whole effect of `addMovement`: nothing changes when a name does not
   * resolve; otherwise exactly one movement is added and the resolved
   * material's stock moves by +q for an inflow and −q for the other kinds,
   * with no lower bound, while every material with another id is unchanged.
   */
  lemma AddMovementEffect(ms: seq<Material>, cs: seq<Collaborator>, movs: seq<Movement>, input: MovementInput, kind: MovementType, newId: string)
    ensures var o := ResolveMovement(ms, cs, input, kind, newId);
            var ms', movs' := StockAfter(ms, cs, input, kind, newId), MovementsAfter(ms, cs, movs, input, kind, newId);
            if !o.Recorded? then ms' == ms && movs' == movs
            else
              var i := o.materialIndex;
              && |movs'| == |movs| + 1 && multiset(movs') == multiset(movs) + multiset{o.movement}
              && |ms'| == |ms| && ms'[i] == ms[i].(quantidade := ms[i].quantidade + StockDelta(kind, input.quantidade))
              && (forall k :: 0 <= k < |ms| && ms[k].id != ms[i].id ==> ms'[k] == ms[k])
  {
    var o := ResolveMovement(ms, cs, input, kind, newId);
    if o.Recorded? {
      AfterRecorded(ms, cs, movs, input, kind, newId);
      RecordMovementSorted(movs, o.movement);
      var i := o.materialIndex;
      SetStockAt(ms, ms[i].id, ms[i].quantidade + StockDelta(kind, input.quantidade));
    }
  }

  /**
   * `updateMaterialStock` rewrites only `quantidade`, and only of the entries
   * with that id; every other field and entry is kept.
   */
  lemma {:induction false} SetStockEffect(ms: seq<Material>, id: string, q: int)
    ensures |SetStock(ms, id, q)| == |ms|
    ensures forall i :: 0 <= i < |ms| ==>
              var m, m' := ms[i], SetStock(ms, id, q)[i];
              && m'.id == m.id && m'.nome == m.nome && m'.codigoFabricante == m.codigoFabricante
              && m'.armazenamento == m.armazenamento && m'.entradas == m.entradas
              && m'.valorUnitario == m.valorUnitario
              && m'.quantidade == (if m.id == id then q else m.quantidade)
  {
    SetStockAt(ms, id, q);
  }

  lemma {:induction false} SetStockAt(ms: seq<Material>, id: string, q: int)
    ensures |SetStock(ms, id, q)| == |ms|
    ensures forall i :: 0 <= i < |ms| ==>
              SetStock(ms, id, q)[i] == if ms[i].id == id then ms[i].(quantidade := q) else ms[i]
  {
    if ms != [] {
      SetStockAt(ms[1..], id, q);
    }
  }

  /** With unique ids, overwriting one material's stock changes the total by the difference. */
  lemma {:induction false} SetStockTotal(ms: seq<Material>, i: nat, q: int)
    requires UniqueIds(ms) && i < |ms|
    ensures TotalStock(SetStock(ms, ms[i].id, q)) == TotalStock(ms) - ms[i].quantidade + q
  {
    var id := ms[i].id;
    var r := SetStock(ms, id, q);
    assert r[1..] == SetStock(ms[1..], id, q);
    if i == 0 {
      SetStockUntouched(ms[1..], id, q);
    } else {
      SetStockTotal(ms[1..], i - 1, q);
    }
  }

  lemma {:induction false} SetStockUntouched(ms: seq<Material>, id: string, q: int)
    requires forall k :: 0 <= k < |ms| ==> ms[k].id != id
    ensures SetStock(ms, id, q) == ms
  {
    if ms != [] {
      SetStockUntouched(ms[1..], id, q);
      assert ms == [ms[0]] + ms[1..];
    }
  }

  /**
   * Stock conservation: with unique ids, moving one material's stock by a
   * signed delta, as a recorded movement does, changes the total stock by
   * exactly that delta, with no lower bound.
   */
  lemma StockDeltaTotal(ms: seq<Material>, i: nat, delta: int)
    requires UniqueIds(ms) && i < |ms|
    ensures TotalStock(SetStock(ms, ms[i].id, ms[i].quantidade + delta)) == TotalStock(ms) + delta
  {
    SetStockTotal(ms, i, ms[i].quantidade + delta);
  }

  /** `updateMovement` keeps the length and replaces exactly the entries with the same id. */
  lemma ReplaceMovementEffect(movs: seq<Movement>, updated: Movement)
    ensures |ReplaceMovement(movs, updated)| == |movs|
    ensures forall i :: 0 <= i < |movs| ==>
              ReplaceMovement(movs, updated)[i] == (if movs[i].id == updated.id then updated else movs[i])
  {
  }

  /** `deleteMovement` removes exactly the entries with that id and keeps the others in order. */
  lemma RemoveMovementEffect(movs: seq<Movement>, id: string, before: seq<Movement>, after: seq<Movement>, m: Movement)
    ensures forall k :: 0 <= k < |RemoveMovement(movs, id)| ==> RemoveMovement(movs, id)[k].id != id
    ensures m.id != id ==> multiset(RemoveMovement(movs, id))[m] == multiset(movs)[m]
    ensures RemoveMovement(before + after, id) == RemoveMovement(before, id) + RemoveMovement(after, id)
  {
    FilterMultiset(movs, (x: Movement) => x.id != id);
    FilterAppend(before, after, (x: Movement) => x.id != id);
  }

  /** `deleteMaterial` removes exactly the entries with that id and keeps the others. */
  lemma RemoveMaterialEffect(ms: seq<Material>, id: string, m: Material)
    ensures forall k :: 0 <= k < |RemoveMaterial(ms, id)| ==> RemoveMaterial(ms, id)[k].id != id
    ensures m.id != id ==> multiset(RemoveMaterial(ms, id))[m] == multiset(ms)[m]
  {
    FilterMultiset(ms, (x: Material) => x.id != id);
  }

  /** `updateCollaboratorRole` rewrites only `role`, and only of the entries with that id. */
  lemma SetRoleEffect(cs: seq<Collaborator>, id: string, role: Role)
    ensures |SetRole(cs, id, role)| == |cs|
    ensures forall i :: 0 <= i < |cs| ==>
              var c, c' := cs[i], SetRole(cs, id, role)[i];
              c'.id == c.id && c'.nome == c.nome && c'.role == (if c.id == id then role else c.role)
  {
  }

  class Store {
    var materials: seq<Material>
    var movements: seq<Movement>
    var collaborators: seq<Collaborator>

    /** The seed data (the mock database) is a parameter. */
    constructor (ms: seq<Material>, movs: seq<Movement>, cs: seq<Collaborator>)
      ensures materials == ms && movements == movs && collaborators == cs
    {
      materials, movements, collaborators := ms, movs, cs;
    }

    /**
     * Resolves both names, records the movement under the canonical names and
     * applies the signed stock delta to the resolved material; does nothing
     * when either name is unknown. `newId` stands for `MOV${Date.now()}`.
     */
    method AddMovement(input: MovementInput, kind: MovementType, newId: string)
      modifies this
      ensures collaborators == old(collaborators)
      ensures materials == StockAfter(old(materials), old(collaborators), input, kind, newId)
      ensures movements == MovementsAfter(old(materials), old(collaborators), old(movements), input, kind, newId)
    {
      var ms, cs, movs := materials, collaborators, movements;
      var outcome := ResolveMovement(ms, cs, input, kind, newId);
      if !outcome.Recorded? {
        AfterUnresolved(ms, cs, movs, input, kind, newId);
      } else {
        AfterRecorded(ms, cs, movs, input, kind, newId);
        var material := ms[outcome.materialIndex];
        var stock := material.quantidade + StockDelta(kind, input.quantidade);
        ghost var expected := SetStock(ms, material.id, stock);
        assert StockAfter(ms, cs, input, kind, newId) == expected;
        movements := RecordMovement(movs, outcome.movement);
        UpdateMaterialStock(material.id, stock);
        assert materials == expected;
      }
    }

    method UpdateMovement(updated: Movement)
      modifies this
      ensures movements == ReplaceMovement(old(movements), updated)
      ensures materials == old(materials) && collaborators == old(collaborators)
    {
      movements := ReplaceMovement(movements, updated);
    }

    method DeleteMovement(id: string)
      modifies this
      ensures movements == RemoveMovement(old(movements), id)
      ensures materials == old(materials) && collaborators == old(collaborators)
    {
      movements := RemoveMovement(movements, id);
    }

    /** `newId` stands for `MAT${Date.now()}`. */
    method AddMaterial(input: MaterialInput, newId: string)
      modifies this
      ensures materials == [NewMaterial(input, newId)] + old(materials)
      ensures materials[0].entradas == Some(input.quantidade) && materials[0].quantidade == input.quantidade
      ensures movements == old(movements) && collaborators == old(collaborators)
    {
      materials := [NewMaterial(input, newId)] + materials;
    }

    method UpdateMaterial(updated: Material)
      modifies this
      ensures materials == ReplaceMaterial(old(materials), updated)
      ensures movements == old(movements) && collaborators == old(collaborators)
    {
      materials := ReplaceMaterial(materials, updated);
    }

    method DeleteMaterial(id: string)
      modifies this
      ensures materials == RemoveMaterial(old(materials), id)
      ensures movements == old(movements) && collaborators == old(collaborators)
    {
      materials := RemoveMaterial(materials, id);
    }

    method UpdateMaterialStock(id: string, q: int)
      modifies this
      ensures materials == SetStock(old(materials), id, q)
      ensures movements == old(movements) && collaborators == old(collaborators)
    {
      materials := SetStock(materials, id, q);
    }

    method UpdateCollaboratorRole(id: string, role: Role)
      modifies this
      ensures collaborators == SetRole(old(collaborators), id, role)
      ensures materials == old(materials) && movements == old(movements)
    {
      collaborators := SetRole(collaborators, id, role);
    }
  }
}
