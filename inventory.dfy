/**
 * The physical inventory count (pages/InventoryPage.tsx): per-material
 * counts typed by the user, the discrepancies they reveal against the
 * system stock, and the reconciliation that overwrites the stock with the
 * counts.
 */
module Inventory {
  import opened Types
  import opened Text
  import opened Seqs
  import Database

  /** A stored count is blank or the decimal digits of a non-negative integer. */
  predicate ValidCount(s: string)
  {
    s == "" || AllDigits(s)
  }

  predicate ValidCounts(counts: map<string, string>)
  {
    forall id :: id in counts ==> ValidCount(counts[id])
  }

  /** `Math.max(0, parseInt(count, 10) || 0)`, where `parsed` is what `parseInt` returned (None for NaN). */
  function ClampedCount(parsed: Option<int>): nat
  {
    match parsed
    case Some(v) => if v > 0 then v else 0
    case None => 0
  }

  /** The value `handleCountChange` stores for the typed text. */
  function NewCount(count: string, parsed: Option<int>): string
  {
    if Trim(count) == "" then "" else NatToString(ClampedCount(parsed))
  }

  /**
   * The stored value is blank exactly when the typed text is white space
   * only; otherwise it is the string of a non-negative integer that reads
   * back as the clamped parse.
   */
  lemma NewCountSpec(count: string, parsed: Option<int>)
    ensures ValidCount(NewCount(count, parsed))
    ensures NewCount(count, parsed) == "" <==> IsBlank(count)
    ensures !IsBlank(count) ==> ParseNat(NewCount(count, parsed)) == ClampedCount(parsed)
    ensures parsed.Some? && parsed.value >= 0 && !IsBlank(count) ==> ParseNat(NewCount(count, parsed)) == parsed.value
  {
    TrimEmptyIffBlank(count);
    if !IsBlank(count) {
      ParseNatToString(ClampedCount(parsed));
    }
  }

  /** `materials.find(m => m.id === id)`, as an index. */
  function FindById(ms: seq<Material>, id: string): Option<nat>
  {
    FirstIndex(ms, (m: Material) => m.id == id)
  }

  /** One entry of `itemsWithDiscrepancy`: a non-blank count for an existing material that differs from its stock. */
  predicate IsDiscrepancy(counts: map<string, string>, ms: seq<Material>, id: string)
    requires ValidCounts(counts)
  {
    && id in counts && counts[id] != ""
    && FindById(ms, id).Some?
    && ParseNat(counts[id]) != ms[FindById(ms, id).value].quantidade
  }

  function Discrepancies(counts: map<string, string>, ms: seq<Material>): set<string>
    requires ValidCounts(counts)
  {
    set id | id in counts && IsDiscrepancy(counts, ms, id)
  }

  /** The count shown for a material: the typed one, or the system stock when blank. */
  function PhysicalCount(m: Material, counts: map<string, string>): int
    requires ValidCounts(counts)
  {
    if m.id !in counts || counts[m.id] == "" then m.quantidade else ParseNat(counts[m.id])
  }

  /** The "Diferença" column. */
  function Difference(m: Material, counts: map<string, string>): int
    requires ValidCounts(counts)
  {
    PhysicalCount(m, counts) - m.quantidade
  }

  /**
   * A blank count shows no difference; otherwise the difference is the
   * count minus the stock. For a row whose id is not shadowed by an earlier
   * material, its id is a discrepancy exactly when the difference is not 0.
   */
  lemma DifferenceSpec(counts: map<string, string>, ms: seq<Material>, i: nat)
    requires ValidCounts(counts) && i < |ms|
    ensures ms[i].id !in counts || counts[ms[i].id] == "" ==> Difference(ms[i], counts) == 0
    ensures ms[i].id in counts && counts[ms[i].id] != "" ==>
              Difference(ms[i], counts) == ParseNat(counts[ms[i].id]) - ms[i].quantidade
    ensures (forall j :: 0 <= j < i ==> ms[j].id != ms[i].id) ==>
              (ms[i].id in Discrepancies(counts, ms) <==> Difference(ms[i], counts) != 0)
  {
    if forall j :: 0 <= j < i ==> ms[j].id != ms[i].id {
      var p := (m: Material) => m.id == ms[i].id;
      assert p(ms[i]);
      assert FindById(ms, ms[i].id) == Some(i);
    }
  }

  /** The stock after confirming: each material whose id is a discrepancy takes its count. */
  function Reconcile(ms: seq<Material>, counts: map<string, string>): (r: seq<Material>)
    requires ValidCounts(counts)
  {
    var d := Discrepancies(counts, ms);
    seq(|ms|, i requires 0 <= i < |ms| =>
      if ms[i].id in d then ms[i].(quantidade := ParseNat(counts[ms[i].id])) else ms[i])
  }

  /** Every id of `done` has a typed, non-empty count. */
  predicate Typed(counts: map<string, string>, done: set<string>)
  {
    forall x :: x in done ==> x in counts && counts[x] != ""
  }

  /** The list once the counts of the ids in `done` have been written as stock. */
  function Applied(ms: seq<Material>, counts: map<string, string>, done: set<string>): seq<Material>
    requires ValidCounts(counts) && Typed(counts, done)
  {
    seq(|ms|, i requires 0 <= i < |ms| =>
      if ms[i].id in done then ms[i].(quantidade := ParseNat(counts[ms[i].id])) else ms[i])
  }

  /**
   * One pass of the save loop: writing the count of one more id as its
   * stock gives the list with that id applied too.
   */
  lemma AdjustStep(ms: seq<Material>, counts: map<string, string>, done: set<string>, id: string)
    requires ValidCounts(counts) && Typed(counts, done + {id})
    ensures Database.SetStock(Applied(ms, counts, done), id, ParseNat(counts[id])) == Applied(ms, counts, done + {id})
  {
    Database.SetStockAt(Applied(ms, counts, done), id, ParseNat(counts[id]));
  }

  /** With nothing applied the list is unchanged; with every discrepancy applied it is the reconciled list. */
  lemma AppliedEnds(ms: seq<Material>, counts: map<string, string>)
    requires ValidCounts(counts)
    ensures Applied(ms, counts, {}) == ms
    ensures Typed(counts, Discrepancies(counts, ms)) && Applied(ms, counts, Discrepancies(counts, ms)) == Reconcile(ms, counts)
  {
  }

  /** Two lists with the same ids position by position resolve every id to the same index. */
  lemma {:induction false} FindByIdSameIds(ms: seq<Material>, ns: seq<Material>, id: string)
    requires |ms| == |ns| && forall i :: 0 <= i < |ms| ==> ms[i].id == ns[i].id
    ensures FindById(ms, id) == FindById(ns, id)
  {
    if ms != [] {
      FindByIdSameIds(ms[1..], ns[1..], id);
    }
  }

  /**
   * Reconciling removes every discrepancy: measured against the same counts,
   * the reconciled stock has none left. It changes only quantities, and only
   * of materials whose id was a discrepancy.
   */
  lemma ReconcileResolves(ms: seq<Material>, counts: map<string, string>)
    requires ValidCounts(counts)
    ensures |Reconcile(ms, counts)| == |ms|
    ensures forall i :: 0 <= i < |ms| ==>
              Reconcile(ms, counts)[i].id == ms[i].id &&
              (ms[i].id !in Discrepancies(counts, ms) ==> Reconcile(ms, counts)[i] == ms[i])
    ensures Discrepancies(counts, Reconcile(ms, counts)) == {}
  {
    var r := Reconcile(ms, counts);
    var d := Discrepancies(counts, ms);
    forall id | id in counts
      ensures !IsDiscrepancy(counts, r, id)
    {
      FindByIdSameIds(ms, r, id);
      var f := FindById(ms, id);
      if f.Some? && counts[id] != "" {
        assert ms[f.value].id == id;
        if id in d {
          assert r[f.value].quantidade == ParseNat(counts[id]);
        } else {
          assert r[f.value] == ms[f.value];
        }
      }
    }
  }

  /** The save loop: writes the count of every id of `d` as that material's stock, one `updateMaterialStock` at a time. */
  method WriteCounts(store: Database.Store, cs: map<string, string>, d: set<string>)
    requires ValidCounts(cs) && Typed(cs, d)
    modifies store
    ensures store.materials == Applied(old(store.materials), cs, d)
    ensures store.movements == old(store.movements) && store.collaborators == old(store.collaborators)
  {
    ghost var ms := store.materials;
    AppliedEnds(ms, cs);
    var remaining := d;
    while remaining != {}
      invariant remaining <= d && Typed(cs, d - remaining)
      invariant store.materials == Applied(ms, cs, d - remaining)
      invariant store.movements == old(store.movements) && store.collaborators == old(store.collaborators)
      decreases remaining
    {
      var id :| id in remaining;
      AdjustStep(ms, cs, d - remaining, id);
      store.UpdateMaterialStock(id, ParseNat(cs[id]));
      assert d - (remaining - {id}) == (d - remaining) + {id};
      remaining := remaining - {id};
    }
    assert d - remaining == d;
  }

  /** The inventory page's own state over the shared store. */
  class InventoryPage {
    const store: Database.Store
    var counts: map<string, string>
    var confirmOpen: bool

    predicate Valid()
      reads this
    {
      ValidCounts(counts)
    }

    constructor (store: Database.Store)
      ensures this.store == store && counts == map[] && !confirmOpen && Valid()
    {
      this.store := store;
      counts := map[];
      confirmOpen := false;
    }

    /** `handleCountChange`: stores the normalised count under the material id. */
    method HandleCountChange(id: string, count: string, parsed: Option<int>)
      requires Valid()
      modifies this
      ensures Valid()
      ensures counts == old(counts)[id := NewCount(count, parsed)]
      ensures confirmOpen == old(confirmOpen)
    {
      NewCountSpec(count, parsed);
      counts := counts[id := NewCount(count, parsed)];
    }

    /** `handleSaveChangesClick`: opens the confirmation only when something differs. */
    method SaveChangesClick()
      requires Valid()
      modifies this
      ensures counts == old(counts)
      ensures confirmOpen == (old(confirmOpen) || Discrepancies(counts, store.materials) != {})
    {
      if Discrepancies(counts, store.materials) != {} {
        confirmOpen := true;
      }
    }

    /**
     * `handleConfirmSave`: overwrites the stock of every discrepant material
     * with its count, then clears the counts and closes the dialog. Returns
     * the number of adjusted entries shown in the alert.
     */
    method ConfirmSave() returns (adjusted: nat)
      requires Valid()
      modifies this, store
      ensures store.materials == Reconcile(old(store.materials), old(counts))
      ensures adjusted == |Discrepancies(old(counts), old(store.materials))|
      ensures store.movements == old(store.movements) && store.collaborators == old(store.collaborators)
      ensures counts == map[] && !confirmOpen && Valid()
    {
      var d := Discrepancies(counts, store.materials);
      AppliedEnds(store.materials, counts);
      WriteCounts(store, counts, d);
      counts := map[];
      confirmOpen := false;
      adjusted := |d|;
    }
  }
}
