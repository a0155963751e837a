/**
 * The integer part of the dashboard (pages/DashboardPage.tsx): the
 * inventory counters, the stock-bar colour and width, and the front slices
 * of the material and movement lists.
 */
module Dashboard {
  import opened Types
  import opened Seqs
  import Database
  import Notifications

  datatype InventoryStats = InventoryStats(totalItens: nat, estoqueNegativo: nat, estoqueZerado: nat, totalEstoque: int)

  function InventoryStatsOf(ms: seq<Material>): InventoryStats
  {
    InventoryStats(|ms|,
                   |Filter(ms, (m: Material) => m.quantidade < 0)|,
                   |Filter(ms, (m: Material) => m.quantidade == 0)|,
                   Database.TotalStock(ms))
  }

  /** Filtering by two predicates that never hold together keeps at most as many elements as there are. */
  lemma {:induction false} DisjointFilters<T>(s: seq<T>, p: T -> bool, q: T -> bool)
    requires forall x :: !(p(x) && q(x))
    ensures |Filter(s, p)| + |Filter(s, q)| <= |s|
  {
    if s != [] {
      DisjointFilters(s[1..], p, q);
    }
  }

  /** Number of elements satisfying `p`. */
  function CountWhere<T>(s: seq<T>, p: T -> bool): nat
  {
    if s == [] then 0 else (if p(s[0]) then 1 else 0) + CountWhere(s[1..], p)
  }

  lemma {:induction false} FilterCount<T>(s: seq<T>, p: T -> bool)
    ensures |Filter(s, p)| == CountWhere(s, p)
  {
    if s != [] {
      FilterCount(s[1..], p);
    }
  }

  /** A sum of quantities none of which is negative is not negative. */
  lemma {:induction false} TotalStockNonNegative(ms: seq<Material>)
    requires CountWhere(ms, (m: Material) => m.quantidade < 0) == 0
    ensures Database.TotalStock(ms) >= 0
  {
    if ms != [] {
      TotalStockNonNegative(ms[1..]);
    }
  }

  /**
   * `totalItens` counts the materials; the negative and zero counters count
   * the materials with quantity below and equal to 0, so together they never
   * exceed `totalItens`; with no negative material, `totalEstoque` is not
   * negative.
   */
  lemma InventoryStatsSpec(ms: seq<Material>)
    ensures var st := InventoryStatsOf(ms);
            && st.totalItens == |ms|
            && st.estoqueNegativo == CountWhere(ms, (m: Material) => m.quantidade < 0)
            && st.estoqueZerado == CountWhere(ms, (m: Material) => m.quantidade == 0)
            && st.estoqueNegativo + st.estoqueZerado <= st.totalItens
            && (st.estoqueNegativo == 0 ==> st.totalEstoque >= 0)
  {
    var neg := (m: Material) => m.quantidade < 0;
    var zero := (m: Material) => m.quantidade == 0;
    DisjointFilters(ms, neg, zero);
    FilterCount(ms, neg);
    FilterCount(ms, zero);
    if |Filter(ms, neg)| == 0 {
      TotalStockNonNegative(ms);
    }
  }

  datatype BarColor = Blue | Yellow | Red

  function StockBarColor(q: int): BarColor
  {
    if q > 50 then Blue else if q > 0 then Yellow else Red
  }

  /**
   * The bar is red exactly for the materials the notifications report as
   * out of stock, and a yellow bar below 20 units is exactly a low-stock
   * alert; a blue bar never comes with either alert.
   */
  lemma StockBarMatchesAlerts(m: Material, movs: seq<Movement>, today: TimeMs)
    ensures var alerts := Notifications.MaterialAlerts(m, movs, today);
            && (StockBarColor(m.quantidade) == Red <==> Notifications.HasAlert(alerts, ZeroStock))
            && (StockBarColor(m.quantidade) == Yellow && m.quantidade < Notifications.LOW_STOCK_THRESHOLD
                <==> Notifications.HasAlert(alerts, LowStock))
            && (StockBarColor(m.quantidade) == Blue ==>
                  !Notifications.HasAlert(alerts, ZeroStock) && !Notifications.HasAlert(alerts, LowStock))
  {
    Notifications.MaterialAlertsSpec(m, movs, today);
  }

  /** `material.entradas || 1`: a missing or zero entry count becomes 1. */
  function WidthBase(m: Material): int
  {
    match m.entradas
    case None => 1
    case Some(e) => if e == 0 then 1 else e
  }

  /** `Math.min(100, Math.max(0, quantidade / (entradas || 1) * 100))`, in percent. */
  function StockBarWidth(m: Material): real
  {
    var raw := (m.quantidade as real / WidthBase(m) as real) * 100.0;
    if raw < 0.0 then 0.0 else if raw > 100.0 then 100.0 else raw
  }

  /**
   * The width lies in [0, 100]; against a positive base, an empty or
   * negative stock shows an empty bar and a stock at or above the base a
   * full one.
   */
  lemma StockBarWidthSpec(m: Material)
    ensures 0.0 <= StockBarWidth(m) <= 100.0
    ensures WidthBase(m) > 0 && m.quantidade <= 0 ==> StockBarWidth(m) == 0.0
    ensures WidthBase(m) > 0 && m.quantidade >= WidthBase(m) ==> StockBarWidth(m) == 100.0
  {
    var b := WidthBase(m) as real;
    var q := m.quantidade as real;
    if WidthBase(m) > 0 && m.quantidade >= WidthBase(m) {
      assert q / b >= 1.0;
    }
    if WidthBase(m) > 0 && m.quantidade <= 0 {
      assert q / b <= 0.0;
    }
  }

  /** `s.slice(0, n)`. */
  function Take<T>(s: seq<T>, n: nat): (r: seq<T>)
    ensures |r| == (if |s| <= n then |s| else n) && r == s[..|r|]
  {
    if |s| <= n then s else s[..n]
  }

  function ShownMaterials(ms: seq<Material>): seq<Material>
  {
    Take(ms, 5)
  }

  function RecentMovements(movs: seq<Movement>): seq<Movement>
  {
    Take(movs, 10)
  }

  /**
   * At most 10 movements are shown; when the list is sorted newest first, as
   * `addMovement` keeps it, none of the hidden ones is newer than a shown one.
   */
  lemma RecentMovementsSpec(movs: seq<Movement>)
    ensures var r := RecentMovements(movs);
            && |r| <= 10 && r == movs[..|r|] && (|movs| > 10 ==> |r| == 10)
            && (SortedDesc(movs, Database.MovementDate) ==>
                  forall i, j :: 0 <= i < |r| <= j < |movs| ==> movs[j].data <= r[i].data)
  {
    var r := RecentMovements(movs);
    if SortedDesc(movs, Database.MovementDate) {
      forall i, j | 0 <= i < |r| <= j < |movs|
        ensures movs[j].data <= r[i].data
      {
        assert r[i] == movs[i];
        assert Database.MovementDate(movs[i]) >= Database.MovementDate(movs[j]);
      }
    }
  }
}
