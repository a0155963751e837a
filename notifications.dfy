/**
 * The notification deriver (hooks/useNotifications.ts): low-stock,
 * zero-stock and stale-stock alerts computed from the materials, the
 * movements and the current time.
 */
module Notifications {
  import opened Types
  import opened Text
  import opened Seqs

  const LOW_STOCK_THRESHOLD: int := 20
  const STALE_STOCK_DAYS: int := 90

  /**
   * The latest date among the movements of exactly this material name (the
   * comparison is case-sensitive), or None when it has none. An equal later
   * date does not replace an earlier one.
   */
  function LatestDate(movs: seq<Movement>, name: string): Option<Day>
  {
    if movs == [] then None
    else
      var prev := LatestDate(movs[..|movs| - 1], name);
      var mv := movs[|movs| - 1];
      if mv.material == name && (prev.None? || mv.data > prev.value) then Some(mv.data) else prev
  }

  /** A name has a latest date exactly when some movement carries it, and that date is the maximum of their dates. */
  lemma {:induction false} LatestDateIsMax(movs: seq<Movement>, name: string)
    ensures LatestDate(movs, name).Some? <==> exists k :: 0 <= k < |movs| && movs[k].material == name
    ensures LatestDate(movs, name).Some? ==>
              (exists k :: 0 <= k < |movs| && movs[k].material == name && movs[k].data == LatestDate(movs, name).value) &&
              (forall k :: 0 <= k < |movs| && movs[k].material == name ==> movs[k].data <= LatestDate(movs, name).value)
  {
    if movs != [] {
      var init := movs[..|movs| - 1];
      LatestDateIsMax(init, name);
      assert forall k :: 0 <= k < |init| ==> init[k] == movs[k];
      var prev := LatestDate(init, name);
      if prev.Some? {
        var w :| 0 <= w < |init| && init[w].material == name && init[w].data == prev.value;
        assert movs[w] == init[w];
      }
    }
  }

  /** The first loop of the hook: for each material name, the latest date of its movements. */
  method LastMovementMap(movs: seq<Movement>) returns (last: map<string, Day>)
    ensures forall name :: name in last <==> LatestDate(movs, name).Some?
    ensures forall name :: name in last ==> last[name] == LatestDate(movs, name).value
  {
    last := map[];
    var i := 0;
    while i < |movs|
      invariant 0 <= i <= |movs|
      invariant forall name :: name in last <==> LatestDate(movs[..i], name).Some?
      invariant forall name :: name in last ==> last[name] == LatestDate(movs[..i], name).value
    {
      var mv := movs[i];
      if mv.material !in last || mv.data > last[mv.material] {
        last := last[mv.material := mv.data];
      }
      assert movs[..i + 1][..i] == movs[..i];
      i := i + 1;
    }
    assert movs[..|movs|] == movs;
  }

  function Abs(x: int): nat
  {
    if x < 0 then -x else x
  }

  /** `Math.ceil(Math.abs(today − date) / one day)`, with the movement date at midnight UTC. */
  function DiffDays(today: TimeMs, d: Day): nat
  {
    (Abs(today - d * MS_PER_DAY) + MS_PER_DAY - 1) / MS_PER_DAY
  }

  /** The rounded-up day difference exceeds 90 exactly when the time difference exceeds 90 whole days. */
  lemma StaleThreshold(today: TimeMs, d: Day)
    ensures DiffDays(today, d) > STALE_STOCK_DAYS <==> Abs(today - d * MS_PER_DAY) > STALE_STOCK_DAYS * MS_PER_DAY
  {
    var x := Abs(today - d * MS_PER_DAY);
    var q := (x + MS_PER_DAY - 1) / MS_PER_DAY;
    var r := (x + MS_PER_DAY - 1) % MS_PER_DAY;
    assert x + MS_PER_DAY - 1 == q * MS_PER_DAY + r && 0 <= r < MS_PER_DAY;
    if q > STALE_STOCK_DAYS {
      assert q >= STALE_STOCK_DAYS + 1;
      assert q * MS_PER_DAY >= (STALE_STOCK_DAYS + 1) * MS_PER_DAY;
    } else {
      assert q * MS_PER_DAY <= STALE_STOCK_DAYS * MS_PER_DAY;
    }
  }

  function LowStockAlert(m: Material, today: TimeMs): Notification
  {
    Notification("low-" + m.id, LowStock,
                 "Estoque baixo para " + m.nome + " (" + IntToString(m.quantidade) + " unidades restantes).",
                 today, m.id)
  }

  function ZeroStockAlert(m: Material, today: TimeMs): Notification
  {
    Notification("zero-" + m.id, ZeroStock,
                 "Estoque zerado para " + m.nome + ". Considere fazer um novo pedido.",
                 today, m.id)
  }

  function StaleStockAlert(m: Material, days: nat, today: TimeMs): Notification
  {
    Notification("stale-" + m.id, StaleStock,
                 m.nome + " não é movimentado há " + IntToString(days) + " dias.",
                 today, m.id)
  }

  /** The low-stock rule: one alert when 0 < q < 20. */
  function LowRule(m: Material, today: TimeMs): seq<Notification>
  {
    if 0 < m.quantidade < LOW_STOCK_THRESHOLD then [LowStockAlert(m, today)] else []
  }

  /** The zero-stock rule: one alert when q <= 0. */
  function ZeroRule(m: Material, today: TimeMs): seq<Notification>
  {
    if m.quantidade <= 0 then [ZeroStockAlert(m, today)] else []
  }

  /** The stale-stock rule: one alert when the last movement is over 90 days away and there is stock. */
  function StaleRule(m: Material, movs: seq<Movement>, today: TimeMs): seq<Notification>
  {
    var last := LatestDate(movs, m.nome);
    if last.Some? && DiffDays(today, last.value) > STALE_STOCK_DAYS && m.quantidade > 0
    then [StaleStockAlert(m, DiffDays(today, last.value), today)] else []
  }

  /** The alerts one material raises, in the order the hook pushes them. */
  function MaterialAlerts(m: Material, movs: seq<Movement>, today: TimeMs): seq<Notification>
  {
    LowRule(m, today) + ZeroRule(m, today) + StaleRule(m, movs, today)
  }

  predicate HasAlert(ns: seq<Notification>, kind: NotificationType)
  {
    exists k :: 0 <= k < |ns| && ns[k].kind == kind
  }

  /** The id prefix of each kind of alert. */
  function AlertPrefix(kind: NotificationType): string
  {
    match kind
    case LowStock => "low-"
    case ZeroStock => "zero-"
    case StaleStock => "stale-"
  }

  /** An alert about `m` raised at `today`: its id is its kind's prefix followed by the material id. */
  predicate AlertOf(n: Notification, m: Material, today: TimeMs)
  {
    n.id == AlertPrefix(n.kind) + m.id && n.materialId == m.id && n.date == today
  }

  /** Each rule raises at most one alert, of its own kind, about the material. */
  lemma RuleShapes(m: Material, movs: seq<Movement>, today: TimeMs)
    ensures |LowRule(m, today)| <= 1 && |ZeroRule(m, today)| <= 1 && |StaleRule(m, movs, today)| <= 1
    ensures forall k :: 0 <= k < |LowRule(m, today)| ==>
              LowRule(m, today)[k].kind == LowStock && AlertOf(LowRule(m, today)[k], m, today)
    ensures forall k :: 0 <= k < |ZeroRule(m, today)| ==>
              ZeroRule(m, today)[k].kind == ZeroStock && AlertOf(ZeroRule(m, today)[k], m, today)
    ensures forall k :: 0 <= k < |StaleRule(m, movs, today)| ==>
              StaleRule(m, movs, today)[k].kind == StaleStock && AlertOf(StaleRule(m, movs, today)[k], m, today)
  {
  }

  /**
   * At most one alert per rule, in rule order: each kind is present exactly
   * when its rule fired, no kind appears twice, and every alert is about the
   * material.
   */
  lemma ThreeRules(a: seq<Notification>, b: seq<Notification>, c: seq<Notification>, m: Material, today: TimeMs)
    requires |a| <= 1 && |b| <= 1 && |c| <= 1
    requires forall k :: 0 <= k < |a| ==> a[k].kind == LowStock && AlertOf(a[k], m, today)
    requires forall k :: 0 <= k < |b| ==> b[k].kind == ZeroStock && AlertOf(b[k], m, today)
    requires forall k :: 0 <= k < |c| ==> c[k].kind == StaleStock && AlertOf(c[k], m, today)
    ensures var r := a + b + c;
            && (HasAlert(r, LowStock) <==> a != [])
            && (HasAlert(r, ZeroStock) <==> b != [])
            && (HasAlert(r, StaleStock) <==> c != [])
            && (forall i, j :: 0 <= i < j < |r| ==> r[i].kind != r[j].kind)
            && (forall k :: 0 <= k < |r| ==> AlertOf(r[k], m, today))
  {
    var r := a + b + c;
    forall k | 0 <= k < |r|
      ensures AlertOf(r[k], m, today)
      ensures r[k].kind == if k < |a| then LowStock else if k < |a| + |b| then ZeroStock else StaleStock
    {
      if k < |a| {
        assert r[k] == a[k];
      } else if k < |a| + |b| {
        assert r[k] == b[k - |a|];
      } else {
        assert r[k] == c[k - |a| - |b|];
      }
    }
    if a != [] {
      assert r[0].kind == LowStock;
    }
    if b != [] {
      assert r[|a|].kind == ZeroStock;
    }
    if c != [] {
      assert r[|a| + |b|].kind == StaleStock;
    }
  }

  /** The stale rule fires exactly when there is stock and the last movement lies more than 90 whole days away. */
  lemma StaleRuleSpec(m: Material, movs: seq<Movement>, today: TimeMs)
    ensures StaleRule(m, movs, today) != [] <==>
              m.quantidade > 0 && LatestDate(movs, m.nome).Some? &&
              Abs(today - LatestDate(movs, m.nome).value * MS_PER_DAY) > STALE_STOCK_DAYS * MS_PER_DAY
  {
    var last := LatestDate(movs, m.nome);
    if last.Some? {
      StaleThreshold(today, last.value);
    }
  }

  /**
   * The three rules: low stock iff 0 < q < 20; zero stock iff q <= 0
   * (negatives included), so never both; stale stock iff q > 0 and the
   * material's latest movement, matched by exact name, lies more than 90
   * days from now. Each alert is raised at most once, carries the id
   * `low-`/`zero-`/`stale-` + the material id, and the material's id.
   */
  lemma MaterialAlertsSpec(m: Material, movs: seq<Movement>, today: TimeMs)
    ensures var r := MaterialAlerts(m, movs, today);
            && (HasAlert(r, LowStock) <==> 0 < m.quantidade < LOW_STOCK_THRESHOLD)
            && (HasAlert(r, ZeroStock) <==> m.quantidade <= 0)
            && !(HasAlert(r, LowStock) && HasAlert(r, ZeroStock))
            && (HasAlert(r, StaleStock) <==>
                  m.quantidade > 0 && LatestDate(movs, m.nome).Some? &&
                  Abs(today - LatestDate(movs, m.nome).value * MS_PER_DAY) > STALE_STOCK_DAYS * MS_PER_DAY)
            && (forall i, j :: 0 <= i < j < |r| ==> r[i].kind != r[j].kind)
            && (forall k :: 0 <= k < |r| ==> r[k].materialId == m.id && r[k].date == today)
            && (forall k :: 0 <= k < |r| ==> r[k].id == AlertPrefix(r[k].kind) + m.id)
  {
    RuleShapes(m, movs, today);
    ThreeRules(LowRule(m, today), ZeroRule(m, today), StaleRule(m, movs, today), m, today);
    StaleRuleSpec(m, movs, today);
  }

  /** The material with no movement under its exact name never gets a stale-stock alert. */
  lemma NoMovementsNeverStale(m: Material, movs: seq<Movement>, today: TimeMs)
    requires forall k :: 0 <= k < |movs| ==> movs[k].material != m.nome
    ensures !HasAlert(MaterialAlerts(m, movs, today), StaleStock)
  {
    LatestDateIsMax(movs, m.nome);
    MaterialAlertsSpec(m, movs, today);
  }

  /** All alerts before sorting: materials in input order, each one's alerts in rule order. */
  function DerivedAlerts(ms: seq<Material>, movs: seq<Movement>, today: TimeMs): seq<Notification>
  {
    FlatMap(ms, AlertsOf(movs, today))
  }

  /** The rules applied to one material at a time. */
  function AlertsOf(movs: seq<Movement>, today: TimeMs): Material -> seq<Notification>
  {
    m => MaterialAlerts(m, movs, today)
  }

  /** The last material's alerts come last. */
  lemma DerivedAlertsLast(ms: seq<Material>, movs: seq<Movement>, today: TimeMs)
    requires ms != []
    ensures DerivedAlerts(ms, movs, today) == DerivedAlerts(ms[..|ms| - 1], movs, today) + MaterialAlerts(ms[|ms| - 1], movs, today)
  {
  }

  function NotificationDate(n: Notification): int
  {
    n.date
  }

  /** Every derived alert is stamped with the current time. */
  lemma {:induction false} DerivedAlertsDated(ms: seq<Material>, movs: seq<Movement>, today: TimeMs)
    ensures forall k :: 0 <= k < |DerivedAlerts(ms, movs, today)| ==> DerivedAlerts(ms, movs, today)[k].date == today
  {
    if ms != [] {
      DerivedAlertsLast(ms, movs, today);
      DerivedAlertsDated(ms[..|ms| - 1], movs, today);
      MaterialAlertsSpec(ms[|ms| - 1], movs, today);
    }
  }

  /** Deriving over two runs of materials concatenates their alerts, so input order is kept. */
  lemma DerivedAlertsAppend(a: seq<Material>, b: seq<Material>, movs: seq<Movement>, today: TimeMs)
    ensures DerivedAlerts(a + b, movs, today) == DerivedAlerts(a, movs, today) + DerivedAlerts(b, movs, today)
  {
    FlatMapAppend(a, b, AlertsOf(movs, today));
  }

  /**
   * The hook's result: the alerts sorted by date, newest first. All dates
   * are equal, so the stable sort keeps the derivation order.
   */
  lemma NotificationsKeepDerivationOrder(ms: seq<Material>, movs: seq<Movement>, today: TimeMs)
    ensures SortDesc(DerivedAlerts(ms, movs, today), NotificationDate) == DerivedAlerts(ms, movs, today)
  {
    var d := DerivedAlerts(ms, movs, today);
    DerivedAlertsDated(ms, movs, today);
    assert SortedDesc(d, NotificationDate);
    SortDescSortedFixpoint(d, NotificationDate);
  }

  /** One iteration of the hook's loop: the alerts of `m`, with its last movement date read from the map. */
  method AlertsFor(m: Material, last: map<string, Day>, ghost movs: seq<Movement>, today: TimeMs)
    returns (step: seq<Notification>)
    requires m.nome in last <==> LatestDate(movs, m.nome).Some?
    requires m.nome in last ==> last[m.nome] == LatestDate(movs, m.nome).value
    ensures step == MaterialAlerts(m, movs, today)
  {
    var low: seq<Notification> := [];
    var zero: seq<Notification> := [];
    var stale: seq<Notification> := [];
    if 0 < m.quantidade < LOW_STOCK_THRESHOLD {
      low := [LowStockAlert(m, today)];
    }
    if m.quantidade <= 0 {
      zero := [ZeroStockAlert(m, today)];
    }
    if m.nome in last {
      var days := DiffDays(today, last[m.nome]);
      if days > STALE_STOCK_DAYS && m.quantidade > 0 {
        stale := [StaleStockAlert(m, days, today)];
      }
    }
    step := low + zero + stale;
  }

  /** `useNotifications`: the last-movement map, one pass over the materials, then the sort. */
  method DeriveNotifications(ms: seq<Material>, movs: seq<Movement>, today: TimeMs) returns (ns: seq<Notification>)
    ensures ns == SortDesc(DerivedAlerts(ms, movs, today), NotificationDate)
  {
    var last := LastMovementMap(movs);
    var all: seq<Notification> := [];
    var i := 0;
    while i < |ms|
      invariant 0 <= i <= |ms|
      invariant all == DerivedAlerts(ms[..i], movs, today)
    {
      var step := AlertsFor(ms[i], last, movs, today);
      assert ms[..i + 1][..i] == ms[..i];
      DerivedAlertsLast(ms[..i + 1], movs, today);
      all := all + step;
      i := i + 1;
    }
    assert ms[..|ms|] == ms;
    ns := SortDesc(all, NotificationDate);
  }
}
