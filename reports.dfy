/**
 * The consumption-by-collaborator report and the CSV export of a report
 * (pages/ReportsPage.tsx). The consumption map is a `Map` from collaborator
 * name to an object from material name to quantity. The `Map` keeps its keys
 * in insertion order. The object does too as long as no material name looks
 * like an array index, and that is assumed here. Both are modelled as
 * sequences of entries.
 */
module Reports {
  import opened Types
  import opened Text
  import opened Seqs

  /** One `material: quantity` pair of a collaborator's object. */
  datatype Tally = Tally(name: string, qty: int)

  /** One `consumptionMap` entry. */
  datatype ConsumptionEntry = ConsumptionEntry(colaborador: string, items: seq<Tally>)

  /** A report as the export sees it: cells already in header order. */
  datatype Report = Report(title: string, headers: seq<string>, rows: seq<seq<string>>)

  /** Only `consumo` and `saida` movements are counted. */
  predicate Counted(mv: Movement)
  {
    mv.tipo == Consumo || mv.tipo == Saida
  }

  /** `currentData[material] = (currentData[material] || 0) + q`. */
  function AddTally(items: seq<Tally>, name: string, q: int): seq<Tally>
  {
    if items == [] then [Tally(name, q)]
    else if items[0].name == name then [items[0].(qty := items[0].qty + q)] + items[1..]
    else [items[0]] + AddTally(items[1..], name, q)
  }

  /** The body of the `forEach`: create the collaborator's entry if missing, then add to it. */
  function Record(es: seq<ConsumptionEntry>, mv: Movement): seq<ConsumptionEntry>
  {
    if es == [] then [ConsumptionEntry(mv.colaborador, [Tally(mv.material, mv.quantidade)])]
    else if es[0].colaborador == mv.colaborador
    then [es[0].(items := AddTally(es[0].items, mv.material, mv.quantidade))] + es[1..]
    else [es[0]] + Record(es[1..], mv)
  }

  /** The map after the counted movements of `movs`, in order. */
  function Aggregate(movs: seq<Movement>): seq<ConsumptionEntry>
  {
    if movs == [] then []
    else
      var prev := Aggregate(movs[..|movs| - 1]);
      if Counted(movs[|movs| - 1]) then Record(prev, movs[|movs| - 1]) else prev
  }

  /** The `filter(...).forEach(...)` that fills `consumptionMap`. */
  method BuildConsumptionMap(movs: seq<Movement>) returns (es: seq<ConsumptionEntry>)
    ensures es == Aggregate(movs)
  {
    es := [];
    var i := 0;
    while i < |movs|
      invariant 0 <= i <= |movs|
      invariant es == Aggregate(movs[..i])
    {
      assert movs[..i + 1][..i] == movs[..i];
      if Counted(movs[i]) {
        es := Record(es, movs[i]);
      }
      i := i + 1;
    }
    assert movs[..|movs|] == movs;
  }

  // ----- Reference quantities -----

  /** Collaborator names of the counted movements, in movement order. */
  function CountedCollaborators(movs: seq<Movement>): seq<string>
  {
    if movs == [] then []
    else CountedCollaborators(movs[..|movs| - 1])
         + (if Counted(movs[|movs| - 1]) then [movs[|movs| - 1].colaborador] else [])
  }

  /** The sum of the counted quantities of collaborator `c` for material `m`. */
  function Spent(movs: seq<Movement>, c: string, m: string): int
  {
    if movs == [] then 0
    else
      var mv := movs[|movs| - 1];
      Spent(movs[..|movs| - 1], c, m) + (if Counted(mv) && mv.colaborador == c && mv.material == m then mv.quantidade else 0)
  }

  /** The sum of all counted quantities of collaborator `c`. */
  function SpentBy(movs: seq<Movement>, c: string): int
  {
    if movs == [] then 0
    else
      var mv := movs[|movs| - 1];
      SpentBy(movs[..|movs| - 1], c) + (if Counted(mv) && mv.colaborador == c then mv.quantidade else 0)
  }

  /** Whether collaborator `c` has a counted movement of material `m`. */
  predicate Consumed(movs: seq<Movement>, c: string, m: string)
  {
    exists k :: 0 <= k < |movs| && Counted(movs[k]) && movs[k].colaborador == c && movs[k].material == m
  }

  // ----- Views of the map -----

  function Names(es: seq<ConsumptionEntry>): seq<string>
  {
    if es == [] then [] else [es[0].colaborador] + Names(es[1..])
  }

  function ItemNames(items: seq<Tally>): seq<string>
  {
    if items == [] then [] else [items[0].name] + ItemNames(items[1..])
  }

  function AmountIn(items: seq<Tally>, m: string): int
  {
    if items == [] then 0 else (if items[0].name == m then items[0].qty else 0) + AmountIn(items[1..], m)
  }

  /** `Object.values(items).reduce((sum, qty) => sum + qty, 0)`. */
  function Total(items: seq<Tally>): int
  {
    if items == [] then 0 else items[0].qty + Total(items[1..])
  }

  function AmountFor(es: seq<ConsumptionEntry>, c: string, m: string): int
  {
    if es == [] then 0 else (if es[0].colaborador == c then AmountIn(es[0].items, m) else 0) + AmountFor(es[1..], c, m)
  }

  function TotalFor(es: seq<ConsumptionEntry>, c: string): int
  {
    if es == [] then 0 else (if es[0].colaborador == c then Total(es[0].items) else 0) + TotalFor(es[1..], c)
  }

  /** Whether the entry of collaborator `c` holds material `m`. */
  predicate HasItem(es: seq<ConsumptionEntry>, c: string, m: string)
  {
    es != [] && ((es[0].colaborador == c && m in ItemNames(es[0].items)) || HasItem(es[1..], c, m))
  }

  /** No entry holds the same material twice. */
  predicate ItemsDistinct(es: seq<ConsumptionEntry>)
  {
    es == [] || (Distinct(ItemNames(es[0].items)) && ItemsDistinct(es[1..]))
  }

  lemma {:induction false} ItemNamesLength(items: seq<Tally>)
    ensures |ItemNames(items)| == |items|
    ensures forall k :: 0 <= k < |items| ==> ItemNames(items)[k] == items[k].name
  {
    if items != [] {
      ItemNamesLength(items[1..]);
    }
  }

  lemma {:induction false} NamesLength(es: seq<ConsumptionEntry>)
    ensures |Names(es)| == |es|
    ensures forall k :: 0 <= k < |es| ==> Names(es)[k] == es[k].colaborador
  {
    if es != [] {
      NamesLength(es[1..]);
    }
  }

  // ----- One step -----

  /** Adding to a tally list: the name is appended when new, its amount grows by `q`, and so does the total. */
  lemma {:induction false} AddTallyEffect(items: seq<Tally>, name: string, q: int)
    ensures ItemNames(AddTally(items, name, q)) ==
            if name in ItemNames(items) then ItemNames(items) else ItemNames(items) + [name]
    ensures forall m :: AmountIn(AddTally(items, name, q), m) == AmountIn(items, m) + (if m == name then q else 0)
    ensures Total(AddTally(items, name, q)) == Total(items) + q
  {
    if items != [] && items[0].name != name {
      AddTallyEffect(items[1..], name, q);
      assert ItemNames(AddTally(items, name, q)) == [items[0].name] + ItemNames(AddTally(items[1..], name, q));
    }
  }

  /** Recording a movement appends its collaborator to the entry names when new, and only then. */
  lemma {:induction false} RecordNames(es: seq<ConsumptionEntry>, mv: Movement)
    ensures Names(Record(es, mv)) ==
            if mv.colaborador in Names(es) then Names(es) else Names(es) + [mv.colaborador]
  {
    if es != [] && es[0].colaborador != mv.colaborador {
      RecordNames(es[1..], mv);
      assert Names(Record(es, mv)) == [es[0].colaborador] + Names(Record(es[1..], mv));
    }
  }

  /** Recording a movement grows exactly its collaborator's amount of its material, and that collaborator's total. */
  lemma {:induction false} RecordAmounts(es: seq<ConsumptionEntry>, mv: Movement, c: string, m: string)
    ensures AmountFor(Record(es, mv), c, m) ==
            AmountFor(es, c, m) + (if c == mv.colaborador && m == mv.material then mv.quantidade else 0)
    ensures TotalFor(Record(es, mv), c) == TotalFor(es, c) + (if c == mv.colaborador then mv.quantidade else 0)
    ensures HasItem(Record(es, mv), c, m) <==> HasItem(es, c, m) || (c == mv.colaborador && m == mv.material)
  {
    var r := Record(es, mv);
    if es == [] {
      assert ItemNames(r[0].items) == [mv.material];
      assert r[1..] == [] && r[0].items[1..] == [];
      assert AmountIn(r[0].items, m) == (if m == mv.material then mv.quantidade else 0) + AmountIn([], m);
      assert Total(r[0].items) == mv.quantidade + Total([]);
      assert AmountFor(r, c, m) == (if r[0].colaborador == c then AmountIn(r[0].items, m) else 0) + AmountFor([], c, m);
      assert TotalFor(r, c) == (if r[0].colaborador == c then Total(r[0].items) else 0) + TotalFor([], c);
    } else if es[0].colaborador == mv.colaborador {
      AddTallyEffect(es[0].items, mv.material, mv.quantidade);
      assert r[1..] == es[1..];
    } else {
      RecordAmounts(es[1..], mv, c, m);
      assert r[0] == es[0] && r[1..] == Record(es[1..], mv);
    }
  }

  /** Recording a movement never duplicates a material within an entry. */
  lemma {:induction false} RecordItemsDistinct(es: seq<ConsumptionEntry>, mv: Movement)
    requires ItemsDistinct(es)
    ensures ItemsDistinct(Record(es, mv))
  {
    var r := Record(es, mv);
    if es == [] {
      assert ItemNames(r[0].items) == [mv.material];
      assert r[1..] == [];
    } else if es[0].colaborador == mv.colaborador {
      AddTallyEffect(es[0].items, mv.material, mv.quantidade);
      assert r[1..] == es[1..];
    } else {
      RecordItemsDistinct(es[1..], mv);
      assert r[0] == es[0] && r[1..] == Record(es[1..], mv);
    }
  }

  // ----- The whole report -----

  /**
   * The map has one entry per collaborator with a counted movement, in
   * order of first appearance, and no collaborator holds the same material
   * twice.
   */
  lemma {:induction false} AggregateNames(movs: seq<Movement>)
    ensures Names(Aggregate(movs)) == Dedupe(CountedCollaborators(movs))
    ensures ItemsDistinct(Aggregate(movs))
  {
    if movs != [] {
      var init := movs[..|movs| - 1];
      var mv := movs[|movs| - 1];
      AggregateNames(init);
      if Counted(mv) {
        RecordNames(Aggregate(init), mv);
        RecordItemsDistinct(Aggregate(init), mv);
        assert CountedCollaborators(movs) == CountedCollaborators(init) + [mv.colaborador];
        assert CountedCollaborators(movs)[..|CountedCollaborators(movs)| - 1] == CountedCollaborators(init);
      } else {
        assert CountedCollaborators(movs) == CountedCollaborators(init);
      }
    }
  }

  /** Per collaborator and material, the map holds the sum of the counted quantities; per collaborator, their total. */
  lemma {:induction false} AggregateAmounts(movs: seq<Movement>, c: string, m: string)
    ensures AmountFor(Aggregate(movs), c, m) == Spent(movs, c, m)
    ensures TotalFor(Aggregate(movs), c) == SpentBy(movs, c)
    ensures HasItem(Aggregate(movs), c, m) <==> Consumed(movs, c, m)
  {
    if movs != [] {
      var init := movs[..|movs| - 1];
      var mv := movs[|movs| - 1];
      AggregateAmounts(init, c, m);
      if Counted(mv) {
        RecordAmounts(Aggregate(init), mv, c, m);
      }
      assert forall k :: 0 <= k < |init| ==> init[k] == movs[k];
      if Consumed(movs, c, m) && !Consumed(init, c, m) {
        var k :| 0 <= k < |movs| && Counted(movs[k]) && movs[k].colaborador == c && movs[k].material == m;
        assert k == |movs| - 1;
      }
    }
  }

  lemma {:induction false} AmountInAbsent(items: seq<Tally>, m: string)
    requires m !in ItemNames(items)
    ensures AmountIn(items, m) == 0
  {
    if items != [] {
      AmountInAbsent(items[1..], m);
    }
  }

  /** With distinct names, the amount for a name is the quantity of its one tally. */
  lemma {:induction false} AmountInDistinct(items: seq<Tally>, k: nat)
    requires k < |items| && Distinct(ItemNames(items))
    ensures AmountIn(items, items[k].name) == items[k].qty
  {
    ItemNamesLength(items);
    var names := ItemNames(items);
    assert ItemNames(items[1..]) == names[1..];
    if k == 0 {
      forall j | 0 <= j < |names[1..]|
        ensures names[1..][j] != items[0].name
      {
        assert names[j + 1] != names[0];
      }
      AmountInAbsent(items[1..], items[0].name);
    } else {
      AmountInDistinct(items[1..], k - 1);
    }
  }

  lemma {:induction false} ForAbsent(es: seq<ConsumptionEntry>, c: string, m: string)
    requires c !in Names(es)
    ensures AmountFor(es, c, m) == 0 && TotalFor(es, c) == 0 && !HasItem(es, c, m)
  {
    if es != [] {
      ForAbsent(es[1..], c, m);
    }
  }

  /** With distinct collaborator names, what the map says of a collaborator is what its one entry says. */
  lemma {:induction false} ForDistinct(es: seq<ConsumptionEntry>, i: nat, m: string)
    requires i < |es| && Distinct(Names(es)) && ItemsDistinct(es)
    ensures AmountFor(es, es[i].colaborador, m) == AmountIn(es[i].items, m)
    ensures TotalFor(es, es[i].colaborador) == Total(es[i].items)
    ensures HasItem(es, es[i].colaborador, m) <==> m in ItemNames(es[i].items)
    ensures Distinct(ItemNames(es[i].items))
  {
    NamesLength(es);
    var names := Names(es);
    assert Names(es[1..]) == names[1..];
    if i == 0 {
      forall j | 0 <= j < |names[1..]|
        ensures names[1..][j] != es[0].colaborador
      {
        assert names[j + 1] != names[0];
      }
      ForAbsent(es[1..], es[0].colaborador, m);
    } else {
      ForDistinct(es[1..], i - 1, m);
      assert es[1..][i - 1] == es[i];
      assert es[0].colaborador == names[0] != names[i] == es[i].colaborador;
    }
  }

  /**
   * The consumption report: exactly one row per collaborator with a counted
   * (consumo or saida) movement, in order of first appearance; each of its
   * materials appears once, holding the sum of that collaborator's counted
   * quantities of it, and a material appears exactly when the collaborator
   * consumed it; the row total is the sum of all its counted quantities.
   */
  lemma ConsumptionSpec(movs: seq<Movement>)
    ensures var es := Aggregate(movs);
            && |Names(es)| == |es| && (forall i :: 0 <= i < |es| ==> Names(es)[i] == es[i].colaborador)
            && Distinct(Names(es))
            && (forall c :: c in Names(es) <==> c in CountedCollaborators(movs))
            && (forall i, j :: 0 <= i < j < |Names(es)| ==>
                  FirstOcc(CountedCollaborators(movs), Names(es)[i]) < FirstOcc(CountedCollaborators(movs), Names(es)[j]))
  {
    AggregateNames(movs);
    DedupeSpec(CountedCollaborators(movs));
    NamesLength(Aggregate(movs));
  }

  /** Each row's details and total, as sums of the collaborator's counted movements. */
  lemma ConsumptionEntrySpec(movs: seq<Movement>, i: nat, m: string)
    requires i < |Aggregate(movs)|
    ensures var e := Aggregate(movs)[i];
            && Distinct(ItemNames(e.items))
            && (m in ItemNames(e.items) <==> Consumed(movs, e.colaborador, m))
            && (forall k :: 0 <= k < |e.items| && e.items[k].name == m ==> e.items[k].qty == Spent(movs, e.colaborador, m))
            && Total(e.items) == SpentBy(movs, e.colaborador)
  {
    var es := Aggregate(movs);
    AggregateNames(movs);
    DedupeSpec(CountedCollaborators(movs));
    AggregateAmounts(movs, es[i].colaborador, m);
    ForDistinct(es, i, m);
    forall k | 0 <= k < |es[i].items| && es[i].items[k].name == m
      ensures es[i].items[k].qty == Spent(movs, es[i].colaborador, m)
    {
      AmountInDistinct(es[i].items, k);
    }
  }

  // ----- Rows and CSV -----

  const CONSUMPTION_TITLE: string := "Relatório de Consumo por Colaborador"
  const CONSUMPTION_HEADERS: seq<string> := ["Colaborador", "Itens Consumidos (Total)", "Detalhes"]

  /** `${qty}x ${name}`. */
  function TallyText(t: Tally): string
  {
    IntToString(t.qty) + "x " + t.name
  }

  function TallyTexts(items: seq<Tally>): (r: seq<string>)
    ensures |r| == |items| && forall k :: 0 <= k < |items| ==> r[k] == TallyText(items[k])
  {
    if items == [] then [] else [TallyText(items[0])] + TallyTexts(items[1..])
  }

  /** One data row of the consumption report, cells in header order. */
  function ConsumptionRow(e: ConsumptionEntry): seq<string>
  {
    [e.colaborador, IntToString(Total(e.items)), Join(TallyTexts(e.items), ", ")]
  }

  function ConsumptionRows(es: seq<ConsumptionEntry>): (r: seq<seq<string>>)
    ensures |r| == |es| && forall i :: 0 <= i < |es| ==> r[i] == ConsumptionRow(es[i])
  {
    if es == [] then [] else [ConsumptionRow(es[0])] + ConsumptionRows(es[1..])
  }

  function ConsumptionReport(movs: seq<Movement>): Report
  {
    Report(CONSUMPTION_TITLE, CONSUMPTION_HEADERS, ConsumptionRows(Aggregate(movs)))
  }

  /** Each report row has one cell per header: the collaborator, its counted total, then the details. */
  lemma ConsumptionReportRows(movs: seq<Movement>, i: nat)
    requires i < |ConsumptionReport(movs).rows|
    ensures |ConsumptionReport(movs).rows| == |Aggregate(movs)|
    ensures var row := ConsumptionReport(movs).rows[i];
            && |row| == |CONSUMPTION_HEADERS|
            && row[0] in CountedCollaborators(movs)
            && row[1] == IntToString(SpentBy(movs, row[0]))
  {
    ConsumptionSpec(movs);
    ConsumptionEntrySpec(movs, i, "");
    assert Names(Aggregate(movs))[i] in Names(Aggregate(movs));
  }

  /** `"${cell}"`: wrapped in quotes, embedded quotes left as they are. */
  function Quote(cell: string): string
  {
    "\"" + cell + "\""
  }

  function QuoteAll(cells: seq<string>): (r: seq<string>)
    ensures |r| == |cells| && forall k :: 0 <= k < |cells| ==> r[k] == Quote(cells[k])
  {
    if cells == [] then [] else [Quote(cells[0])] + QuoteAll(cells[1..])
  }

  function RowLine(row: seq<string>): string
  {
    Join(QuoteAll(row), ",")
  }

  /** The lines of the CSV: the header line, then one line per row. */
  function CsvLines(r: Report): (lines: seq<string>)
    ensures |lines| == |r.rows| + 1 && lines[0] == Join(r.headers, ",")
    ensures forall k :: 0 <= k < |r.rows| ==> lines[k + 1] == RowLine(r.rows[k])
  {
    [Join(r.headers, ",")] + RowLines(r.rows)
  }

  function RowLines(rows: seq<seq<string>>): (r: seq<string>)
    ensures |r| == |rows| && forall k :: 0 <= k < |rows| ==> r[k] == RowLine(rows[k])
  {
    if rows == [] then [] else [RowLine(rows[0])] + RowLines(rows[1..])
  }

  /** `csvContent`. */
  function CsvContent(r: Report): string
  {
    Join(CsvLines(r), "\n")
  }

  /** `${title.replace(/ /g, '_').toLowerCase()}.csv`. */
  function ExportFileName(title: string): string
  {
    ToLower(ReplaceChar(title, ' ', "_")) + ".csv"
  }

  /** `exportToCSV`: nothing without a report; otherwise the file name and its content. */
  function Export(report: Option<Report>): Option<(string, string)>
  {
    match report
    case None => None
    case Some(r) => Some((ExportFileName(r.title), CsvContent(r)))
  }

  predicate NoNewline(cells: seq<string>)
  {
    forall k :: 0 <= k < |cells| ==> Count('\n', cells[k]) == 0
  }

  lemma {:induction false} JoinWithout(parts: seq<string>, sep: string, c: char)
    requires Count(c, sep) == 0 && forall k :: 0 <= k < |parts| ==> Count(c, parts[k]) == 0
    ensures Count(c, Join(parts, sep)) == 0
  {
    if |parts| > 1 {
      JoinWithout(parts[1..], sep, c);
      CountAppend(c, parts[0], sep);
      CountAppend(c, parts[0] + sep, Join(parts[1..], sep));
    }
  }

  /**
   * When no header or cell holds a line break, splitting the CSV on line
   * breaks gives back the header line followed by one line per row, each
   * cell wrapped in quotes.
   */
  lemma CsvLinesRoundTrip(r: Report)
    requires NoNewline(r.headers) && forall i :: 0 <= i < |r.rows| ==> NoNewline(r.rows[i])
    ensures Split(CsvContent(r), '\n') == CsvLines(r)
    ensures Count('\n', CsvContent(r)) == |r.rows|
  {
    var lines := CsvLines(r);
    forall k | 0 <= k < |lines|
      ensures Count('\n', lines[k]) == 0
    {
      if k == 0 {
        JoinWithout(r.headers, ",", '\n');
      } else {
        RowLineNoNewline(r.rows[k - 1]);
      }
    }
    SplitJoin(lines, '\n');
    JoinSeparatorCount(lines, '\n');
  }

  lemma RowLineNoNewline(row: seq<string>)
    requires NoNewline(row)
    ensures Count('\n', RowLine(row)) == 0
  {
    var quoted := QuoteAll(row);
    forall j | 0 <= j < |row|
      ensures Count('\n', quoted[j]) == 0
    {
      QuoteCount('\n', row[j]);
    }
    JoinWithout(quoted, ",", '\n');
  }

  /** Quoting adds exactly two quote characters and no other: embedded quotes are not doubled. */
  lemma QuoteCount(c: char, cell: string)
    ensures Count(c, Quote(cell)) == Count(c, cell) + (if c == '"' then 2 else 0)
  {
    CountAppend(c, "\"", cell);
    CountAppend(c, "\"" + cell, "\"");
  }

  /** The file name holds no space, ends in `.csv`, and is four characters longer than the title. */
  lemma {:induction false} ExportFileNameSpec(title: string)
    ensures var f := ExportFileName(title);
            && |f| >= 4 && f[|f| - 4..] == ".csv"
            && (forall k :: 0 <= k < |f| ==> f[k] != ' ')
            && (forall k :: 0 <= k < |f| - 4 ==> !IsUpper(f[k]))
  {
    var t := ReplaceChar(title, ' ', "_");
    ReplaceCharNoChar(title, ' ', "_");
    ToLowerNoUpper(t);
  }

  lemma {:induction false} ReplaceCharNoChar(s: string, c: char, rep: string)
    requires forall k :: 0 <= k < |rep| ==> rep[k] != c
    ensures forall k :: 0 <= k < |ReplaceChar(s, c, rep)| ==> ReplaceChar(s, c, rep)[k] != c
  {
    if s != [] {
      ReplaceCharNoChar(s[1..], c, rep);
    }
  }

  /**
   * With no active report the export produces nothing. With one, the file
   * name ends in `.csv` and, when no cell holds a line break, the content
   * splits back into the header line and one line per row.
   */
  lemma ExportSpec(report: Option<Report>)
    ensures Export(report).None? <==> report.None?
    ensures report.Some? ==> Export(report).value.0 == ExportFileName(report.value.title)
    ensures report.Some? && NoNewline(report.value.headers) &&
            (forall i :: 0 <= i < |report.value.rows| ==> NoNewline(report.value.rows[i])) ==>
              Split(Export(report).value.1, '\n') == CsvLines(report.value)
  {
    if report.Some? && NoNewline(report.value.headers) &&
       (forall i :: 0 <= i < |report.value.rows| ==> NoNewline(report.value.rows[i])) {
      CsvLinesRoundTrip(report.value);
    }
  }
}
