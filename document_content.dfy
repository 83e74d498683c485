/** What the blocks say: the rendered text of amounts and total lines, the shape
    and read-back of the two item tables, the choice of workers, and the file
    name. */
module DocumentContent {
  import opened BudgetTypes
  import opened Format
  import opened Totals
  import opened DocumentGenerator
  import L = Translations

  // ------------------------------------------------------------- rendering

  lemma {:induction false} RenderAppend(a: Text, b: Text)
    ensures Render(a + b) == Render(a) + Render(b)
    decreases |a|
  {
    if |a| > 0 {
      assert (a + b)[0] == a[0];
      assert (a + b)[1..] == a[1..] + b;
      RenderAppend(a[1..], b);
      Assoc(PieceText(a[0]), Render(a[1..]), Render(b));
    } else {
      assert a + b == b;
    }
  }

  lemma Assoc<T>(x: seq<T>, y: seq<T>, z: seq<T>)
    ensures x + (y + z) == x + y + z
  {
  }

  lemma RenderStr(s: string)
    ensures Render(Str(s)) == s
  {
    assert Str(s)[1..] == [];
  }

  /** A printed amount is `Money` of its cents, and so reads back as them. */
  lemma RenderAmount(cents: int)
    ensures Render(Amount(cents)) == Money(cents)
    ensures ParseMoney(Render(Amount(cents))) == Some(cents)
  {
    var a := Amount(cents);
    assert a[1..][1..] == [];
    assert Render(a[1..]) == Fixed2(cents) + Render(a[1..][1..]);
    MoneyRoundTrip(cents);
  }

  /** A total line is right-aligned; its bold caption is the label and a space,
      its value the amount as money, a space and the currency suffix. */
  lemma TotalLineText(t: L.Labels, caption: string, amount: int)
    ensures var para := TotalLine(t, caption, amount).para;
      && para.align == Right && |para.runs| == 2
      && para.runs[0].bold && Render(para.runs[0].text) == caption + " "
      && !para.runs[1].bold && Render(para.runs[1].text) == Money(amount) + " " + t.currency
  {
    RenderStr(caption + " ");
    RenderAppend(Amount(amount), Str(" " + t.currency));
    RenderAmount(amount);
    RenderStr(" " + t.currency);
  }

  /** The grand total: the bold final-total label, then the grand total as money and the currency. */
  lemma GrandTotalText(t: L.Labels, grand: int)
    ensures var para := GrandTotalBlock(t, grand).para;
      && para.align == Center && |para.runs| == 2 && para.runs[0].bold && para.runs[1].bold
      && Render(para.runs[0].text) == t.finalTotal + " "
      && Render(para.runs[1].text) == Money(grand) + " " + t.currency
  {
    RenderStr(t.finalTotal + " ");
    RenderAppend(Amount(grand), Str(" " + t.currency));
    RenderAmount(grand);
    RenderStr(" " + t.currency);
  }

  lemma RenderOne(x: Piece)
    ensures Render([x]) == PieceText(x)
  {
    assert [x][1..] == [];
  }

  /** A template of four pieces renders as their texts in order. */
  lemma RenderFour(x1: Piece, x2: Piece, x3: Piece, x4: Piece)
    ensures Render([x1, x2, x3, x4]) == PieceText(x1) + (PieceText(x2) + (PieceText(x3) + PieceText(x4)))
  {
    assert [x1, x2, x3, x4] == [x1] + ([x2] + ([x3] + [x4]));
    RenderAppend([x1], [x2] + ([x3] + [x4]));
    RenderAppend([x2], [x3] + [x4]);
    RenderAppend([x3], [x4]);
    RenderOne(x1);
    RenderOne(x2);
    RenderOne(x3);
    RenderOne(x4);
  }

  lemma RegroupDiet(n1: string, w: string, n2: string, dy: string, m: string, pm: string)
    ensures (n1 + ((" " + w + " x ") + (n2 + (" " + dy + " @ ")))) + (m + (" " + pm))
         == n1 + " " + w + " x " + n2 + " " + dy + " @ " + m + " " + pm
  {
  }

  /** The diets breakdown: "{workers} {label} x {days} {label} @ ${cost} {label}". */
  lemma DietLineText(d: DietInfo, t: L.Labels)
    ensures var para := DietLine(d, t).para;
      && para.align == Right && |para.runs| == 1 && !para.runs[0].bold
      && Render(para.runs[0].text)
         == IntToString(d.workersCount) + " " + t.workers + " x " + IntToString(d.days) + " " + t.days + " @ "
            + Money(d.costPerDay) + " " + t.perMeal
  {
    var head: Text := [Num(d.workersCount), Lit(" " + t.workers + " x "), Num(d.days), Lit(" " + t.days + " @ ")];
    var tail: Text := Str(" " + t.perMeal);
    assert DietLine(d, t).para.runs[0].text == head + (Amount(d.costPerDay) + tail);
    RenderAppend(head, Amount(d.costPerDay) + tail);
    RenderAppend(Amount(d.costPerDay), tail);
    RenderAmount(d.costPerDay);
    RenderStr(" " + t.perMeal);
    RenderFour(Num(d.workersCount), Lit(" " + t.workers + " x "), Num(d.days), Lit(" " + t.days + " @ "));
    RegroupDiet(IntToString(d.workersCount), t.workers, IntToString(d.days), t.days, Money(d.costPerDay), t.perMeal);
  }

  // --------------------------------------------------------------- tables

  /** The sum of the widths set on a row's cells. */
  function TotalWidth(cells: seq<Cell>): nat
    decreases |cells|
  {
    if |cells| == 0 then 0
    else (if cells[0].width.Some? then cells[0].width.value else 0) + TotalWidth(cells[1..])
  }

  lemma {:induction false} MaterialRowsShape(ms: seq<MaterialItem>)
    ensures |MaterialRows(ms)| == |ms|
    ensures forall i :: 0 <= i < |ms| ==> MaterialRows(ms)[i] == MaterialRow(ms[i])
    decreases |ms|
  {
    if |ms| > 0 {
      MaterialRowsShape(ms[1..]);
      assert forall i :: 1 <= i < |ms| ==> ms[1..][i - 1] == ms[i];
    }
  }

  lemma {:induction false} LaborRowsShape(ls: seq<LaborItem>)
    ensures |LaborRows(ls)| == |ls|
    ensures forall i :: 0 <= i < |ls| ==> LaborRows(ls)[i] == LaborRow(ls[i])
    decreases |ls|
  {
    if |ls| > 0 {
      LaborRowsShape(ls[1..]);
      assert forall i :: 1 <= i < |ls| ==> ls[1..][i - 1] == ls[i];
    }
  }

  /** The materials table has a shaded header row and one row per material line,
      five cells each; the header cells carry the five column labels with widths
      40/10/15/15/20, which make up the whole width. */
  lemma MaterialsTableShape(ms: seq<MaterialItem>, t: L.Labels)
    ensures var rows := MaterialsTable(ms, t).rows;
      && MaterialsTable(ms, t).bordered
      && |rows| == 1 + |ms|
      && (forall i :: 0 <= i < |rows| ==> |rows[i].cells| == 5)
      && (forall j :: 0 <= j < 5 ==> rows[0].cells[j].header)
      && [Render(CellText(rows[0].cells[0])), Render(CellText(rows[0].cells[1])), Render(CellText(rows[0].cells[2])),
          Render(CellText(rows[0].cells[3])), Render(CellText(rows[0].cells[4]))]
         == [t.description, t.quantity, t.unit, t.unitPrice, t.total]
      && [rows[0].cells[0].width, rows[0].cells[1].width, rows[0].cells[2].width, rows[0].cells[3].width,
          rows[0].cells[4].width] == [Some(40), Some(10), Some(15), Some(15), Some(20)]
      && TotalWidth(rows[0].cells) == 100
  {
    MaterialRowsShape(ms);
    var h := MaterialsHeader(t).cells;
    assert h[1..][1..][1..][1..][1..] == [];
    assert TotalWidth(h[1..][1..][1..][1..]) == 20;
    assert TotalWidth(h[1..][1..][1..]) == 35;
    assert TotalWidth(h[1..][1..]) == 50;
    assert TotalWidth(h[1..]) == 60;
    RenderStr(t.description);
    RenderStr(t.quantity);
    RenderStr(t.unit);
    RenderStr(t.unitPrice);
    RenderStr(t.total);
  }

  /** A material row has five cells: the description, the quantity and the unit
      code, as written on the line. */
  lemma MaterialRowText(m: MaterialItem)
    ensures var cells := MaterialRow(m).cells;
      && |cells| == 5
      && Render(CellText(cells[0])) == m.description
      && ParseInt(Render(CellText(cells[1]))) == Some(m.quantity)
      && Render(CellText(cells[2])) == m.unit
  {
    var cells := MaterialRow(m).cells;
    assert CellText(cells[0]) == Str(m.description) && CellText(cells[2]) == Str(m.unit);
    assert CellText(cells[1]) == [Num(m.quantity)];
    RenderStr(m.description);
    RenderStr(m.unit);
    assert Render([Num(m.quantity)]) == IntToString(m.quantity) by {
      assert [Num(m.quantity)][1..] == [];
    }
    IntRoundTrip(m.quantity);
  }

  /** The last two cells of a material row, right-aligned, read back as the unit
      price and the line total quantity x unit price. */
  lemma MaterialRowAmounts(m: MaterialItem)
    ensures var cells := MaterialRow(m).cells;
      && |cells| == 5
      && ParseMoney(Render(CellText(cells[3]))) == Some(m.unitPrice)
      && ParseMoney(Render(CellText(cells[4]))) == Some(m.quantity * m.unitPrice)
      && cells[3].paras[0].align == Right && cells[4].paras[0].align == Right
  {
    var cells := MaterialRow(m).cells;
    assert CellText(cells[3]) == Amount(m.unitPrice) && CellText(cells[4]) == Amount(LineTotal(m));
    RenderAmount(m.unitPrice);
    RenderAmount(LineTotal(m));
  }

  /** Row `i + 1` of the materials table is the row of the `i`-th material line. */
  lemma MaterialRowAt(ms: seq<MaterialItem>, t: L.Labels, i: nat)
    requires i < |ms|
    ensures MaterialsTable(ms, t).rows[i + 1] == MaterialRow(ms[i])
  {
    MaterialRowsShape(ms);
  }

  /** The labor table has a shaded header row and one row per labor line, two
      cells each, with widths 75/25. */
  lemma LaborTableShape(ls: seq<LaborItem>, t: L.Labels)
    ensures var rows := LaborTable(ls, t).rows;
      && LaborTable(ls, t).bordered
      && |rows| == 1 + |ls|
      && (forall i :: 0 <= i < |rows| ==> |rows[i].cells| == 2)
      && rows[0].cells[0].header && rows[0].cells[1].header
      && Render(CellText(rows[0].cells[0])) == t.workDescription && Render(CellText(rows[0].cells[1])) == t.cost
      && rows[0].cells[0].width == Some(75) && rows[0].cells[1].width == Some(25)
      && TotalWidth(rows[0].cells) == 100
  {
    LaborRowsShape(ls);
    var h := LaborHeader(t).cells;
    assert h[1..][1..] == [];
    assert TotalWidth(h[1..]) == 25;
    RenderStr(t.workDescription);
    RenderStr(t.cost);
  }

  /** A labor row reads back its line's description and its cost, right-aligned. */
  lemma LaborRowCells(l: LaborItem)
    ensures var cells := LaborRow(l).cells;
      && |cells| == 2
      && Render(CellText(cells[0])) == l.description
      && ParseMoney(Render(CellText(cells[1]))) == Some(l.cost)
      && cells[1].paras[0].align == Right
  {
    var cells := LaborRow(l).cells;
    assert CellText(cells[0]) == Str(l.description) && CellText(cells[1]) == Amount(l.cost);
    RenderStr(l.description);
    RenderAmount(l.cost);
  }

  /** Row `i + 1` of the labor table is the row of the `i`-th labor line. */
  lemma LaborRowAt(ls: seq<LaborItem>, t: L.Labels, i: nat)
    requires i < |ls|
    ensures LaborTable(ls, t).rows[i + 1] == LaborRow(ls[i])
  {
    LaborRowsShape(ls);
  }

  // --------------------------------------------------------------- workers

  /** The main-worker value is the name of the first worker whose role is
      exactly "Principal", or the placeholder when that name is empty. */
  lemma MainWorkerIsFirstPrincipal(ws: seq<WorkerInfo>, i: nat)
    requires i < |ws| && ws[i].role == Principal
    requires forall j :: 0 <= j < i ==> ws[j].role != Principal
    ensures MainWorkerText(ws) == if ws[i].name == "" then Placeholder else ws[i].name
  {
    var r := FirstPrincipal(ws);
    assert r.Some?;
  }

  /** Without a "Principal" worker the main-worker value is the placeholder. */
  lemma NoPrincipal(ws: seq<WorkerInfo>)
    requires forall j :: 0 <= j < |ws| ==> ws[j].role != Principal
    ensures MainWorkerText(ws) == Placeholder
  {
  }

  /** The other-worker names of a concatenation are those of its parts, in order. */
  lemma {:induction false} OtherWorkerNamesAppend(a: seq<WorkerInfo>, b: seq<WorkerInfo>)
    ensures OtherWorkerNames(a + b) == OtherWorkerNames(a) + OtherWorkerNames(b)
    decreases |a|
  {
    if |a| > 0 {
      assert (a + b)[0] == a[0];
      assert (a + b)[1..] == a[1..] + b;
      OtherWorkerNamesAppend(a[1..], b);
    } else {
      assert a + b == b;
    }
  }

  /** On one worker the list holds its name exactly when it is not "Principal";
      with `OtherWorkerNamesAppend` this fixes every name, its order and its
      multiplicity. */
  lemma OtherWorkerNamesOne(w: WorkerInfo)
    ensures OtherWorkerNames([w]) == if w.role != Principal then [w.name] else []
  {
    assert [w][1..] == [];
  }

  /** With a non-empty separator the joined text is empty exactly when there is
      no item, or one empty item. */
  lemma JoinEmpty(xs: seq<string>, sep: string)
    requires sep != ""
    ensures Join(xs, sep) == "" <==> |xs| == 0 || (|xs| == 1 && xs[0] == "")
  {
    if |xs| >= 2 {
      assert |Join(xs, sep)| >= |sep|;
    }
  }

  /** The other-workers text is empty exactly when no worker is a helper, or the
      only helper has an empty name; in particular when every worker is "Principal". */
  lemma OtherWorkersEmpty(ws: seq<WorkerInfo>)
    ensures OtherWorkersText(ws) == ""
        <==> |OtherWorkerNames(ws)| == 0 || (|OtherWorkerNames(ws)| == 1 && OtherWorkerNames(ws)[0] == "")
    ensures (forall j :: 0 <= j < |ws| ==> ws[j].role == Principal) ==> OtherWorkersText(ws) == ""
  {
    JoinEmpty(OtherWorkerNames(ws), ", ");
    if forall j :: 0 <= j < |ws| ==> ws[j].role == Principal {
      if |OtherWorkerNames(ws)| > 0 {
        assert OtherWorkerNames(ws)[0] in OtherWorkerNames(ws);
      }
    }
  }

  /** A helper named "A" before a principal named "B": "B" is the main worker and "A" the other worker. */
  lemma WorkersExample()
    ensures var ws := [WorkerInfo("1", "A", "Ayudante"), WorkerInfo("2", "B", Principal)];
      MainWorkerText(ws) == "B" && OtherWorkersText(ws) == "A"
  {
    var ws := [WorkerInfo("1", "A", "Ayudante"), WorkerInfo("2", "B", Principal)];
    assert ws[1..][1..] == [];
    assert OtherWorkerNames(ws) == ["A"];
  }

  // ------------------------------------------------------------- file name

  /** The stem is the fallback for an empty project name and otherwise the name
      with its whitespace runs replaced; it is never empty and holds no
      whitespace. */
  lemma FileStemSpec(projectName: string)
    ensures FileStem(projectName) == if projectName == "" then Fallback else ReplaceSpaceRuns(projectName)
    ensures FileStem(projectName) != "" && NoSpace(FileStem(projectName))
  {
  }

  /** `a + rest` taken apart at its first item. */
  lemma ConsSplit<T>(a: seq<T>, rest: seq<T>)
    requires |a| > 0
    ensures a + rest == [a[0]] + (a[1..] + rest)
  {
  }

  /** A leading run of whitespace is skipped whole, up to the first other character. */
  lemma {:induction false} SkipAll(w: string, v: string)
    requires forall i :: 0 <= i < |w| ==> IsJsSpace(w[i])
    requires v == [] || !IsJsSpace(v[0])
    ensures SkipSpaces(w + v) == v
    decreases |w|
  {
    if |w| > 0 {
      ConsSplit(w, v);
      assert (w + v)[1..] == w[1..] + v;
      SkipAll(w[1..], v);
    } else {
      assert w + v == v;
    }
  }

  /** `u + w + v` and `u + sep + x` taken apart at the first item of `u`. */
  lemma ConsSplit3<T>(u: seq<T>, w: seq<T>, v: seq<T>, sep: seq<T>, x: seq<T>)
    requires |u| > 0
    ensures u + w + v == [u[0]] + (u[1..] + w + v)
    ensures u + sep + x == [u[0]] + (u[1..] + sep + x)
  {
  }

  lemma NoSpaceTail(u: string)
    requires |u| > 0 && NoSpace(u)
    ensures !IsJsSpace(u[0]) && NoSpace(u[1..])
  {
    assert forall i :: 0 <= i < |u| - 1 ==> u[1..][i] == u[i + 1];
  }

  /** A character other than whitespace is copied unchanged. */
  lemma ReplaceKeeps(c: char, s: string)
    requires !IsJsSpace(c)
    ensures ReplaceSpaceRuns([c] + s) == [c] + ReplaceSpaceRuns(s)
  {
    assert ([c] + s)[1..] == s;
  }

  /** A leading run of whitespace becomes one underscore. */
  lemma ReplaceLead(w: string, v: string)
    requires |w| > 0 && forall i :: 0 <= i < |w| ==> IsJsSpace(w[i])
    requires v == [] || !IsJsSpace(v[0])
    ensures ReplaceSpaceRuns(w + v) == "_" + ReplaceSpaceRuns(v)
  {
    assert (w + v)[0] == w[0];
    SkipAll(w, v);
  }

  /** A run of whitespace after a stretch without any becomes exactly one
      underscore, and the characters before it are kept in order. */
  lemma {:induction false} ReplaceRun(u: string, w: string, v: string)
    requires NoSpace(u)
    requires |w| > 0 && forall i :: 0 <= i < |w| ==> IsJsSpace(w[i])
    requires v == [] || !IsJsSpace(v[0])
    ensures ReplaceSpaceRuns(u + w + v) == u + "_" + ReplaceSpaceRuns(v)
    decreases |u|
  {
    if |u| > 0 {
      ConsSplit3(u, w, v, "_", ReplaceSpaceRuns(v));
      NoSpaceTail(u);
      ReplaceKeeps(u[0], u[1..] + w + v);
      ReplaceRun(u[1..], w, v);
    } else {
      assert u + w + v == w + v;
      ReplaceLead(w, v);
    }
  }

  /** A name made only of whitespace is not empty, so it does not get the
      fallback: its stem is a single underscore. */
  lemma BlankNameStem(w: string)
    requires |w| > 0 && forall i :: 0 <= i < |w| ==> IsJsSpace(w[i])
    ensures FileStem(w) == "_"
  {
    ReplaceLead(w, []);
    assert w + [] == w;
  }

  /** A project named "Cocina Nueva" in Spanish is saved as "Cocina_Nueva_es.docx". */
  lemma FileNameExample(name: string)
    requires name == "Cocina Nueva"
    ensures FileName(name, Es) == "Cocina_Nueva_es.docx"
  {
    var u, w, v := "Cocina", " ", "Nueva";
    assert NoSpace(u) && NoSpace(v);
    assert name == u + w + v;
    ReplaceRun(u, w, v);
    ExampleSpelling();
  }

  lemma ExampleSpelling()
    ensures "Cocina" + "_" + "Nueva" + "_" + LangCode(Es) + Extension == "Cocina_Nueva_es.docx"
  {
    assert "Cocina" + "_" + "Nueva" == "Cocina_Nueva";
    assert "_" + LangCode(Es) + Extension == "_es.docx";
  }

  /** Splits a file name into its stem and language, the inverse of `FileName`. */
  function ParseFileName(f: string): (r: Option<(string, Language)>)
    ensures r.Some? ==> r.value.0 != "" && NoSpace(r.value.0) && FileName(r.value.0, r.value.1) == f
  {
    var n := |f|;
    if n < 9 || f[n - 5..] != Extension || f[n - 8] != '_' then None
    else
      match ParseLangCode(f[n - 7..n - 5])
      case None => None
      case Some(lang) =>
        var stem := f[..n - 8];
        if NoSpace(stem) then Some((stem, lang)) else None
  }

  /** The pieces of `stem + "_" + code + ".docx"`, located from its end. */
  lemma FileNameSlices(stem: string, code: string)
    requires |code| == 2
    ensures var f := stem + "_" + code + Extension;
      var n := |f|;
      && n == |stem| + 8
      && f[n - 5..] == Extension && f[n - 8] == '_' && f[n - 7..n - 5] == code && f[..n - 8] == stem
  {
  }

  lemma FileNameRoundTrip(projectName: string, lang: Language)
    ensures ParseFileName(FileName(projectName, lang)) == Some((FileStem(projectName), lang))
  {
    var stem, code := FileStem(projectName), LangCode(lang);
    FileStemSpec(projectName);
    FileNameSlices(stem, code);
    var f := stem + "_" + code + Extension;
    assert FileName(projectName, lang) == f;
    assert ParseLangCode(code) == Some(lang);
  }
}
