/** The document generator: from a budget snapshot and a language it builds the
    ordered list of document blocks and the suggested file name. Blocks are an
    abstract stand-in for the office-document objects (paragraphs of text runs,
    tables of cells); styling beyond alignment, bold, heading level, borders,
    header shading and cell width is not represented. */
module DocumentGenerator {
  import opened BudgetTypes
  import opened Format
  import opened Totals
  import L = Translations

  // ---------------------------------------------------------------- blocks

  /** One part of a template literal: literal text, `String(n)` of an integral
      number, or `toFixed(2)` of an amount held in cents. */
  datatype Piece = Lit(s: string) | Num(n: int) | Fixed(cents: int)

  /** The text of a run, kept as the template that produces it; `Render` gives the characters. */
  type Text = seq<Piece>

  function PieceText(x: Piece): string
  {
    match x
    case Lit(s) => s
    case Num(n) => IntToString(n)
    case Fixed(c) => Fixed2(c)
  }

  function Render(t: Text): string
    decreases |t|
  {
    if |t| == 0 then "" else PieceText(t[0]) + Render(t[1..])
  }

  /** A text with no interpolation. */
  function Str(s: string): Text
  {
    [Lit(s)]
  }

  /** `$${amount.toFixed(2)}`. */
  function Amount(cents: int): Text
  {
    [Lit("$"), Fixed(cents)]
  }

  datatype Align = Left | Center | Right

  datatype HeadingLevel = Body | TitleLevel | Heading2

  datatype Run = Run(text: Text, bold: bool)

  datatype Para = Para(runs: seq<Run>, align: Align, heading: HeadingLevel)

  /** A table cell: its paragraphs, its width in percent when one is set, and
      whether it is a shaded header cell. */
  datatype Cell = Cell(paras: seq<Para>, width: Option<nat>, header: bool)

  datatype Row = Row(cells: seq<Cell>)

  /** A top-level block; a bordered table draws a thin border around every cell. */
  datatype Block = Paragraph(para: Para) | Table(rows: seq<Row>, bordered: bool)

  // --------------------------------------------------------------- workers

  const Principal: string := "Principal"

  /** The text shown for a missing value. */
  const Placeholder: string := "---"

  /** `s || "---"`: the empty string is replaced by the placeholder. */
  function OrPlaceholder(s: string): string
  {
    if s == "" then Placeholder else s
  }

  /** `workers.find(w => w.role === 'Principal')`, as the index of the match. */
  function FirstPrincipal(ws: seq<WorkerInfo>): (r: Option<nat>)
    ensures r.Some? ==> r.value < |ws| && ws[r.value].role == Principal
    ensures r.Some? ==> forall j :: 0 <= j < r.value ==> ws[j].role != Principal
    ensures r.None? <==> forall j :: 0 <= j < |ws| ==> ws[j].role != Principal
    decreases |ws|
  {
    if |ws| == 0 then None
    else if ws[0].role == Principal then Some(0)
    else match FirstPrincipal(ws[1..])
      case None => None
      case Some(i) => Some(i + 1)
  }

  /** `mainWorker?.name || "---"`. */
  function MainWorkerText(ws: seq<WorkerInfo>): (r: string)
    ensures r != ""
    ensures r != Placeholder ==> exists i :: 0 <= i < |ws| && ws[i].role == Principal && ws[i].name == r
  {
    match FirstPrincipal(ws)
    case None => Placeholder
    case Some(i) => OrPlaceholder(ws[i].name)
  }

  /** `workers.filter(w => w.role !== 'Principal').map(w => w.name)`. */
  function OtherWorkerNames(ws: seq<WorkerInfo>): (r: seq<string>)
    ensures |r| <= |ws|
    ensures forall i :: 0 <= i < |ws| && ws[i].role != Principal ==> ws[i].name in r
    ensures forall n :: n in r ==> exists i :: 0 <= i < |ws| && ws[i].role != Principal && ws[i].name == n
    decreases |ws|
  {
    if |ws| == 0 then []
    else
      var rest := OtherWorkerNames(ws[1..]);
      assert forall i :: 1 <= i < |ws| ==> ws[i] == ws[1..][i - 1];
      if ws[0].role != Principal then [ws[0].name] + rest else rest
  }

  /** `xs.join(sep)`. */
  function Join(xs: seq<string>, sep: string): (r: string)
    ensures |xs| == 0 ==> r == ""
    ensures |xs| > 0 ==> |xs[0]| <= |r| && r[..|xs[0]|] == xs[0]
    ensures |xs| >= 2 ==> |r| >= |xs[0]| + |sep| && r[|xs[0]|..|xs[0]| + |sep|] == sep
    decreases |xs|
  {
    if |xs| == 0 then ""
    else if |xs| == 1 then xs[0]
    else xs[0] + sep + Join(xs[1..], sep)
  }

  /** The comma-separated names of every worker who is not "Principal". */
  function OtherWorkersText(ws: seq<WorkerInfo>): (r: string)
    ensures r == "" ==> forall i :: 0 <= i < |ws| && ws[i].role != Principal ==> ws[i].name == ""
  {
    var names := OtherWorkerNames(ws);
    if |names| >= 2 then
      assert Join(names, ", ")[|names[0]|..|names[0]| + 2] == ", ";
      Join(names, ", ")
    else
      Join(names, ", ")
  }

  // ----------------------------------------------------------- paragraphs

  function Plain(text: Text, align: Align): Para
  {
    Para([Run(text, false)], align, Body)
  }

  /** A bold label (followed by one space) and a plain value in one paragraph. */
  function LabelLine(caption: string, value: Text, align: Align): Block
  {
    Paragraph(Para([Run(Str(caption + " "), true), Run(value, false)], align, Body))
  }

  function TitleBlock(t: L.Labels): Block
  {
    Paragraph(Para([Run(Str(t.title), false)], Center, TitleLevel))
  }

  function ProjectNameBlock(p: ProjectInfo): Block
  {
    Paragraph(Para([Run(Str(p.projectName), true)], Center, Body))
  }

  function BeneficiaryBlock(p: ProjectInfo, t: L.Labels): Block
  {
    LabelLine(t.beneficiary, Str(OrPlaceholder(p.beneficiary)), Left)
  }

  function MainWorkerBlock(ws: seq<WorkerInfo>, t: L.Labels): Block
  {
    LabelLine(t.mainWorker, Str(MainWorkerText(ws)), Left)
  }

  function OtherWorkersBlock(names: string, t: L.Labels): Block
  {
    LabelLine(t.otherWorkers, Str(names), Left)
  }

  function SectionHeading(text: string): Block
  {
    Paragraph(Para([Run(Str(text), false)], Left, Heading2))
  }

  /** "{label} ${amount} {currency}", right-aligned, the label bold. */
  function TotalLine(t: L.Labels, caption: string, amount: int): Block
  {
    LabelLine(caption, Amount(amount) + Str(" " + t.currency), Right)
  }

  // --------------------------------------------------------------- tables

  function HeaderCell(text: string, width: nat): Cell
  {
    Cell([Para([Run(Str(text), true)], Center, Body)], Some(width), true)
  }

  function DataCell(text: Text, align: Align): Cell
  {
    Cell([Plain(text, align)], None, false)
  }

  /** The text of a cell of one single-run paragraph. */
  function CellText(c: Cell): Text
  {
    if |c.paras| > 0 && |c.paras[0].runs| > 0 then c.paras[0].runs[0].text else []
  }

  function MaterialsHeader(t: L.Labels): Row
  {
    Row([HeaderCell(t.description, 40),
         HeaderCell(t.quantity, 10),
         HeaderCell(t.unit, 15),
         HeaderCell(t.unitPrice, 15),
         HeaderCell(t.total, 20)])
  }

  function MaterialRow(m: MaterialItem): Row
  {
    Row([DataCell(Str(m.description), Left),
         DataCell([Num(m.quantity)], Center),
         DataCell(Str(m.unit), Center),
         DataCell(Amount(m.unitPrice), Right),
         DataCell(Amount(LineTotal(m)), Right)])
  }

  function MaterialRows(ms: seq<MaterialItem>): (r: seq<Row>)
    ensures |r| == |ms|
  {
    if |ms| == 0 then [] else [MaterialRow(ms[0])] + MaterialRows(ms[1..])
  }

  function MaterialsTable(ms: seq<MaterialItem>, t: L.Labels): Block
  {
    Table([MaterialsHeader(t)] + MaterialRows(ms), true)
  }

  function LaborHeader(t: L.Labels): Row
  {
    Row([HeaderCell(t.workDescription, 75), HeaderCell(t.cost, 25)])
  }

  function LaborRow(l: LaborItem): Row
  {
    Row([DataCell(Str(l.description), Left), DataCell(Amount(l.cost), Right)])
  }

  function LaborRows(ls: seq<LaborItem>): (r: seq<Row>)
    ensures |r| == |ls|
  {
    if |ls| == 0 then [] else [LaborRow(ls[0])] + LaborRows(ls[1..])
  }

  function LaborTable(ls: seq<LaborItem>, t: L.Labels): Block
  {
    Table([LaborHeader(t)] + LaborRows(ls), true)
  }

  /** 26 underscores: the line to sign on. */
  const SignatureRule: string := "__________________________"

  /** The borderless signature table: approver, signature line and caption on the
      left, the date right-aligned on the right, each half 50% wide. */
  function SignatureTable(p: ProjectInfo, t: L.Labels): Block
  {
    Table([Row([
      Cell([Para([Run([Lit(t.approvedBy), Lit(" "), Lit(p.approverName)], true)], Left, Body),
            Plain(Str("\n\n" + SignatureRule), Left),
            Plain(Str(t.signature), Left)], Some(50), false),
      Cell([Para([Run([Lit(t.date), Lit(" "), Lit(p.approvalDate)], true)], Right, Body)], Some(50), false)
    ])], false)
  }

  /** 60 underscores: the rule drawn above the grand total. */
  const SeparatorRule: string := "____________________________________________________________"

  const SeparatorBlock: Block := Paragraph(Plain(Str(SeparatorRule), Center))

  function GrandTotalBlock(t: L.Labels, grand: int): Block
  {
    Paragraph(Para([Run(Str(t.finalTotal + " "), true),
                    Run(Amount(grand) + Str(" " + t.currency), true)], Center, Body))
  }

  /** "{n} workers x {d} days @ ${cost} ea", right-aligned. */
  function DietLine(d: DietInfo, t: L.Labels): Block
  {
    Paragraph(Plain([Num(d.workersCount), Lit(" " + t.workers + " x "), Num(d.days), Lit(" " + t.days + " @ ")]
                    + Amount(d.costPerDay) + [Lit(" " + t.perMeal)], Right))
  }

  /** The observations label. The source passes `bold: true` beside `text` in
      the paragraph options, which hold no run formatting, so the run that
      `text` creates is a plain one. */
  const ObservationsHeadBlock: Block := Paragraph(Plain(Str(L.ObservationsLabel), Left))

  function ObservationsTextBlock(p: ProjectInfo): Block
  {
    Paragraph(Plain(Str(p.observations), Left))
  }

  // ---------------------------------------------------------- block list

  /* Each stage extends the block list built so far, as one group of pushes of
     the generator does; a stage under a guard leaves the list as it was when
     its guard is false. */

  function AddHeader(sections: seq<Block>, p: ProjectInfo, t: L.Labels): seq<Block>
  {
    sections + [TitleBlock(t), ProjectNameBlock(p), BeneficiaryBlock(p, t)]
  }

  /** The main-worker line, then the other-workers line when their joined names are not empty. */
  function AddWorkers(sections: seq<Block>, ws: seq<WorkerInfo>, t: L.Labels): seq<Block>
  {
    var others := OtherWorkersText(ws);
    if others != "" then sections + [MainWorkerBlock(ws, t)] + [OtherWorkersBlock(others, t)]
    else sections + [MainWorkerBlock(ws, t)]
  }

  function AddMaterials(sections: seq<Block>, ms: seq<MaterialItem>, t: L.Labels): seq<Block>
  {
    if |ms| > 0 then
      sections + [SectionHeading(t.materials)] + [MaterialsTable(ms, t)]
        + [TotalLine(t, t.materialsTotal, MaterialsTotal(ms))]
    else sections
  }

  function AddLabor(sections: seq<Block>, ls: seq<LaborItem>, t: L.Labels): seq<Block>
  {
    if |ls| > 0 then
      sections + [SectionHeading(t.labor)] + [LaborTable(ls, t)] + [TotalLine(t, t.laborTotal, LaborTotal(ls))]
    else sections
  }

  /** Diets are listed only when both the worker count and the day count are positive. */
  predicate HasDiets(d: DietInfo)
  {
    d.workersCount > 0 && d.days > 0
  }

  function AddDiets(sections: seq<Block>, d: DietInfo, t: L.Labels): seq<Block>
  {
    if HasDiets(d) then
      sections + [SectionHeading(t.diets), DietLine(d, t), TotalLine(t, t.dietsTotal, DietTotal(d))]
    else sections
  }

  function AddGrandTotal(sections: seq<Block>, t: L.Labels, grand: int): seq<Block>
  {
    sections + [SeparatorBlock, GrandTotalBlock(t, grand)]
  }

  /** The observations heading and text when the observations are not empty. */
  function AddObservations(sections: seq<Block>, p: ProjectInfo): seq<Block>
  {
    if p.observations != "" then sections + [ObservationsHeadBlock, ObservationsTextBlock(p)] else sections
  }

  function AddSignature(sections: seq<Block>, p: ProjectInfo, t: L.Labels): seq<Block>
  {
    sections + [SignatureTable(p, t)]
  }

  /** The whole block list for the label table `t`, stage by stage from the empty list. */
  function Sections(p: ProjectInfo, ws: seq<WorkerInfo>, ms: seq<MaterialItem>, ls: seq<LaborItem>,
                    d: DietInfo, t: L.Labels): seq<Block>
  {
    var s := AddDiets(AddLabor(AddMaterials(AddWorkers(AddHeader([], p, t), ws, t), ms, t), ls, t), d, t);
    AddSignature(AddObservations(AddGrandTotal(s, t, GrandTotal(ms, ls, d)), p), p, t)
  }

  /** The block list of the document in language `lang`. */
  function Document(p: ProjectInfo, ws: seq<WorkerInfo>, ms: seq<MaterialItem>, ls: seq<LaborItem>,
                    d: DietInfo, lang: Language): seq<Block>
  {
    Sections(p, ws, ms, ls, d, L.Translations(lang))
  }

  // ------------------------------------------------------------ file name

  /** The characters JavaScript's `\s` matches. */
  predicate IsJsSpace(c: char)
  {
    c == ' ' || c == '\t' || c == '\n' || c == '\r' || c == '\U{000B}' || c == '\U{000C}'
    || c == '\U{00A0}' || c == '\U{1680}' || ('\U{2000}' <= c <= '\U{200A}')
    || c == '\U{2028}' || c == '\U{2029}' || c == '\U{202F}' || c == '\U{205F}'
    || c == '\U{3000}' || c == '\U{FEFF}'
  }

  predicate NoSpace(s: string)
  {
    forall i :: 0 <= i < |s| ==> !IsJsSpace(s[i])
  }

  /** The rest of `s` after its leading run of whitespace. */
  function SkipSpaces(s: string): (r: string)
    ensures |r| <= |s| && r == s[|s| - |r|..]
    ensures r == [] || !IsJsSpace(r[0])
    ensures forall i :: 0 <= i < |s| - |r| ==> IsJsSpace(s[i])
    decreases |s|
  {
    if |s| > 0 && IsJsSpace(s[0]) then SkipSpaces(s[1..]) else s
  }

  /** `s.replace(/\s+/g, '_')`: every maximal run of whitespace becomes one underscore. */
  function ReplaceSpaceRuns(s: string): (r: string)
    ensures NoSpace(r)
    ensures r == "" <==> s == ""
    ensures |r| <= |s|
    ensures NoSpace(s) ==> r == s
    decreases |s|
  {
    if |s| == 0 then ""
    else if IsJsSpace(s[0]) then "_" + ReplaceSpaceRuns(SkipSpaces(s))
    else
      assert NoSpace(s) ==> NoSpace(s[1..]) by {
        assert forall i :: 0 <= i < |s| - 1 ==> s[1..][i] == s[i + 1];
      }
      [s[0]] + ReplaceSpaceRuns(s[1..])
  }

  const Fallback: string := "presupuesto"

  /** The part of the file name before `_{lang}.docx`. */
  function FileStem(projectName: string): (r: string)
    ensures r != "" && NoSpace(r)
    ensures NoSpace(projectName) && projectName != "" ==> r == projectName
  {
    var replaced := ReplaceSpaceRuns(projectName);
    if replaced == "" then Fallback else replaced
  }

  const Extension: string := ".docx"

  function FileName(projectName: string, lang: Language): (r: string)
    ensures |r| >= 9 && r[|r| - 8] == '_' && r[|r| - 5..] == Extension
    ensures NoSpace(r[..|r| - 8])
  {
    FileStem(projectName) + "_" + LangCode(lang) + Extension
  }

  // --------------------------------------------------------- entry point

  /* The generator's body, one method per commented section of it. Each pushes
     its blocks onto the list built so far under that section's guard. */

  method PushHeader(before: seq<Block>, p: ProjectInfo, t: L.Labels) returns (sections: seq<Block>)
    ensures sections == AddHeader(before, p, t)
  {
    sections := before + [TitleBlock(t), ProjectNameBlock(p), BeneficiaryBlock(p, t)];
  }

  method PushWorkers(before: seq<Block>, ws: seq<WorkerInfo>, t: L.Labels) returns (sections: seq<Block>)
    ensures sections == AddWorkers(before, ws, t)
  {
    sections := before;
    var otherWorkers := Join(OtherWorkerNames(ws), ", ");
    sections := sections + [MainWorkerBlock(ws, t)];
    if otherWorkers != "" {
      sections := sections + [OtherWorkersBlock(otherWorkers, t)];
    }
  }

  method PushMaterials(before: seq<Block>, ms: seq<MaterialItem>, t: L.Labels, materialTotal: int)
    returns (sections: seq<Block>)
    requires materialTotal == MaterialsTotal(ms)
    ensures sections == AddMaterials(before, ms, t)
  {
    sections := before;
    if |ms| > 0 {
      sections := sections + [SectionHeading(t.materials)];
      sections := sections + [MaterialsTable(ms, t)];
      sections := sections + [TotalLine(t, t.materialsTotal, materialTotal)];
    }
  }

  method PushLabor(before: seq<Block>, ls: seq<LaborItem>, t: L.Labels, laborTotal: int)
    returns (sections: seq<Block>)
    requires laborTotal == LaborTotal(ls)
    ensures sections == AddLabor(before, ls, t)
  {
    sections := before;
    if |ls| > 0 {
      sections := sections + [SectionHeading(t.labor)];
      sections := sections + [LaborTable(ls, t)];
      sections := sections + [TotalLine(t, t.laborTotal, laborTotal)];
    }
  }

  method PushDiets(before: seq<Block>, d: DietInfo, t: L.Labels, dietTotal: int)
    returns (sections: seq<Block>)
    requires dietTotal == DietTotal(d)
    ensures sections == AddDiets(before, d, t)
  {
    sections := before;
    if d.workersCount > 0 && d.days > 0 {
      sections := sections + [SectionHeading(t.diets), DietLine(d, t), TotalLine(t, t.dietsTotal, dietTotal)];
    }
  }

  method PushObservations(before: seq<Block>, p: ProjectInfo) returns (sections: seq<Block>)
    ensures sections == AddObservations(before, p)
  {
    sections := before;
    if p.observations != "" {
      sections := sections + [ObservationsHeadBlock, ObservationsTextBlock(p)];
    }
  }

  method PushGrandTotal(before: seq<Block>, t: L.Labels, grandTotal: int) returns (sections: seq<Block>)
    ensures sections == AddGrandTotal(before, t, grandTotal)
  {
    sections := before + [SeparatorBlock, GrandTotalBlock(t, grandTotal)];
  }

  method PushSignature(before: seq<Block>, p: ProjectInfo, t: L.Labels) returns (sections: seq<Block>)
    ensures sections == AddSignature(before, p, t)
  {
    sections := before + [SignatureTable(p, t)];
  }

  /** The four totals as the generator computes them, two folds from 0 and two sums. */
  method CalculateTotals(ms: seq<MaterialItem>, ls: seq<LaborItem>, d: DietInfo) returns (totals: BudgetTotals)
    ensures totals == ComputeTotals(ms, ls, d)
  {
    var materialTotal := Reduce(ms, LineTotal, 0);
    var laborTotal := Reduce(ls, Cost, 0);
    var dietTotal := d.workersCount * d.days * d.costPerDay;
    var grandTotal := materialTotal + laborTotal + dietTotal;
    totals := BudgetTotals(materialTotal, laborTotal, dietTotal, grandTotal);
  }

  /** The generator's blocks, section by section, for the label table `t` and the totals computed first. */
  method BuildSections(p: ProjectInfo, ws: seq<WorkerInfo>, ms: seq<MaterialItem>, ls: seq<LaborItem>,
                       d: DietInfo, t: L.Labels, totals: BudgetTotals)
    returns (sections: seq<Block>)
    requires totals.materials == MaterialsTotal(ms) && totals.labor == LaborTotal(ls) && totals.diet == DietTotal(d)
    requires totals.grand == totals.materials + totals.labor + totals.diet
    ensures sections == Sections(p, ws, ms, ls, d, t)
  {
    assert totals.grand == GrandTotal(ms, ls, d);
    sections := [];
    sections := PushHeader(sections, p, t);
    sections := PushWorkers(sections, ws, t);
    sections := PushMaterials(sections, ms, t, totals.materials);
    sections := PushLabor(sections, ls, t, totals.labor);
    sections := PushDiets(sections, d, t, totals.diet);
    sections := PushGrandTotal(sections, t, totals.grand);
    sections := PushObservations(sections, p);
    sections := PushSignature(sections, p, t);
  }

  /** The generator up to serialization: the block list in the language's labels
      and the suggested file name. */
  method GenerateDocument(p: ProjectInfo, ws: seq<WorkerInfo>, ms: seq<MaterialItem>, ls: seq<LaborItem>,
                          d: DietInfo, lang: Language)
    returns (sections: seq<Block>, fileName: string)
    ensures sections == Document(p, ws, ms, ls, d, lang)
    ensures fileName == FileName(p.projectName, lang)
  {
    var t := L.Translations(lang);
    var totals := CalculateTotals(ms, ls, d);
    sections := BuildSections(p, ws, ms, ls, d, t, totals);
    fileName := FileName(p.projectName, lang);
  }
}
