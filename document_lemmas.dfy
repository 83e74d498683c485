/** Properties of the generator's block list and file name: which sections
    appear, in which order, the shape of the two item tables, and what the
    printed amounts and the file name read back as. */
module DocumentProperties {
  import opened BudgetTypes
  import opened Format
  import opened Totals
  import opened DocumentGenerator
  import L = Translations

  // ------------------------------------------------------ stage by stage

  lemma AppendOne<T>(s: seq<T>, a: T)
    ensures s + [a] == s + ([] + [a])
  {
  }

  lemma AppendTwo<T>(s: seq<T>, a: T, b: T)
    ensures s + [a] + [b] == s + ([] + [a] + [b])
  {
  }

  lemma AppendThree<T>(s: seq<T>, a: T, b: T, c: T)
    ensures s + [a] + [b] + [c] == s + ([] + [a] + [b] + [c])
  {
  }

  lemma AppendList<T>(s: seq<T>, xs: seq<T>)
    ensures s + xs == s + ([] + xs)
  {
  }

  /* Every stage appends to the list it is given: the result is the list built
     so far followed by what the stage contributes on its own. */

  lemma HeaderAppends(s: seq<Block>, p: ProjectInfo, t: L.Labels)
    ensures AddHeader(s, p, t) == s + AddHeader([], p, t)
  {
    AppendList(s, [TitleBlock(t), ProjectNameBlock(p), BeneficiaryBlock(p, t)]);
  }

  lemma WorkersAppend(s: seq<Block>, ws: seq<WorkerInfo>, t: L.Labels)
    ensures AddWorkers(s, ws, t) == s + AddWorkers([], ws, t)
  {
    var others := OtherWorkersText(ws);
    if others != "" {
      AppendTwo(s, MainWorkerBlock(ws, t), OtherWorkersBlock(others, t));
    } else {
      AppendOne(s, MainWorkerBlock(ws, t));
    }
  }

  lemma MaterialsAppend(s: seq<Block>, ms: seq<MaterialItem>, t: L.Labels)
    ensures AddMaterials(s, ms, t) == s + AddMaterials([], ms, t)
  {
    if |ms| > 0 {
      AppendThree(s, SectionHeading(t.materials), MaterialsTable(ms, t), TotalLine(t, t.materialsTotal, MaterialsTotal(ms)));
    }
  }

  lemma LaborAppends(s: seq<Block>, ls: seq<LaborItem>, t: L.Labels)
    ensures AddLabor(s, ls, t) == s + AddLabor([], ls, t)
  {
    if |ls| > 0 {
      AppendThree(s, SectionHeading(t.labor), LaborTable(ls, t), TotalLine(t, t.laborTotal, LaborTotal(ls)));
    }
  }

  lemma DietsAppend(s: seq<Block>, d: DietInfo, t: L.Labels)
    ensures AddDiets(s, d, t) == s + AddDiets([], d, t)
  {
    if HasDiets(d) {
      AppendList(s, [SectionHeading(t.diets), DietLine(d, t), TotalLine(t, t.dietsTotal, DietTotal(d))]);
    }
  }

  lemma GrandTotalAppends(s: seq<Block>, t: L.Labels, grand: int)
    ensures AddGrandTotal(s, t, grand) == s + AddGrandTotal([], t, grand)
  {
    AppendList(s, [SeparatorBlock, GrandTotalBlock(t, grand)]);
  }

  lemma ObservationsAppend(s: seq<Block>, p: ProjectInfo)
    ensures AddObservations(s, p) == s + AddObservations([], p)
  {
    if p.observations != "" {
      AppendList(s, [ObservationsHeadBlock, ObservationsTextBlock(p)]);
    }
  }

  lemma SignatureAppends(s: seq<Block>, p: ProjectInfo, t: L.Labels)
    ensures AddSignature(s, p, t) == s + AddSignature([], p, t)
  {
    AppendList(s, [SignatureTable(p, t)]);
  }

  /** The first five stages, from the empty list, contribute their parts in order. */
  lemma FrontSplit(p: ProjectInfo, ws: seq<WorkerInfo>, ms: seq<MaterialItem>, ls: seq<LaborItem>,
                   d: DietInfo, t: L.Labels)
    ensures AddDiets(AddLabor(AddMaterials(AddWorkers(AddHeader([], p, t), ws, t), ms, t), ls, t), d, t)
         == AddHeader([], p, t) + AddWorkers([], ws, t) + AddMaterials([], ms, t) + AddLabor([], ls, t)
            + AddDiets([], d, t)
  {
    var s1 := AddHeader([], p, t);
    var s2 := AddWorkers(s1, ws, t);
    var s3 := AddMaterials(s2, ms, t);
    var s4 := AddLabor(s3, ls, t);
    WorkersAppend(s1, ws, t);
    MaterialsAppend(s2, ms, t);
    LaborAppends(s3, ls, t);
    DietsAppend(s4, d, t);
  }

  /** The last three stages append their parts to whatever came before. */
  lemma BackSplit(s: seq<Block>, p: ProjectInfo, t: L.Labels, grand: int)
    ensures AddSignature(AddObservations(AddGrandTotal(s, t, grand), p), p, t)
         == s + AddGrandTotal([], t, grand) + AddObservations([], p) + AddSignature([], p, t)
  {
    GrandTotalAppends(s, t, grand);
    ObservationsAppend(AddGrandTotal(s, t, grand), p);
    SignatureAppends(AddObservations(AddGrandTotal(s, t, grand), p), p, t);
  }

  /** `Sections` as its eight stages applied one after the other. */
  lemma SectionsStages(p: ProjectInfo, ws: seq<WorkerInfo>, ms: seq<MaterialItem>, ls: seq<LaborItem>,
                       d: DietInfo, t: L.Labels)
    ensures Sections(p, ws, ms, ls, d, t)
         == AddSignature(AddObservations(AddGrandTotal(
              AddDiets(AddLabor(AddMaterials(AddWorkers(AddHeader([], p, t), ws, t), ms, t), ls, t), d, t),
              t, GrandTotal(ms, ls, d)), p), p, t)
  {
  }

  /** The block list is the concatenation of the eight stages' own contributions, in order. */
  lemma SectionsSplit(p: ProjectInfo, ws: seq<WorkerInfo>, ms: seq<MaterialItem>, ls: seq<LaborItem>,
                      d: DietInfo, t: L.Labels)
    ensures Sections(p, ws, ms, ls, d, t)
         == AddHeader([], p, t) + AddWorkers([], ws, t) + AddMaterials([], ms, t) + AddLabor([], ls, t)
            + AddDiets([], d, t) + AddGrandTotal([], t, GrandTotal(ms, ls, d)) + AddObservations([], p)
            + AddSignature([], p, t)
  {
    var s := AddDiets(AddLabor(AddMaterials(AddWorkers(AddHeader([], p, t), ws, t), ms, t), ls, t), d, t);
    SectionsStages(p, ws, ms, ls, d, t);
    FrontSplit(p, ws, ms, ls, d, t);
    BackSplit(s, p, t, GrandTotal(ms, ls, d));
    Assemble(Sections(p, ws, ms, ls, d, t), s,
             AddHeader([], p, t), AddWorkers([], ws, t), AddMaterials([], ms, t), AddLabor([], ls, t),
             AddDiets([], d, t), AddGrandTotal([], t, GrandTotal(ms, ls, d)), AddObservations([], p),
             AddSignature([], p, t));
  }

  /** A list that is a front part followed by three more, where the front part
      is itself five parts, is the eight parts in order. */
  lemma Assemble<T>(whole: seq<T>, front: seq<T>, a: seq<T>, b: seq<T>, c: seq<T>, d: seq<T>, e: seq<T>,
                    f: seq<T>, g: seq<T>, h: seq<T>)
    requires front == a + b + c + d + e
    requires whole == front + f + g + h
    ensures whole == a + b + c + d + e + f + g + h
  {
  }

  // ------------------------------------------------------------ presence

  lemma InParts<T>(x: T, a: seq<T>, b: seq<T>, c: seq<T>, d: seq<T>, e: seq<T>, f: seq<T>, g: seq<T>, h: seq<T>)
    ensures x in a + b + c + d + e + f + g + h
        <==> x in a || x in b || x in c || x in d || x in e || x in f || x in g || x in h
  {
  }

  lemma HeadingsInFixedParts(p: ProjectInfo, ws: seq<WorkerInfo>, t: L.Labels, grand: int, x: string)
    ensures SectionHeading(x) !in AddHeader([], p, t)
    ensures SectionHeading(x) !in AddWorkers([], ws, t)
    ensures SectionHeading(x) !in AddGrandTotal([], t, grand)
    ensures SectionHeading(x) !in AddObservations([], p)
    ensures SectionHeading(x) !in AddSignature([], p, t)
  {
  }

  lemma HeadingsInSectionParts(ms: seq<MaterialItem>, ls: seq<LaborItem>, d: DietInfo, t: L.Labels, x: string)
    ensures SectionHeading(x) in AddMaterials([], ms, t) <==> x == t.materials && |ms| > 0
    ensures SectionHeading(x) in AddLabor([], ls, t) <==> x == t.labor && |ls| > 0
    ensures SectionHeading(x) in AddDiets([], d, t) <==> x == t.diets && HasDiets(d)
  {
  }

  /** The level-2 headings of the document are exactly the headings of the
      sections that are present: materials when there are material lines, labor
      when there are labor lines, diets when both diet counts are positive. */
  lemma HeadingsPresent(p: ProjectInfo, ws: seq<WorkerInfo>, ms: seq<MaterialItem>, ls: seq<LaborItem>,
                        d: DietInfo, t: L.Labels, x: string)
    ensures SectionHeading(x) in Sections(p, ws, ms, ls, d, t)
        <==> (x == t.materials && |ms| > 0) || (x == t.labor && |ls| > 0) || (x == t.diets && HasDiets(d))
  {
    SectionsSplit(p, ws, ms, ls, d, t);
    InParts(SectionHeading(x), AddHeader([], p, t), AddWorkers([], ws, t), AddMaterials([], ms, t), AddLabor([], ls, t),
            AddDiets([], d, t), AddGrandTotal([], t, GrandTotal(ms, ls, d)), AddObservations([], p), AddSignature([], p, t));
    HeadingsInFixedParts(p, ws, t, GrandTotal(ms, ls, d), x);
    HeadingsInSectionParts(ms, ls, d, t, x);
  }

  /** The two item tables differ: their header rows have five and two cells. */
  lemma ItemTablesDiffer(ms: seq<MaterialItem>, ls: seq<LaborItem>, t: L.Labels)
    ensures MaterialsTable(ms, t) != LaborTable(ls, t)
  {
    assert MaterialsTable(ms, t).rows[0] != LaborTable(ls, t).rows[0] by {
      assert |MaterialsTable(ms, t).rows[0].cells| == 5 && |LaborTable(ls, t).rows[0].cells| == 2;
    }
  }

  /** A table with cell borders: the materials and the labor tables are the only ones. */
  predicate IsItemTable(b: Block)
  {
    b.Table? && b.bordered
  }

  /** Outside the materials and labor stages no block is a bordered table. */
  lemma NoItemTablesElsewhere(p: ProjectInfo, ws: seq<WorkerInfo>, d: DietInfo, t: L.Labels, grand: int)
    ensures forall b :: b in AddHeader([], p, t) ==> !IsItemTable(b)
    ensures forall b :: b in AddWorkers([], ws, t) ==> !IsItemTable(b)
    ensures forall b :: b in AddDiets([], d, t) ==> !IsItemTable(b)
    ensures forall b :: b in AddGrandTotal([], t, grand) ==> !IsItemTable(b)
    ensures forall b :: b in AddObservations([], p) ==> !IsItemTable(b)
    ensures forall b :: b in AddSignature([], p, t) ==> !IsItemTable(b)
  {
  }

  lemma TablesInItemParts(ms: seq<MaterialItem>, ls: seq<LaborItem>, t: L.Labels)
    ensures MaterialsTable(ms, t) in AddMaterials([], ms, t) <==> |ms| > 0
    ensures LaborTable(ls, t) !in AddMaterials([], ms, t)
    ensures MaterialsTable(ms, t) !in AddLabor([], ls, t)
    ensures LaborTable(ls, t) in AddLabor([], ls, t) <==> |ls| > 0
  {
    ItemTablesDiffer(ms, ls, t);
  }

  /** The materials table is in the document exactly when there are material
      lines, and likewise the labor table. */
  lemma TablesPresent(p: ProjectInfo, ws: seq<WorkerInfo>, ms: seq<MaterialItem>, ls: seq<LaborItem>,
                      d: DietInfo, t: L.Labels)
    ensures MaterialsTable(ms, t) in Sections(p, ws, ms, ls, d, t) <==> |ms| > 0
    ensures LaborTable(ls, t) in Sections(p, ws, ms, ls, d, t) <==> |ls| > 0
  {
    SectionsSplit(p, ws, ms, ls, d, t);
    InParts(MaterialsTable(ms, t), AddHeader([], p, t), AddWorkers([], ws, t), AddMaterials([], ms, t), AddLabor([], ls, t),
            AddDiets([], d, t), AddGrandTotal([], t, GrandTotal(ms, ls, d)), AddObservations([], p), AddSignature([], p, t));
    InParts(LaborTable(ls, t), AddHeader([], p, t), AddWorkers([], ws, t), AddMaterials([], ms, t), AddLabor([], ls, t),
            AddDiets([], d, t), AddGrandTotal([], t, GrandTotal(ms, ls, d)), AddObservations([], p), AddSignature([], p, t));
    TablesInItemParts(ms, ls, t);
    NoItemTablesElsewhere(p, ws, d, t, GrandTotal(ms, ls, d));
  }

  /** The diets breakdown line is a single plain right-aligned run; no other
      stage contributes such a paragraph. */
  lemma DietLineInPartsFront(p: ProjectInfo, ws: seq<WorkerInfo>, ms: seq<MaterialItem>, ls: seq<LaborItem>,
                             d: DietInfo, t: L.Labels)
    ensures DietLine(d, t) !in AddHeader([], p, t)
    ensures DietLine(d, t) !in AddWorkers([], ws, t)
    ensures DietLine(d, t) !in AddMaterials([], ms, t)
    ensures DietLine(d, t) !in AddLabor([], ls, t)
  {
  }

  lemma DietLineInPartsBack(p: ProjectInfo, ws: seq<WorkerInfo>, ms: seq<MaterialItem>, ls: seq<LaborItem>,
                             d: DietInfo, t: L.Labels)
    ensures DietLine(d, t) in AddDiets([], d, t) <==> HasDiets(d)
    ensures DietLine(d, t) !in AddGrandTotal([], t, GrandTotal(ms, ls, d))
    ensures DietLine(d, t) !in AddObservations([], p)
    ensures DietLine(d, t) !in AddSignature([], p, t)
  {
  }

  /** The diets section (heading, breakdown line and total line) is in the
      document exactly when both the worker count and the day count are positive. */
  lemma DietsPresent(p: ProjectInfo, ws: seq<WorkerInfo>, ms: seq<MaterialItem>, ls: seq<LaborItem>,
                     d: DietInfo, t: L.Labels)
    ensures DietLine(d, t) in Sections(p, ws, ms, ls, d, t) <==> d.workersCount > 0 && d.days > 0
  {
    SectionsSplit(p, ws, ms, ls, d, t);
    InParts(DietLine(d, t), AddHeader([], p, t), AddWorkers([], ws, t), AddMaterials([], ms, t), AddLabor([], ls, t),
            AddDiets([], d, t), AddGrandTotal([], t, GrandTotal(ms, ls, d)), AddObservations([], p), AddSignature([], p, t));
    DietLineInPartsFront(p, ws, ms, ls, d, t);
    DietLineInPartsBack(p, ws, ms, ls, d, t);
  }

  lemma ObservationsHeadInPartsFront(p: ProjectInfo, ws: seq<WorkerInfo>, ms: seq<MaterialItem>, ls: seq<LaborItem>,
                                     d: DietInfo, t: L.Labels)
    ensures ObservationsHeadBlock !in AddHeader([], p, t)
    ensures ObservationsHeadBlock !in AddWorkers([], ws, t)
    ensures ObservationsHeadBlock !in AddMaterials([], ms, t)
    ensures ObservationsHeadBlock !in AddLabor([], ls, t)
  {
  }

  lemma ObservationsHeadInPartsBack(p: ProjectInfo, ws: seq<WorkerInfo>, ms: seq<MaterialItem>, ls: seq<LaborItem>,
                                     d: DietInfo, t: L.Labels)
    ensures ObservationsHeadBlock !in AddDiets([], d, t)
    ensures ObservationsHeadBlock !in AddGrandTotal([], t, GrandTotal(ms, ls, d))
    ensures ObservationsHeadBlock in AddObservations([], p) <==> p.observations != ""
    ensures ObservationsHeadBlock !in AddSignature([], p, t)
  {
  }

  lemma ObservationsTextInPartsFront(p: ProjectInfo, ws: seq<WorkerInfo>, ms: seq<MaterialItem>, ls: seq<LaborItem>,
                                     d: DietInfo, t: L.Labels)
    ensures ObservationsTextBlock(p) !in AddHeader([], p, t)
    ensures ObservationsTextBlock(p) !in AddWorkers([], ws, t)
    ensures ObservationsTextBlock(p) !in AddMaterials([], ms, t)
    ensures ObservationsTextBlock(p) !in AddLabor([], ls, t)
  {
  }

  lemma ObservationsTextInPartsBack(p: ProjectInfo, ws: seq<WorkerInfo>, ms: seq<MaterialItem>, ls: seq<LaborItem>,
                                     d: DietInfo, t: L.Labels)
    ensures ObservationsTextBlock(p) !in AddDiets([], d, t)
    ensures ObservationsTextBlock(p) !in AddGrandTotal([], t, GrandTotal(ms, ls, d))
    ensures ObservationsTextBlock(p) in AddObservations([], p) <==> p.observations != ""
    ensures ObservationsTextBlock(p) !in AddSignature([], p, t)
  {
  }

  /** The observations heading and text are in the document exactly when the
      observations are not the empty string. */
  lemma ObservationsPresent(p: ProjectInfo, ws: seq<WorkerInfo>, ms: seq<MaterialItem>, ls: seq<LaborItem>,
                            d: DietInfo, t: L.Labels)
    ensures ObservationsHeadBlock in Sections(p, ws, ms, ls, d, t) <==> p.observations != ""
    ensures ObservationsTextBlock(p) in Sections(p, ws, ms, ls, d, t) <==> p.observations != ""
  {
    SectionsSplit(p, ws, ms, ls, d, t);
    InParts(ObservationsHeadBlock, AddHeader([], p, t), AddWorkers([], ws, t), AddMaterials([], ms, t),
            AddLabor([], ls, t), AddDiets([], d, t), AddGrandTotal([], t, GrandTotal(ms, ls, d)), AddObservations([], p),
            AddSignature([], p, t));
    InParts(ObservationsTextBlock(p), AddHeader([], p, t), AddWorkers([], ws, t), AddMaterials([], ms, t),
            AddLabor([], ls, t), AddDiets([], d, t), AddGrandTotal([], t, GrandTotal(ms, ls, d)), AddObservations([], p),
            AddSignature([], p, t));
    ObservationsHeadInPartsFront(p, ws, ms, ls, d, t);
    ObservationsHeadInPartsBack(p, ws, ms, ls, d, t);
    ObservationsTextInPartsFront(p, ws, ms, ls, d, t);
    ObservationsTextInPartsBack(p, ws, ms, ls, d, t);
  }

  /** Neither the beneficiary value nor the main-worker value is ever empty: both
      fall back to the placeholder. */
  lemma LabelValuesNonEmpty(p: ProjectInfo, ws: seq<WorkerInfo>)
    ensures OrPlaceholder(p.beneficiary) != "" && MainWorkerText(ws) != ""
  {
  }

  /** A label line is determined by its caption, its value and its alignment. */
  lemma LabelLineInjective(c1: string, v1: Text, a1: Align, c2: string, v2: Text, a2: Align)
    ensures LabelLine(c1, v1, a1) == LabelLine(c2, v2, a2) ==> c1 == c2 && v1 == v2 && a1 == a2
  {
    if LabelLine(c1, v1, a1) == LabelLine(c2, v2, a2) {
      var r1, r2 := LabelLine(c1, v1, a1).para.runs, LabelLine(c2, v2, a2).para.runs;
      assert r1[0] == r2[0] && r1[1] == r2[1];
      assert c1 + " " == c2 + " " by {
        assert r1[0].text[0].s == r2[0].text[0].s;
      }
      assert c1 == (c1 + " ")[..|c1|] && c2 == (c2 + " ")[..|c2|];
    }
  }

  lemma OtherWorkersInLabelParts(p: ProjectInfo, ws: seq<WorkerInfo>, t: L.Labels, x: string)
    requires t.otherWorkers != t.beneficiary && t.otherWorkers != t.mainWorker
    ensures OtherWorkersBlock(x, t) !in AddHeader([], p, t)
    ensures OtherWorkersBlock(x, t) in AddWorkers([], ws, t) <==> x == OtherWorkersText(ws) && x != ""
  {
    var o := OtherWorkersText(ws);
    LabelLineInjective(t.otherWorkers, Str(x), Left, t.beneficiary, Str(OrPlaceholder(p.beneficiary)), Left);
    LabelLineInjective(t.otherWorkers, Str(x), Left, t.mainWorker, Str(MainWorkerText(ws)), Left);
    LabelLineInjective(t.otherWorkers, Str(x), Left, t.otherWorkers, Str(o), Left);
    if o == "" {
      assert AddWorkers([], ws, t) == [MainWorkerBlock(ws, t)];
    } else {
      assert AddWorkers([], ws, t) == [MainWorkerBlock(ws, t), OtherWorkersBlock(o, t)];
    }
  }

  lemma OtherWorkersInLaterParts(p: ProjectInfo, ms: seq<MaterialItem>, ls: seq<LaborItem>,
                                 d: DietInfo, t: L.Labels, x: string)
    ensures OtherWorkersBlock(x, t) !in AddMaterials([], ms, t)
    ensures OtherWorkersBlock(x, t) !in AddLabor([], ls, t)
    ensures OtherWorkersBlock(x, t) !in AddDiets([], d, t)
    ensures OtherWorkersBlock(x, t) !in AddGrandTotal([], t, GrandTotal(ms, ls, d))
    ensures OtherWorkersBlock(x, t) !in AddObservations([], p)
    ensures OtherWorkersBlock(x, t) !in AddSignature([], p, t)
  {
  }

  /** With a label table whose other-workers caption differs from the
      beneficiary and main-worker captions, an other-workers line with text `x`
      is in the document exactly when `x` is the joined names of the workers who
      are not "Principal" and those are not the empty string: no other-workers
      line of any text appears when the joined names are empty. */
  lemma OtherWorkersPresent(p: ProjectInfo, ws: seq<WorkerInfo>, ms: seq<MaterialItem>, ls: seq<LaborItem>,
                            d: DietInfo, t: L.Labels, x: string)
    requires t.otherWorkers != t.beneficiary && t.otherWorkers != t.mainWorker
    ensures OtherWorkersBlock(x, t) in Sections(p, ws, ms, ls, d, t) <==> x == OtherWorkersText(ws) && x != ""
  {
    var b := OtherWorkersBlock(x, t);
    SectionsSplit(p, ws, ms, ls, d, t);
    InParts(b, AddHeader([], p, t), AddWorkers([], ws, t), AddMaterials([], ms, t), AddLabor([], ls, t),
            AddDiets([], d, t), AddGrandTotal([], t, GrandTotal(ms, ls, d)), AddObservations([], p), AddSignature([], p, t));
    OtherWorkersInLabelParts(p, ws, t, x);
    OtherWorkersInLaterParts(p, ms, ls, d, t, x);
  }

  /** A total line is determined by its caption and its amount. */
  lemma TotalLineInjective(t: L.Labels, c1: string, a1: int, c2: string, a2: int)
    ensures TotalLine(t, c1, a1) == TotalLine(t, c2, a2) ==> c1 == c2 && a1 == a2
  {
    var v1, v2 := Amount(a1) + Str(" " + t.currency), Amount(a2) + Str(" " + t.currency);
    LabelLineInjective(c1, v1, Right, c2, v2, Right);
    if TotalLine(t, c1, a1) == TotalLine(t, c2, a2) {
      assert v1[1] == v2[1];
    }
  }

  lemma TotalLinesInFixedParts(p: ProjectInfo, ws: seq<WorkerInfo>, t: L.Labels, grand: int, c: string, a: int)
    ensures TotalLine(t, c, a) !in AddHeader([], p, t) && TotalLine(t, c, a) !in AddWorkers([], ws, t)
    ensures TotalLine(t, c, a) !in AddGrandTotal([], t, grand)
    ensures TotalLine(t, c, a) !in AddObservations([], p) && TotalLine(t, c, a) !in AddSignature([], p, t)
  {
  }

  lemma TotalLinesInSectionParts(ms: seq<MaterialItem>, ls: seq<LaborItem>, d: DietInfo, t: L.Labels, c: string, a: int)
    ensures TotalLine(t, c, a) in AddMaterials([], ms, t) <==> |ms| > 0 && c == t.materialsTotal && a == MaterialsTotal(ms)
    ensures TotalLine(t, c, a) in AddLabor([], ls, t) <==> |ls| > 0 && c == t.laborTotal && a == LaborTotal(ls)
    ensures TotalLine(t, c, a) in AddDiets([], d, t) <==> HasDiets(d) && c == t.dietsTotal && a == DietTotal(d)
  {
    TotalLineInjective(t, c, a, t.materialsTotal, MaterialsTotal(ms));
    TotalLineInjective(t, c, a, t.laborTotal, LaborTotal(ls));
    TotalLineInjective(t, c, a, t.dietsTotal, DietTotal(d));
  }

  /** The right-aligned total lines of the document are exactly those of the
      sections that are present, each with its own caption and its section's total. */
  lemma TotalLinesPresent(p: ProjectInfo, ws: seq<WorkerInfo>, ms: seq<MaterialItem>, ls: seq<LaborItem>,
                          d: DietInfo, t: L.Labels, c: string, a: int)
    ensures TotalLine(t, c, a) in Sections(p, ws, ms, ls, d, t) <==>
      || (|ms| > 0 && c == t.materialsTotal && a == MaterialsTotal(ms))
      || (|ls| > 0 && c == t.laborTotal && a == LaborTotal(ls))
      || (HasDiets(d) && c == t.dietsTotal && a == DietTotal(d))
  {
    SectionsSplit(p, ws, ms, ls, d, t);
    InParts(TotalLine(t, c, a), AddHeader([], p, t), AddWorkers([], ws, t), AddMaterials([], ms, t),
            AddLabor([], ls, t), AddDiets([], d, t), AddGrandTotal([], t, GrandTotal(ms, ls, d)), AddObservations([], p),
            AddSignature([], p, t));
    TotalLinesInFixedParts(p, ws, t, GrandTotal(ms, ls, d), c, a);
    TotalLinesInSectionParts(ms, ls, d, t, c, a);
  }

  // -------------------------------------------------------------- layout

  /** The number of blocks each stage contributes. */
  lemma PartLengths(p: ProjectInfo, ws: seq<WorkerInfo>, ms: seq<MaterialItem>, ls: seq<LaborItem>,
                    d: DietInfo, t: L.Labels)
    ensures |AddHeader([], p, t)| == 3
    ensures |AddWorkers([], ws, t)| == if OtherWorkersText(ws) != "" then 2 else 1
    ensures |AddMaterials([], ms, t)| == if |ms| > 0 then 3 else 0
    ensures |AddLabor([], ls, t)| == if |ls| > 0 then 3 else 0
    ensures |AddDiets([], d, t)| == if HasDiets(d) then 3 else 0
    ensures |AddObservations([], p)| == if p.observations != "" then 2 else 0
  {
  }

  /** The two stages that always contribute the same blocks. */
  lemma FixedParts(p: ProjectInfo, t: L.Labels, grand: int)
    ensures AddGrandTotal([], t, grand) == [SeparatorBlock, GrandTotalBlock(t, grand)]
    ensures AddSignature([], p, t) == [SignatureTable(p, t)]
    ensures |AddObservations([], p)| == if p.observations != "" then 2 else 0
  {
  }

  lemma HeaderPositions(p: ProjectInfo, ws: seq<WorkerInfo>, t: L.Labels)
    ensures (AddHeader([], p, t) + AddWorkers([], ws, t))[..4]
         == [TitleBlock(t), ProjectNameBlock(p), BeneficiaryBlock(p, t), MainWorkerBlock(ws, t)]
  {
  }

  /** In `pre + [a, b] + post`, the pair sits at `|pre|`; when `b` differs from
      `a` and occurs nowhere else, every occurrence of `b` is that one. */
  lemma Around<T>(pre: seq<T>, a: T, b: T, post: seq<T>)
    ensures (pre + [a, b] + post)[|pre|] == a && (pre + [a, b] + post)[|pre| + 1] == b
    ensures a != b && b !in pre && b !in post ==>
      forall i :: 0 <= i < |pre + [a, b] + post| && (pre + [a, b] + post)[i] == b ==> i == |pre| + 1
  {
    var s := pre + [a, b] + post;
    assert forall i :: 0 <= i < |pre| ==> s[i] == pre[i];
    assert forall i :: |pre| + 2 <= i < |s| ==> s[i] == post[i - |pre| - 2];
  }

  /** The frame of an eight-part concatenation whose sixth part is the pair
      `[sep, gt]` and whose last part is `[sig]`. */
  lemma FramePositions<T>(a1: seq<T>, a2: seq<T>, a3: seq<T>, a4: seq<T>, a5: seq<T>, a6: seq<T>, a7: seq<T>,
                          a8: seq<T>, sep: T, gt: T, sig: T)
    requires a6 == [sep, gt] && a8 == [sig] && |a1 + a2| >= 4
    ensures var doc := a1 + a2 + a3 + a4 + a5 + a6 + a7 + a8;
      var k := |a1| + |a2| + |a3| + |a4| + |a5|;
      && |doc| == k + 3 + |a7|
      && doc[..4] == (a1 + a2)[..4]
      && doc[k] == sep && doc[k + 1] == gt
      && doc[|doc| - 1] == sig
  {
    var pre := a1 + a2 + a3 + a4 + a5;
    var doc := a1 + a2 + a3 + a4 + a5 + a6 + a7 + a8;
    assert doc == pre + [sep, gt] + (a7 + a8);
    assert pre == (a1 + a2) + (a3 + a4 + a5);
    assert doc[..4] == pre[..4];
    Around(pre, sep, gt, a7 + a8);
  }

  /** When `gt` occurs in no other part, its one occurrence is right after `sep`. */
  lemma FrameUnique<T>(a1: seq<T>, a2: seq<T>, a3: seq<T>, a4: seq<T>, a5: seq<T>, a6: seq<T>, a7: seq<T>,
                       a8: seq<T>, sep: T, gt: T)
    requires a6 == [sep, gt] && sep != gt
    requires gt !in a1 && gt !in a2 && gt !in a3 && gt !in a4 && gt !in a5 && gt !in a7 && gt !in a8
    ensures var doc := a1 + a2 + a3 + a4 + a5 + a6 + a7 + a8;
      forall i :: 0 <= i < |doc| && doc[i] == gt ==> 0 < i && doc[i - 1] == sep
  {
    var pre := a1 + a2 + a3 + a4 + a5;
    var doc := a1 + a2 + a3 + a4 + a5 + a6 + a7 + a8;
    assert doc == pre + [sep, gt] + (a7 + a8);
    Around(pre, sep, gt, a7 + a8);
  }

  lemma GrandTotalInPartsFront(p: ProjectInfo, ws: seq<WorkerInfo>, ms: seq<MaterialItem>, ls: seq<LaborItem>,
                            d: DietInfo, t: L.Labels, grand: int)
    ensures GrandTotalBlock(t, grand) !in AddHeader([], p, t)
    ensures GrandTotalBlock(t, grand) !in AddWorkers([], ws, t)
    ensures GrandTotalBlock(t, grand) !in AddMaterials([], ms, t)
    ensures GrandTotalBlock(t, grand) !in AddLabor([], ls, t)
  {
  }

  lemma GrandTotalInPartsBack(p: ProjectInfo, ws: seq<WorkerInfo>, ms: seq<MaterialItem>, ls: seq<LaborItem>,
                            d: DietInfo, t: L.Labels, grand: int)
    ensures GrandTotalBlock(t, grand) !in AddDiets([], d, t)
    ensures GrandTotalBlock(t, grand) !in AddObservations([], p)
    ensures GrandTotalBlock(t, grand) !in AddSignature([], p, t)
    ensures GrandTotalBlock(t, grand) != SeparatorBlock
  {
  }

  /** Where the separator stands: after the four opening lines, the other-workers
      line if any, and the three blocks of each section that is present. */
  function SeparatorIndex(ws: seq<WorkerInfo>, ms: seq<MaterialItem>, ls: seq<LaborItem>, d: DietInfo): nat
  {
    4 + (if OtherWorkersText(ws) != "" then 1 else 0) + (if |ms| > 0 then 3 else 0) + (if |ls| > 0 then 3 else 0)
      + (if HasDiets(d) then 3 else 0)
  }

  /** The five stages before the separator contribute `SeparatorIndex` blocks. */
  lemma PrefixLength(p: ProjectInfo, ws: seq<WorkerInfo>, ms: seq<MaterialItem>, ls: seq<LaborItem>,
                     d: DietInfo, t: L.Labels)
    ensures |AddHeader([], p, t)| + |AddWorkers([], ws, t)| + |AddMaterials([], ms, t)| + |AddLabor([], ls, t)|
          + |AddDiets([], d, t)| == SeparatorIndex(ws, ms, ls, d)
  {
    PartLengths(p, ws, ms, ls, d, t);
  }

  /** In `pre + [sep, gt] + c + e` the pair sits right after `pre`. */
  lemma PairAfter<T>(pre: seq<T>, pair: seq<T>, c: seq<T>, e: seq<T>, sep: T, gt: T)
    requires pair == [sep, gt]
    ensures var doc := pre + pair + c + e;
      |doc| == |pre| + 2 + |c| + |e| && doc[|pre|] == sep && doc[|pre| + 1] == gt
  {
    var doc := pre + pair + c + e;
    assert doc == pre + (pair + c + e);
  }

  /** The fixed frame of the document: the separator and then the grand total
      follow the opening lines and the optional sections, and the observations,
      when present, take two blocks before the last one. */
  lemma Layout(p: ProjectInfo, ws: seq<WorkerInfo>, ms: seq<MaterialItem>, ls: seq<LaborItem>,
               d: DietInfo, t: L.Labels)
    ensures var doc := Sections(p, ws, ms, ls, d, t);
      var k := SeparatorIndex(ws, ms, ls, d);
      && |doc| == k + 3 + (if p.observations != "" then 2 else 0)
      && doc[k] == SeparatorBlock
      && doc[k + 1] == GrandTotalBlock(t, GrandTotal(ms, ls, d))
  {
    var g := GrandTotal(ms, ls, d);
    var pre := AddHeader([], p, t) + AddWorkers([], ws, t) + AddMaterials([], ms, t) + AddLabor([], ls, t)
               + AddDiets([], d, t);
    SectionsSplit(p, ws, ms, ls, d, t);
    PrefixLength(p, ws, ms, ls, d, t);
    FixedParts(p, t, g);
    PairAfter(pre, AddGrandTotal([], t, g), AddObservations([], p), AddSignature([], p, t),
              SeparatorBlock, GrandTotalBlock(t, g));
  }

  /** The signature table closes the document. */
  lemma SignatureLast(p: ProjectInfo, ws: seq<WorkerInfo>, ms: seq<MaterialItem>, ls: seq<LaborItem>,
                      d: DietInfo, t: L.Labels)
    ensures var doc := Sections(p, ws, ms, ls, d, t);
      |doc| > 0 && doc[|doc| - 1] == SignatureTable(p, t)
  {
    var g := GrandTotal(ms, ls, d);
    SectionsSplit(p, ws, ms, ls, d, t);
    PartLengths(p, ws, ms, ls, d, t);
    FixedParts(p, t, g);
    FramePositions(AddHeader([], p, t), AddWorkers([], ws, t), AddMaterials([], ms, t), AddLabor([], ls, t),
                   AddDiets([], d, t), AddGrandTotal([], t, g), AddObservations([], p), AddSignature([], p, t),
                   SeparatorBlock, GrandTotalBlock(t, g), SignatureTable(p, t));
  }

  /** The document opens with the title, the project name, the beneficiary line
      and the main-worker line. */
  lemma Opening(p: ProjectInfo, ws: seq<WorkerInfo>, ms: seq<MaterialItem>, ls: seq<LaborItem>,
                d: DietInfo, t: L.Labels)
    ensures Sections(p, ws, ms, ls, d, t)[..4]
         == [TitleBlock(t), ProjectNameBlock(p), BeneficiaryBlock(p, t), MainWorkerBlock(ws, t)]
  {
    var g := GrandTotal(ms, ls, d);
    SectionsSplit(p, ws, ms, ls, d, t);
    PartLengths(p, ws, ms, ls, d, t);
    FixedParts(p, t, g);
    HeaderPositions(p, ws, t);
    FramePositions(AddHeader([], p, t), AddWorkers([], ws, t), AddMaterials([], ms, t), AddLabor([], ls, t),
                   AddDiets([], d, t), AddGrandTotal([], t, g), AddObservations([], p), AddSignature([], p, t),
                   SeparatorBlock, GrandTotalBlock(t, g), SignatureTable(p, t));
  }

  /** Every occurrence of the grand-total line is immediately preceded by the separator. */
  lemma GrandTotalAfterSeparator(p: ProjectInfo, ws: seq<WorkerInfo>, ms: seq<MaterialItem>, ls: seq<LaborItem>,
                                 d: DietInfo, t: L.Labels)
    ensures var doc := Sections(p, ws, ms, ls, d, t);
      forall i :: 0 <= i < |doc| && doc[i] == GrandTotalBlock(t, GrandTotal(ms, ls, d)) ==> 0 < i && doc[i - 1] == SeparatorBlock
  {
    var g := GrandTotal(ms, ls, d);
    SectionsSplit(p, ws, ms, ls, d, t);
    GrandTotalInPartsFront(p, ws, ms, ls, d, t, g);
    GrandTotalInPartsBack(p, ws, ms, ls, d, t, g);
    FrameUnique(AddHeader([], p, t), AddWorkers([], ws, t), AddMaterials([], ms, t), AddLabor([], ls, t),
                AddDiets([], d, t), AddGrandTotal([], t, g), AddObservations([], p), AddSignature([], p, t),
                SeparatorBlock, GrandTotalBlock(t, g));
  }

  // ------------------------------------------------------ per language

  /** In either language the three section headings are told apart, so each
      heading is in the document exactly when its section is. */
  lemma DocumentHeadings(p: ProjectInfo, ws: seq<WorkerInfo>, ms: seq<MaterialItem>, ls: seq<LaborItem>,
                         d: DietInfo, lang: Language)
    ensures var doc := Document(p, ws, ms, ls, d, lang);
      var t := L.Translations(lang);
      && (SectionHeading(t.materials) in doc <==> |ms| > 0)
      && (SectionHeading(t.labor) in doc <==> |ls| > 0)
      && (SectionHeading(t.diets) in doc <==> d.workersCount > 0 && d.days > 0)
  {
    var t := L.Translations(lang);
    L.LabelsDistinct(lang);
    HeadingsPresent(p, ws, ms, ls, d, t, t.materials);
    HeadingsPresent(p, ws, ms, ls, d, t, t.labor);
    HeadingsPresent(p, ws, ms, ls, d, t, t.diets);
  }

  /** In either language an other-workers line with text `x` is in the document
      exactly when `x` is the joined helper names and those are not empty. */
  lemma DocumentOtherWorkers(p: ProjectInfo, ws: seq<WorkerInfo>, ms: seq<MaterialItem>, ls: seq<LaborItem>,
                             d: DietInfo, lang: Language, x: string)
    ensures OtherWorkersBlock(x, L.Translations(lang)) in Document(p, ws, ms, ls, d, lang)
        <==> x == OtherWorkersText(ws) && x != ""
  {
    L.LabelsDistinct(lang);
    OtherWorkersPresent(p, ws, ms, ls, d, L.Translations(lang), x);
  }

  /** In either language each section's total line is in the document exactly
      when its section is. */
  lemma DocumentTotalLines(p: ProjectInfo, ws: seq<WorkerInfo>, ms: seq<MaterialItem>, ls: seq<LaborItem>,
                           d: DietInfo, lang: Language)
    ensures var doc := Document(p, ws, ms, ls, d, lang);
      var t := L.Translations(lang);
      && (TotalLine(t, t.materialsTotal, MaterialsTotal(ms)) in doc <==> |ms| > 0)
      && (TotalLine(t, t.laborTotal, LaborTotal(ls)) in doc <==> |ls| > 0)
      && (TotalLine(t, t.dietsTotal, DietTotal(d)) in doc <==> d.workersCount > 0 && d.days > 0)
  {
    var t := L.Translations(lang);
    L.LabelsDistinct(lang);
    TotalLinesPresent(p, ws, ms, ls, d, t, t.materialsTotal, MaterialsTotal(ms));
    TotalLinesPresent(p, ws, ms, ls, d, t, t.laborTotal, LaborTotal(ls));
    TotalLinesPresent(p, ws, ms, ls, d, t, t.dietsTotal, DietTotal(d));
  }
}
