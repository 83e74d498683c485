/** The budget form: the lists it holds, the handlers that add, remove and
    update their items, the inline worker-name edit, and the running totals it
    shows. Ids and today's date are given by the caller. */
module BudgetForm {
  import opened BudgetTypes
  import opened Totals
  import opened ListEdits
  import opened DocumentGenerator
  import opened DocumentContent

  // ------------------------------------------------------------ new items

  /** A fresh material line: empty description, no quantity, the default unit, no price. */
  function NewMaterial(id: string): MaterialItem
  {
    MaterialItem(id, "", 0, DefaultUnit, 0)
  }

  function NewLabor(id: string): LaborItem
  {
    LaborItem(id, "", 0)
  }

  const Helper: string := "Ayudante"

  /** A fresh worker: no name, the helper role. */
  function NewWorker(id: string): WorkerInfo
  {
    WorkerInfo(id, "", Helper)
  }

  /** The two workers the form starts with: an unnamed principal and an unnamed helper. */
  const InitialWorkers: seq<WorkerInfo> := [WorkerInfo("1", "", Principal), WorkerInfo("2", "", Helper)]

  function MaterialId(m: MaterialItem): string
  {
    m.id
  }

  function LaborId(l: LaborItem): string
  {
    l.id
  }

  function WorkerId(w: WorkerInfo): string
  {
    w.id
  }

  // ---------------------------------------------------------------- edits

  /** One field of a material line and the value written into it. */
  datatype MaterialEdit =
    | SetMaterialId(id: string)
    | SetDescription(description: string)
    | SetQuantity(quantity: int)
    | SetUnit(unit: string)
    | SetUnitPrice(unitPrice: int)

  /** `{ ...m, [field]: value }`. */
  function EditMaterial(m: MaterialItem, e: MaterialEdit): MaterialItem
  {
    match e
    case SetMaterialId(v) => m.(id := v)
    case SetDescription(v) => m.(description := v)
    case SetQuantity(v) => m.(quantity := v)
    case SetUnit(v) => m.(unit := v)
    case SetUnitPrice(v) => m.(unitPrice := v)
  }

  datatype LaborEdit =
    | SetLaborId(id: string)
    | SetLaborDescription(description: string)
    | SetCost(cost: int)

  function EditLabor(l: LaborItem, e: LaborEdit): LaborItem
  {
    match e
    case SetLaborId(v) => l.(id := v)
    case SetLaborDescription(v) => l.(description := v)
    case SetCost(v) => l.(cost := v)
  }

  /** An edit of a material line changes the field it names and no other. */
  lemma EditMaterialOneField(m: MaterialItem, e: MaterialEdit)
    ensures var r := EditMaterial(m, e);
      && (r.id == if e.SetMaterialId? then e.id else m.id)
      && (r.description == if e.SetDescription? then e.description else m.description)
      && (r.quantity == if e.SetQuantity? then e.quantity else m.quantity)
      && (r.unit == if e.SetUnit? then e.unit else m.unit)
      && (r.unitPrice == if e.SetUnitPrice? then e.unitPrice else m.unitPrice)
  {
  }

  /** An edit of a labor line changes the field it names and no other. */
  lemma EditLaborOneField(l: LaborItem, e: LaborEdit)
    ensures var r := EditLabor(l, e);
      && (r.id == if e.SetLaborId? then e.id else l.id)
      && (r.description == if e.SetLaborDescription? then e.description else l.description)
      && (r.cost == if e.SetCost? then e.cost else l.cost)
  {
  }

  // --------------------------------------------------------- list handlers

  function AddedMaterials(ms: seq<MaterialItem>, id: string): seq<MaterialItem>
  {
    ms + [NewMaterial(id)]
  }

  /** The list without the lines of that id, unless it has one line or none. */
  function RemovedMaterials(ms: seq<MaterialItem>, id: string): seq<MaterialItem>
  {
    if |ms| > 1 then Without(ms, MaterialId, id) else ms
  }

  function UpdatedMaterials(ms: seq<MaterialItem>, id: string, e: MaterialEdit): seq<MaterialItem>
  {
    UpdateWhere(ms, MaterialId, id, (m: MaterialItem) => EditMaterial(m, e))
  }

  function AddedLabor(ls: seq<LaborItem>, id: string): seq<LaborItem>
  {
    ls + [NewLabor(id)]
  }

  function RemovedLabor(ls: seq<LaborItem>, id: string): seq<LaborItem>
  {
    if |ls| > 1 then Without(ls, LaborId, id) else ls
  }

  function UpdatedLabor(ls: seq<LaborItem>, id: string, e: LaborEdit): seq<LaborItem>
  {
    UpdateWhere(ls, LaborId, id, (l: LaborItem) => EditLabor(l, e))
  }

  function AddedWorkers(ws: seq<WorkerInfo>, id: string): seq<WorkerInfo>
  {
    ws + [NewWorker(id)]
  }

  /** The list without the workers of that id; no length guard. */
  function RemovedWorkers(ws: seq<WorkerInfo>, id: string): seq<WorkerInfo>
  {
    Without(ws, WorkerId, id)
  }

  /** The worker at `index` with the new name. */
  function RenamedWorkers(ws: seq<WorkerInfo>, index: nat, name: string): seq<WorkerInfo>
    requires index < |ws|
  {
    ws[index := ws[index].(name := name)]
  }

  // ------------------------------------------------------------ the form

  class Form {
    var project: ProjectInfo
    var workers: seq<WorkerInfo>
    var materials: seq<MaterialItem>
    var labor: seq<LaborItem>
    var diet: DietInfo

    /** The opening state: empty texts, today's date as the approval date, the
        two initial workers, one fresh material line, one fresh labor line and no diets. */
    constructor(today: string, materialId: string, laborId: string)
      ensures project == ProjectInfo("", "", "", today, "")
      ensures workers == InitialWorkers
      ensures materials == [NewMaterial(materialId)] && labor == [NewLabor(laborId)]
      ensures diet == DietInfo(0, 0, 0)
    {
      project := ProjectInfo("", "", "", today, "");
      workers := InitialWorkers;
      materials := [NewMaterial(materialId)];
      labor := [NewLabor(laborId)];
      diet := DietInfo(0, 0, 0);
    }

    /** The totals shown beside the form; they are the generator's totals of the same lists. */
    function Totals(): (r: BudgetTotals)
      reads this
      ensures r == ComputeTotals(materials, labor, diet)
    {
      var materialsTotal := Reduce(materials, (m: MaterialItem) => m.quantity * m.unitPrice, 0);
      var laborTotal := Reduce(labor, (l: LaborItem) => l.cost, 0);
      var dietTotal := diet.workersCount * diet.days * diet.costPerDay;
      ReduceSame(materials, (m: MaterialItem) => m.quantity * m.unitPrice, LineTotal, 0);
      ReduceSame(labor, (l: LaborItem) => l.cost, Cost, 0);
      BudgetTotals(materialsTotal, laborTotal, dietTotal, materialsTotal + laborTotal + dietTotal)
    }

    method AddMaterial(id: string)
      modifies this`materials
      ensures materials == AddedMaterials(old(materials), id)
    {
      materials := materials + [NewMaterial(id)];
    }

    method RemoveMaterial(id: string)
      modifies this`materials
      ensures materials == RemovedMaterials(old(materials), id)
    {
      if |materials| > 1 {
        materials := Without(materials, MaterialId, id);
      }
    }

    method UpdateMaterial(id: string, e: MaterialEdit)
      modifies this`materials
      ensures materials == UpdatedMaterials(old(materials), id, e)
    {
      materials := UpdateWhere(materials, MaterialId, id, (m: MaterialItem) => EditMaterial(m, e));
    }

    method AddLabor(id: string)
      modifies this`labor
      ensures labor == AddedLabor(old(labor), id)
    {
      labor := labor + [NewLabor(id)];
    }

    method RemoveLabor(id: string)
      modifies this`labor
      ensures labor == RemovedLabor(old(labor), id)
    {
      if |labor| > 1 {
        labor := Without(labor, LaborId, id);
      }
    }

    method UpdateLabor(id: string, e: LaborEdit)
      modifies this`labor
      ensures labor == UpdatedLabor(old(labor), id, e)
    {
      labor := UpdateWhere(labor, LaborId, id, (l: LaborItem) => EditLabor(l, e));
    }

    method AddWorker(id: string)
      modifies this`workers
      ensures workers == AddedWorkers(old(workers), id)
    {
      workers := workers + [NewWorker(id)];
    }

    method RemoveWorker(id: string)
      modifies this`workers
      ensures workers == RemovedWorkers(old(workers), id)
    {
      workers := Without(workers, WorkerId, id);
    }

    /** The name input of the worker in row `index`. */
    method RenameWorker(index: nat, name: string)
      requires index < |workers|
      modifies this`workers
      ensures workers == RenamedWorkers(old(workers), index, name)
    {
      var newWorkers := workers;
      newWorkers := newWorkers[index := newWorkers[index].(name := name)];
      workers := newWorkers;
    }
  }

  /** Two item functions that agree everywhere give the same fold. */
  lemma {:induction false} ReduceSame<T>(xs: seq<T>, f: T -> int, g: T -> int, acc: int)
    requires forall x :: f(x) == g(x)
    ensures Reduce(xs, f, acc) == Reduce(xs, g, acc)
    decreases |xs|
  {
    if |xs| > 0 {
      ReduceSame(xs[1..], f, g, acc + f(xs[0]));
    }
  }

  // ----------------------------------------------------------- properties

  /** Adding a line appends exactly one fresh item and keeps the others in place. */
  lemma AddedItems(ms: seq<MaterialItem>, ls: seq<LaborItem>, ws: seq<WorkerInfo>, id: string)
    ensures |AddedMaterials(ms, id)| == |ms| + 1 && AddedMaterials(ms, id)[..|ms|] == ms
    ensures AddedMaterials(ms, id)[|ms|] == MaterialItem(id, "", 0, "unidad", 0)
    ensures |AddedLabor(ls, id)| == |ls| + 1 && AddedLabor(ls, id)[..|ls|] == ls
    ensures AddedLabor(ls, id)[|ls|] == LaborItem(id, "", 0)
    ensures |AddedWorkers(ws, id)| == |ws| + 1 && AddedWorkers(ws, id)[..|ws|] == ws
    ensures AddedWorkers(ws, id)[|ws|] == WorkerInfo(id, "", "Ayudante")
  {
  }

  /** A fresh line is worth nothing: adding one leaves the totals as they were. */
  lemma AddKeepsTotals(ms: seq<MaterialItem>, ls: seq<LaborItem>, id: string)
    ensures MaterialsTotal(AddedMaterials(ms, id)) == MaterialsTotal(ms)
    ensures LaborTotal(AddedLabor(ls, id)) == LaborTotal(ls)
  {
    ReduceIsSum(ms, LineTotal, 0);
    ReduceIsSum(AddedMaterials(ms, id), LineTotal, 0);
    SumAppend(ms, [NewMaterial(id)], LineTotal);
    ReduceIsSum(ls, Cost, 0);
    ReduceIsSum(AddedLabor(ls, id), Cost, 0);
    SumAppend(ls, [NewLabor(id)], Cost);
  }

  /** With more than one line, removal drops exactly the lines of that id and
      keeps every other line; with one line or none the list is unchanged. */
  lemma RemoveMaterialSpec(ms: seq<MaterialItem>, id: string)
    ensures |ms| <= 1 ==> RemovedMaterials(ms, id) == ms
    ensures |ms| > 1 ==>
      && |RemovedMaterials(ms, id)| == |ms| - Count(ms, MaterialId, id)
      && (forall i :: 0 <= i < |RemovedMaterials(ms, id)| ==> RemovedMaterials(ms, id)[i].id != id)
      && (forall i :: 0 <= i < |ms| && ms[i].id != id ==> ms[i] in RemovedMaterials(ms, id))
  {
  }

  /** The same law for labor lines. */
  lemma RemoveLaborSpec(ls: seq<LaborItem>, id: string)
    ensures |ls| <= 1 ==> RemovedLabor(ls, id) == ls
    ensures |ls| > 1 ==>
      && |RemovedLabor(ls, id)| == |ls| - Count(ls, LaborId, id)
      && (forall i :: 0 <= i < |RemovedLabor(ls, id)| ==> RemovedLabor(ls, id)[i].id != id)
      && (forall i :: 0 <= i < |ls| && ls[i].id != id ==> ls[i] in RemovedLabor(ls, id))
  {
  }

  /** With unique ids a non-empty material or labor list never becomes empty by removal. */
  lemma RemoveKeepsOneLine(ms: seq<MaterialItem>, ls: seq<LaborItem>, id: string)
    requires UniqueIds(ms, MaterialId) && |ms| >= 1
    requires UniqueIds(ls, LaborId) && |ls| >= 1
    ensures |RemovedMaterials(ms, id)| >= 1 && |RemovedLabor(ls, id)| >= 1
  {
    CountUnique(ms, MaterialId, id);
    CountUnique(ls, LaborId, id);
  }

  /** The guard counts lines, not ids: two lines sharing an id are both removed at once. */
  lemma DuplicateIdsEmptyList()
    ensures var ms := [MaterialItem("x", "a", 1, "kg", 100), MaterialItem("x", "b", 2, "m", 200)];
      RemovedMaterials(ms, "x") == []
  {
    var ms := [MaterialItem("x", "a", 1, "kg", 100), MaterialItem("x", "b", 2, "m", 200)];
    assert ms[1..][1..] == [];
  }

  /** Removing workers has no guard: the last worker can be removed. */
  lemma RemoveLastWorker(w: WorkerInfo)
    ensures RemovedWorkers([w], w.id) == []
  {
    assert [w][1..] == [];
  }

  /** Removal lowers the materials total by the line totals of the removed lines. */
  lemma RemoveMaterialTotal(ms: seq<MaterialItem>, id: string)
    requires |ms| > 1
    ensures MaterialsTotal(RemovedMaterials(ms, id)) == MaterialsTotal(ms) - Sum(Only(ms, MaterialId, id), LineTotal)
  {
    ReduceIsSum(ms, LineTotal, 0);
    ReduceIsSum(Without(ms, MaterialId, id), LineTotal, 0);
    SumSplit(ms, MaterialId, id, LineTotal);
  }

  /** Removal lowers the labor total by the costs of the removed lines. */
  lemma RemoveLaborTotal(ls: seq<LaborItem>, id: string)
    requires |ls| > 1
    ensures LaborTotal(RemovedLabor(ls, id)) == LaborTotal(ls) - Sum(Only(ls, LaborId, id), Cost)
  {
    ReduceIsSum(ls, Cost, 0);
    ReduceIsSum(Without(ls, LaborId, id), Cost, 0);
    SumSplit(ls, LaborId, id, Cost);
  }

  /** An update keeps the length, and rewrites exactly the lines of that id, each in its place. */
  lemma UpdateMaterialSpec(ms: seq<MaterialItem>, id: string, e: MaterialEdit)
    ensures |UpdatedMaterials(ms, id, e)| == |ms|
    ensures forall i :: 0 <= i < |ms| && ms[i].id != id ==> UpdatedMaterials(ms, id, e)[i] == ms[i]
    ensures forall i :: 0 <= i < |ms| && ms[i].id == id ==> UpdatedMaterials(ms, id, e)[i] == EditMaterial(ms[i], e)
  {
  }

  /** The same law for labor lines. */
  lemma UpdateLaborSpec(ls: seq<LaborItem>, id: string, e: LaborEdit)
    ensures |UpdatedLabor(ls, id, e)| == |ls|
    ensures forall i :: 0 <= i < |ls| && ls[i].id != id ==> UpdatedLabor(ls, id, e)[i] == ls[i]
    ensures forall i :: 0 <= i < |ls| && ls[i].id == id ==> UpdatedLabor(ls, id, e)[i] == EditLabor(ls[i], e)
  {
  }

  /** Editing a text field or the id of a line leaves the materials total unchanged. */
  lemma TextEditKeepsTotal(ms: seq<MaterialItem>, id: string, e: MaterialEdit)
    requires e.SetMaterialId? || e.SetDescription? || e.SetUnit?
    ensures MaterialsTotal(UpdatedMaterials(ms, id, e)) == MaterialsTotal(ms)
  {
    ReduceIsSum(ms, LineTotal, 0);
    ReduceIsSum(UpdatedMaterials(ms, id, e), LineTotal, 0);
    SumUpdateInvariant(ms, MaterialId, id, (m: MaterialItem) => EditMaterial(m, e), LineTotal);
  }

  /** Editing the description or the id of a labor line leaves the labor total unchanged. */
  lemma LaborTextEditKeepsTotal(ls: seq<LaborItem>, id: string, e: LaborEdit)
    requires e.SetLaborId? || e.SetLaborDescription?
    ensures LaborTotal(UpdatedLabor(ls, id, e)) == LaborTotal(ls)
  {
    ReduceIsSum(ls, Cost, 0);
    ReduceIsSum(UpdatedLabor(ls, id, e), Cost, 0);
    SumUpdateInvariant(ls, LaborId, id, (l: LaborItem) => EditLabor(l, e), Cost);
  }

  /** With unique ids, editing line `k` changes the materials total by the change of its line total. */
  lemma UpdateMaterialTotal(ms: seq<MaterialItem>, k: nat, e: MaterialEdit)
    requires UniqueIds(ms, MaterialId) && k < |ms|
    ensures MaterialsTotal(UpdatedMaterials(ms, ms[k].id, e))
         == MaterialsTotal(ms) - LineTotal(ms[k]) + LineTotal(EditMaterial(ms[k], e))
  {
    var f := (m: MaterialItem) => EditMaterial(m, e);
    UpdateUnique(ms, MaterialId, k, f);
    ReduceIsSum(ms, LineTotal, 0);
    ReduceIsSum(ms[k := EditMaterial(ms[k], e)], LineTotal, 0);
    SumReplace(ms, k, EditMaterial(ms[k], e), LineTotal);
  }

  /** With unique ids, setting the cost of labor line `k` changes the labor total by the difference. */
  lemma UpdateLaborTotal(ls: seq<LaborItem>, k: nat, cost: int)
    requires UniqueIds(ls, LaborId) && k < |ls|
    ensures LaborTotal(UpdatedLabor(ls, ls[k].id, SetCost(cost))) == LaborTotal(ls) - ls[k].cost + cost
  {
    var f := (l: LaborItem) => EditLabor(l, SetCost(cost));
    UpdateUnique(ls, LaborId, k, f);
    ReduceIsSum(ls, Cost, 0);
    ReduceIsSum(ls[k := EditLabor(ls[k], SetCost(cost))], Cost, 0);
    SumReplace(ls, k, EditLabor(ls[k], SetCost(cost)), Cost);
  }

  /** The worker-name edit changes the name at `index` and nothing else. */
  lemma RenameWorkerSpec(ws: seq<WorkerInfo>, index: nat, name: string)
    requires index < |ws|
    ensures |RenamedWorkers(ws, index, name)| == |ws|
    ensures RenamedWorkers(ws, index, name)[index].name == name
    ensures forall i :: 0 <= i < |ws| ==>
      RenamedWorkers(ws, index, name)[i].id == ws[i].id && RenamedWorkers(ws, index, name)[i].role == ws[i].role
    ensures forall i :: 0 <= i < |ws| && i != index ==> RenamedWorkers(ws, index, name)[i] == ws[i]
  {
  }

  /** An added worker is a helper: the main worker stays, and the other-worker
      names gain the new, empty name at the end. */
  lemma AddWorkerInDocument(ws: seq<WorkerInfo>, id: string)
    ensures OtherWorkerNames(AddedWorkers(ws, id)) == OtherWorkerNames(ws) + [""]
    ensures MainWorkerText(AddedWorkers(ws, id)) == MainWorkerText(ws)
  {
    OtherWorkerNamesAppend(ws, [NewWorker(id)]);
    assert OtherWorkerNames([NewWorker(id)]) == [""] by {
      assert [NewWorker(id)][1..] == [];
    }
    var ws' := AddedWorkers(ws, id);
    match FirstPrincipal(ws)
    case None =>
      NoPrincipal(ws');
    case Some(i) =>
      MainWorkerIsFirstPrincipal(ws', i);
  }

  /** The opening form: an unnamed principal gives the placeholder as main worker,
      and the one unnamed helper leaves the other-workers text empty. */
  lemma InitialWorkersInDocument()
    ensures MainWorkerText(InitialWorkers) == Placeholder
    ensures OtherWorkersText(InitialWorkers) == ""
  {
    assert InitialWorkers[1..][1..] == [];
    assert OtherWorkerNames(InitialWorkers) == [""];
  }
}
