/** The budget model: the records the form edits and the document generator reads.
    Money amounts are integer cents; quantities and counts are integers. */
module BudgetTypes {

  datatype Option<T> = None | Some(value: T)

  /** One material line. `unit` is the code chosen from `Units` (the form passes it through verbatim). */
  datatype MaterialItem = MaterialItem(id: string, description: string, quantity: int, unit: string, unitPrice: int)

  /** One labor line; `cost` in cents. */
  datatype LaborItem = LaborItem(id: string, description: string, cost: int)

  /** One worker; the role "Principal" marks the lead worker, anything else is a helper. */
  datatype WorkerInfo = WorkerInfo(id: string, name: string, role: string)

  /** Meal stipend: `costPerDay` in cents. */
  datatype DietInfo = DietInfo(workersCount: int, days: int, costPerDay: int)

  datatype ProjectInfo = ProjectInfo(
    projectName: string,
    beneficiary: string,
    approverName: string,
    approvalDate: string,
    observations: string)

  datatype Language = Es | En

  /** The language code as it appears in the file name. */
  function LangCode(lang: Language): string
  {
    match lang
    case Es => "es"
    case En => "en"
  }

  function ParseLangCode(s: string): (r: Option<Language>)
    ensures r.Some? ==> LangCode(r.value) == s
  {
    if s == "es" then Some(Es) else if s == "en" then Some(En) else None
  }

  lemma LangCodeRoundTrip(lang: Language)
    ensures ParseLangCode(LangCode(lang)) == Some(lang)
  {
  }

  /** An entry of the unit selector: the stored code and its display caption. */
  datatype UnitOption = UnitOption(value: string, caption: string)

  const Units: seq<UnitOption> := [
    UnitOption("unidad", "Unidad"),
    UnitOption("bolsa", "Bolsa"),
    UnitOption("kg", "Kg"),
    UnitOption("m", "m"),
    UnitOption("m2", "m\U{00B2}"),
    UnitOption("m3", "m\U{00B3}"),
    UnitOption("l", "Litro"),
    UnitOption("juego", "Juego"),
    UnitOption("caja", "Caja"),
    UnitOption("otro", "Otro")
  ]

  /** The unit a freshly added material line starts with. */
  const DefaultUnit: string := "unidad"

  /** Every code in the selector is distinct, and the default unit is the first of them. */
  lemma UnitsWellFormed()
    ensures |Units| == 10
    ensures Units[0].value == DefaultUnit
    ensures forall i, j :: 0 <= i < j < |Units| ==> Units[i].value != Units[j].value
  {
  }
}
