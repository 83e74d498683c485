/** The two fixed label tables of the document generator, one per language.
    Both are values of one record type, so both define the same 25 keys and no
    lookup can fail. */
module Translations {
  import opened BudgetTypes

  datatype Labels = Labels(
    title: string,
    beneficiary: string,
    mainWorker: string,
    otherWorkers: string,
    materials: string,
    labor: string,
    diets: string,
    materialsTotal: string,
    laborTotal: string,
    dietsTotal: string,
    finalTotal: string,
    approvedBy: string,
    date: string,
    description: string,
    quantity: string,
    unit: string,
    unitPrice: string,
    total: string,
    workDescription: string,
    cost: string,
    workers: string,
    days: string,
    perMeal: string,
    currency: string,
    signature: string)

  const Spanish: Labels := Labels(
    title := "RESUMEN DE PRESUPUESTO",
    beneficiary := "Beneficiario:",
    mainWorker := "Alba\U{00F1}il Principal:",
    otherWorkers := "Otros Trabajadores:",
    materials := "MATERIALES UTILIZADOS",
    labor := "TRABAJOS REALIZADOS",
    diets := "DIETAS",
    materialsTotal := "TOTAL MATERIALES:",
    laborTotal := "TOTAL MANO DE OBRA:",
    dietsTotal := "TOTAL DIETAS:",
    finalTotal := "PRESUPUESTO TOTAL:",
    approvedBy := "Aprobado por:",
    date := "Fecha:",
    description := "Descripci\U{00F3}n",
    quantity := "Cant.",
    unit := "Unidad",
    unitPrice := "P. Unit.",
    total := "Total",
    workDescription := "Descripci\U{00F3}n del Trabajo",
    cost := "Costo",
    workers := "trabajadores",
    days := "d\U{00ED}as",
    perMeal := "c/u",
    currency := "MN",
    signature := "Firma")

  const English: Labels := Labels(
    title := "BUDGET SUMMARY",
    beneficiary := "Beneficiary:",
    mainWorker := "Main Worker:",
    otherWorkers := "Other Workers:",
    materials := "MATERIALS USED",
    labor := "WORK PERFORMED",
    diets := "MEALS / DIETS",
    materialsTotal := "TOTAL MATERIALS:",
    laborTotal := "TOTAL LABOR:",
    dietsTotal := "TOTAL MEALS:",
    finalTotal := "TOTAL BUDGET:",
    approvedBy := "Approved by:",
    date := "Date:",
    description := "Description",
    quantity := "Qty",
    unit := "Unit",
    unitPrice := "U. Price",
    total := "Total",
    workDescription := "Work Description",
    cost := "Cost",
    workers := "workers",
    days := "days",
    perMeal := "ea",
    currency := "MN",
    signature := "Signature")

  /** `TRANSLATIONS[lang]`. */
  function Translations(lang: Language): Labels
  {
    match lang
    case Es => Spanish
    case En => English
  }

  /** The one label that is not taken from a table: it carries both languages. */
  const ObservationsLabel: string := "Observaciones / Observations:"

  /** The two tables agree only on "Total" and on the currency suffix "MN";
      every other label is language-specific. */
  lemma SharedLabels()
    ensures Spanish.total == English.total && Spanish.currency == English.currency
    ensures Spanish.title != English.title && Spanish.beneficiary != English.beneficiary
    ensures Spanish.mainWorker != English.mainWorker && Spanish.otherWorkers != English.otherWorkers
    ensures Spanish.materials != English.materials && Spanish.labor != English.labor
    ensures Spanish.diets != English.diets && Spanish.materialsTotal != English.materialsTotal
    ensures Spanish.laborTotal != English.laborTotal && Spanish.dietsTotal != English.dietsTotal
    ensures Spanish.finalTotal != English.finalTotal && Spanish.approvedBy != English.approvedBy
    ensures Spanish.date != English.date && Spanish.description != English.description
    ensures Spanish.quantity != English.quantity && Spanish.unit != English.unit
    ensures Spanish.unitPrice != English.unitPrice && Spanish.workDescription != English.workDescription
    ensures Spanish.cost != English.cost && Spanish.workers != English.workers
    ensures Spanish.days != English.days && Spanish.perMeal != English.perMeal
    ensures Spanish.signature != English.signature
  {
  }

  /** Within one table the three section headings are distinct, so are the
      three section-total captions, and the label of the other-workers line
      differs from the two labels that open the other left-aligned "label value" lines. */
  lemma LabelsDistinct(lang: Language)
    ensures var t := Translations(lang);
      && t.materials != t.labor && t.materials != t.diets && t.labor != t.diets
      && t.materialsTotal != t.laborTotal && t.materialsTotal != t.dietsTotal && t.laborTotal != t.dietsTotal
      && t.otherWorkers != t.beneficiary && t.otherWorkers != t.mainWorker
  {
  }
}
