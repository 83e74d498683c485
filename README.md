# Budget summary generator — a Dafny model

A model of the core of a small budget application for building work. A form
holds:

- a project record: name, beneficiary, approver, approval date, observations;
- a list of workers, one of whom normally has the role "Principal";
- a list of material lines: description, quantity, unit, unit price;
- a list of labor lines: description, cost;
- a diets record: workers, days, cost per day.

The form shows running totals. On export, the generator:

1. computes the totals;
2. builds the document as a list of blocks, in Spanish or English: a title,
   the project and worker lines, a section for each non-empty list, the
   diets, a separator and the grand total, the observations, and a signature
   table;
3. suggests a file name made from the project name.

Modules (one file each):

| file | module | models |
|---|---|---|
| types.dfy | `BudgetTypes` | the records, the language codes, the unit options |
| format.dfy | `Format` | `String(n)`, `toFixed(2)` and the `$` money format, each with a reader that inverts it |
| totals.dfy | `Totals` | the `reduce` folds and the four totals, next to a reference sum |
| translations.dfy | `Translations` | the two label tables |
| document.dfy | `DocumentGenerator` | the generator: blocks, stage functions, push methods, file name |
| document_lemmas.dfy | `DocumentProperties` | what the block list contains and where |
| document_content.dfy | `DocumentContent` | what each block says, the worker lines, the file name read back |
| list_edits.dfy | `ListEdits` | `filter` by id and `map` by id, with their laws |
| budget_form.dfy | `BudgetForm` | the form as a class, its handlers, and their effect on totals and on the document |

How the model is built:

- **Amounts** are integer cents. An amount `c` is printed as `toFixed(2)` of
  `c / 100`.
- **Document text** is kept as templates of literal, integer and amount pieces.
  `Render` turns a template into the string the generator writes.
- **Document construction.** The generator pushes blocks onto `sections` in
  eight guarded steps. Each step is a function `AddX(sections, …)`, and each
  push is a method proved equal to its step. The whole list is `Sections`, for
  any label table, and `Document(lang)` is `Sections` with that language's table.
- **The form** is a class. Its fields are the React state variables. Each
  handler is a method that reassigns one field to a list function of the old
  value.

## Model

| member | source | states |
|---|---|---|
| BudgetTypes.ParseLangCode | types.ts:35 | only "es" and "en" are language codes, and a recognised code is the code of its language |
| BudgetTypes.LangCodeRoundTrip | types.ts:35 | each language's code reads back as that language |
| BudgetTypes.UnitsWellFormed | types.ts:37-48 | ten unit options, the first is "unidad" (the unit of a new material line), and their values are pairwise distinct |
| Format.NatToString | services/documentGenerator.ts:269 | a count is printed as a non-empty digit string with no leading zero |
| Format.NatRoundTrip | services/documentGenerator.ts:269 | a printed count reads back as the same number |
| Format.IntToString | services/documentGenerator.ts:181 | `String(n)` of an integer is non-empty, starts with a minus sign exactly when `n` is negative, and is digits apart from that sign |
| Format.IntRoundTrip | services/documentGenerator.ts:181 | `String(n)` of an integer (quantity cell, diet counts) reads back as `n`, sign included |
| Format.Fixed2 | services/documentGenerator.ts:183-184 | `toFixed(2)` starts with a minus sign exactly when the amount is negative; after the sign come a non-empty run of digits, a point and exactly two digits |
| Format.Fixed2RoundTrip | services/documentGenerator.ts:183-184 | `toFixed(2)` of an amount reads back as the same number of cents, negative amounts included |
| Format.Money | services/documentGenerator.ts:209 | `$${amount.toFixed(2)}` starts with `$` and has the point third from the end |
| Format.MoneyRoundTrip | services/documentGenerator.ts:209 | the `$`-prefixed amount reads back as the same cents |
| Totals.Reduce | services/documentGenerator.ts:82-83 | `reduce` as a left fold from the accumulator, in list order; it has no contract of its own, and `ReduceIsSum` states its value |
| Totals.ReduceIsSum | services/documentGenerator.ts:82-83 | a `reduce` fold from an accumulator equals the accumulator plus the sum over the items |
| Totals.SumAppend | services/documentGenerator.ts:82-83 | a sum over two lists placed end to end is the sum of the two sums |
| Totals.ComputeTotals | services/documentGenerator.ts:82-85 | materials total is the sum of quantity × unit price; labor total is the sum of costs; diets total is workers × days × cost; grand total is their sum |
| Totals.TotalsNonnegative | services/documentGenerator.ts:82-85 | non-negative inputs give non-negative totals |
| Totals.TotalsAppend | services/documentGenerator.ts:82-83 | the materials and labor totals add up over concatenated lists |
| Totals.WorkedExamples | services/documentGenerator.ts:82-85 | 3 × $10.50 + 1 × $5.00 of materials is $36.50, $100.00 + $50.25 of labor is $150.25, 4 workers × 5 days × $25.00 is $500.00, and the grand total $686.75; an empty form totals $0.00 |
| Translations.SharedLabels | services/documentGenerator.ts:5-60 | the two tables share only "Total" and the currency "MN"; every other label differs between languages |
| Translations.LabelsDistinct | services/documentGenerator.ts:5-60 | within each language the section headings are distinct, the total captions are distinct, and the other-workers label differs from the beneficiary and main-worker labels |
| DocumentGenerator.FirstPrincipal | services/documentGenerator.ts:143 | `find` by role: the index of the first "Principal" worker; none exactly when no worker has that role |
| DocumentGenerator.MainWorkerText | services/documentGenerator.ts:143-150 | the first principal's name, or "---", is never empty, and any value other than "---" is the name of a "Principal" worker |
| DocumentGenerator.OtherWorkerNames | services/documentGenerator.ts:144 | holds the name of every non-"Principal" worker and only such names, at most one per worker; order and multiplicity are fixed by `OtherWorkerNamesOne` and `OtherWorkerNamesAppend` |
| DocumentGenerator.Join | services/documentGenerator.ts:144 | `join(sep)`: empty for no items, starts with the first item, and with two or more items the separator follows the first item |
| DocumentGenerator.OtherWorkersText | services/documentGenerator.ts:144 | the joined names are empty only when every non-"Principal" worker has an empty name |
| DocumentGenerator.MaterialRows | services/documentGenerator.ts:178-186 | one table row per material line |
| DocumentGenerator.LaborRows | services/documentGenerator.ts:227-232 | one table row per labor line |
| DocumentGenerator.SignatureTable | services/documentGenerator.ts:311-351 | a borderless one-row table: approver, signature rule and caption in the left half, the date right-aligned in the right half; it has no contract of its own, and `SignatureLast` places it |
| DocumentGenerator.OrPlaceholder | services/documentGenerator.ts:136 | `value || "---"`: the value, or "---" when it is empty; it has no contract of its own, and `LabelValuesNonEmpty` and `Opening` state it |
| DocumentGenerator.LabelLine | services/documentGenerator.ts:133-139 | a bold caption followed by one space, then the plain value; it has no contract of its own, and `LabelLineInjective` states it |
| DocumentGenerator.TitleBlock | services/documentGenerator.ts:120-125 | the title paragraph, centred at title level; it has no contract of its own, and `Opening` places it first |
| DocumentGenerator.ProjectNameBlock | services/documentGenerator.ts:126-132 | the project name as a centred bold run; it has no contract of its own, and `Opening` places it second |
| DocumentGenerator.BeneficiaryBlock | services/documentGenerator.ts:133-139 | the beneficiary label line with the placeholder fallback; it has no contract of its own, and `Opening` places it third |
| DocumentGenerator.MainWorkerBlock | services/documentGenerator.ts:147-153 | the main-worker label line; it has no contract of its own, and `Opening` places it fourth and `MainWorkerIsFirstPrincipal` gives its text |
| DocumentGenerator.OtherWorkersBlock | services/documentGenerator.ts:158-164 | the other-workers label line; it has no contract of its own, and `OtherWorkersPresent` states when it appears |
| DocumentGenerator.SectionHeading | services/documentGenerator.ts:171-175 | a level-2 heading; it has no contract of its own, and `HeadingsPresent` states which ones appear |
| DocumentGenerator.HeaderCell | services/documentGenerator.ts:88-101 | `createHeaderCell`: a bold centred caption with a percentage width and borders; it has no contract of its own, and `MaterialsTableShape` and `LaborTableShape` state it |
| DocumentGenerator.DataCell | services/documentGenerator.ts:105-114 | `createCell`: one bordered paragraph with the given text and alignment, left by default; it has no contract of its own, and `MaterialRowText`, `MaterialRowAmounts` and `LaborRowCells` state it |
| DocumentGenerator.MaterialsHeader | services/documentGenerator.ts:191-199 | the five header cells; it has no contract of its own, and `MaterialsTableShape` states their captions and widths |
| DocumentGenerator.MaterialRow | services/documentGenerator.ts:178-186 | one material line as five cells; it has no contract of its own, and `MaterialRowText` and `MaterialRowAmounts` state them |
| DocumentGenerator.MaterialsTable | services/documentGenerator.ts:188-202 | the header row then the lines' rows; it has no contract of its own, and `MaterialsTableShape` and `TablesPresent` state it |
| DocumentGenerator.LaborHeader | services/documentGenerator.ts:237-242 | the two header cells; it has no contract of its own, and `LaborTableShape` states their captions and widths |
| DocumentGenerator.LaborRow | services/documentGenerator.ts:227-232 | one labor line as two cells; it has no contract of its own, and `LaborRowCells` states them |
| DocumentGenerator.LaborTable | services/documentGenerator.ts:234-245 | the header row then the lines' rows; it has no contract of its own, and `LaborTableShape` and `TablesPresent` state it |
| DocumentGenerator.TotalLine | services/documentGenerator.ts:205-214 | a section total line; it has no contract of its own, and `TotalLineText` and `TotalLineInjective` state it |
| DocumentGenerator.DietLine | services/documentGenerator.ts:268-271 | the diets breakdown; it has no contract of its own, and `DietLineText` states its text |
| DocumentGenerator.GrandTotalBlock | services/documentGenerator.ts:292-299 | the grand total line; it has no contract of its own, and `GrandTotalText` states its text |
| DocumentGenerator.ObservationsTextBlock | services/documentGenerator.ts:306 | the observations text as written; it has no contract of its own, and `ObservationsPresent` states when it appears |
| DocumentGenerator.AddHeader | services/documentGenerator.ts:119-140 | the header stage; it has no contract of its own, and `PushHeader` and `SectionsSplit` state it |
| DocumentGenerator.AddWorkers | services/documentGenerator.ts:142-166 | the workers stage; it has no contract of its own, and `PushWorkers`, `SectionsSplit` and `OtherWorkersPresent` state it |
| DocumentGenerator.AddMaterials | services/documentGenerator.ts:168-215 | the materials stage; it has no contract of its own, and `PushMaterials`, `SectionsSplit` and `TablesPresent` state it |
| DocumentGenerator.AddLabor | services/documentGenerator.ts:217-258 | the labor stage; it has no contract of its own, and `PushLabor`, `SectionsSplit` and `TablesPresent` state it |
| DocumentGenerator.AddDiets | services/documentGenerator.ts:260-281 | the diets stage; it has no contract of its own, and `PushDiets`, `SectionsSplit` and `DietsPresent` state it |
| DocumentGenerator.AddGrandTotal | services/documentGenerator.ts:283-300 | the separator and grand-total stage; it has no contract of its own, and `PushGrandTotal` and `GrandTotalAfterSeparator` state it |
| DocumentGenerator.AddObservations | services/documentGenerator.ts:302-308 | the observations stage; it has no contract of its own, and `PushObservations` and `ObservationsPresent` state it |
| DocumentGenerator.AddSignature | services/documentGenerator.ts:310-351 | the signature stage; it has no contract of its own, and `PushSignature` and `SignatureLast` state it |
| DocumentGenerator.Sections | services/documentGenerator.ts:116-351 | the block list for a label table, built stage by stage; it has no contract of its own, and the `DocumentProperties` lemmas state what it contains and where |
| DocumentGenerator.Document | services/documentGenerator.ts:79-351 | `Sections` with `TRANSLATIONS[lang]`; it has no contract of its own, and `DocumentHeadings`, `DocumentOtherWorkers` and `DocumentTotalLines` state its contents in both languages |
| DocumentGenerator.SkipSpaces | services/documentGenerator.ts:365 | drops exactly the leading whitespace run of the string |
| DocumentGenerator.ReplaceSpaceRuns | services/documentGenerator.ts:365 | `replace(/\s+/g, '_')`: the result has no whitespace, is empty exactly when the input is, is no longer than the input, and leaves whitespace-free text unchanged; `ReplaceKeeps`, `ReplaceLead` and `ReplaceRun` fix it character by character |
| DocumentGenerator.FileStem | services/documentGenerator.ts:365 | the part before `_{lang}.docx` is never empty and has no whitespace, and a non-empty whitespace-free project name is used as it is |
| DocumentGenerator.FileName | services/documentGenerator.ts:365 | the name ends in `_`, a two-letter code and `.docx`, and what comes before has no whitespace |
| DocumentGenerator.PushHeader | services/documentGenerator.ts:119-140 | pushes the title, the bold project name and the beneficiary line |
| DocumentGenerator.PushWorkers | services/documentGenerator.ts:143-166 | pushes the main-worker line and, when the joined names are not empty, the other-workers line |
| DocumentGenerator.PushMaterials | services/documentGenerator.ts:169-215 | when there are material lines, pushes the heading, the table and the total line |
| DocumentGenerator.PushLabor | services/documentGenerator.ts:218-258 | when there are labor lines, pushes the heading, the table and the total line |
| DocumentGenerator.PushDiets | services/documentGenerator.ts:261-281 | when workers and days are both positive, pushes the heading, the breakdown and the total line |
| DocumentGenerator.PushGrandTotal | services/documentGenerator.ts:284-300 | pushes the separator rule and the grand total |
| DocumentGenerator.PushObservations | services/documentGenerator.ts:303-308 | when the observations are not empty, pushes their label and text |
| DocumentGenerator.PushSignature | services/documentGenerator.ts:311-351 | pushes the signature table |
| DocumentGenerator.CalculateTotals | services/documentGenerator.ts:82-85 | the generator's four totals are `ComputeTotals` |
| DocumentGenerator.BuildSections | services/documentGenerator.ts:116-351 | the eight pushes in order build exactly `Sections` |
| DocumentGenerator.GenerateDocument | services/documentGenerator.ts:71-365 | the blocks are the document in the chosen language, and the file name is `FileName` |
| DocumentContent.RenderStr | services/documentGenerator.ts:208 | a literal template renders as that text |
| DocumentContent.RenderAmount | services/documentGenerator.ts:209 | an amount renders as `$` + `toFixed(2)` and reads back as its cents |
| DocumentContent.TotalLineText | services/documentGenerator.ts:205-214 | a total line is right-aligned: a bold caption with one space, then the amount, a space and the currency |
| DocumentContent.GrandTotalText | services/documentGenerator.ts:292-299 | the grand total is centred, two bold runs: the final-total label, then the grand total and the currency |
| DocumentContent.DietLineText | services/documentGenerator.ts:268-271 | the diets breakdown reads "{workers} {label} x {days} {label} @ ${cost} {label}" and is right-aligned |
| DocumentContent.MaterialRowsShape | services/documentGenerator.ts:178-186 | one row per material line, in order |
| DocumentContent.MaterialsTableShape | services/documentGenerator.ts:188-202 | a header row and one row per line, five cells each; the header holds the five labels with widths 40/10/15/15/20, summing to 100 |
| DocumentContent.MaterialRowText | services/documentGenerator.ts:180-182 | five cells: the description, the quantity (which reads back as the quantity) and the unit, as written on the line |
| DocumentContent.MaterialRowAmounts | services/documentGenerator.ts:183-184 | unit price and line total are right-aligned money that read back as the unit price and as quantity × unit price |
| DocumentContent.MaterialRowAt | services/documentGenerator.ts:188-202 | row `i + 1` of the table is the row of line `i` |
| DocumentContent.LaborRowsShape | services/documentGenerator.ts:227-232 | one row per labor line, in order |
| DocumentContent.LaborTableShape | services/documentGenerator.ts:234-245 | a header row and one row per line, two cells each; the header holds work description and cost, widths 75/25 |
| DocumentContent.LaborRowCells | services/documentGenerator.ts:229-230 | description left, cost as right-aligned money that reads back as the cost |
| DocumentContent.LaborRowAt | services/documentGenerator.ts:234-245 | row `i + 1` of the table is the row of line `i` |
| DocumentContent.MainWorkerIsFirstPrincipal | services/documentGenerator.ts:150 | the main-worker text is the first principal's name, or "---" when that name is empty |
| DocumentContent.NoPrincipal | services/documentGenerator.ts:150 | with no principal the main-worker text is "---" |
| DocumentContent.OtherWorkerNamesAppend | services/documentGenerator.ts:144 | filtering and mapping distribute over concatenated worker lists |
| DocumentContent.OtherWorkerNamesOne | services/documentGenerator.ts:144 | a single worker contributes its name exactly when it is not "Principal" |
| DocumentContent.JoinEmpty | services/documentGenerator.ts:144 | a join with a non-empty separator is empty exactly for no names or one empty name |
| DocumentContent.OtherWorkersEmpty | services/documentGenerator.ts:156 | the other-workers text is empty exactly when there are no other-worker names or just one empty name; in particular when every worker is "Principal" |
| DocumentContent.WorkersExample | services/documentGenerator.ts:143-150 | with helper "A" then principal "B", the main worker is "B" and the other-workers text is "A" |
| DocumentContent.SkipAll | services/documentGenerator.ts:365 | a leading whitespace run is skipped whole, up to the first other character |
| DocumentContent.ReplaceKeeps | services/documentGenerator.ts:365 | a character other than whitespace is copied and the rest is replaced on its own |
| DocumentContent.ReplaceLead | services/documentGenerator.ts:365 | a leading whitespace run becomes exactly one `_` |
| DocumentContent.ReplaceRun | services/documentGenerator.ts:365 | for whitespace-free `u`, a whitespace run `w` and a `v` that does not start with whitespace, `u + w + v` becomes `u + "_"` followed by the replacement of `v` |
| DocumentContent.FileStemSpec | services/documentGenerator.ts:365 | the stem of an empty project name is "presupuesto", and of any other name that name with its whitespace runs replaced; it is never empty and has no whitespace |
| DocumentContent.BlankNameStem | services/documentGenerator.ts:365 | a project name made only of whitespace gives the stem "_", not "presupuesto" |
| DocumentContent.FileNameExample | services/documentGenerator.ts:365 | "Cocina Nueva" in Spanish is saved as "Cocina_Nueva_es.docx" |
| DocumentContent.ParseFileName | services/documentGenerator.ts:365 | a recognised file name splits into a whitespace-free stem and a language that rebuild it |
| DocumentContent.FileNameRoundTrip | services/documentGenerator.ts:365 | every generated file name reads back as its stem and its language |
| DocumentProperties.SectionsSplit | services/documentGenerator.ts:116-351 | the block list is the eight stages' contributions placed end to end, in source order |
| DocumentProperties.HeadingsPresent | services/documentGenerator.ts:169-267 | a section heading is in the list exactly when it is the materials, labor or diets heading and that section is present |
| DocumentProperties.TablesPresent | services/documentGenerator.ts:169-246 | the materials table is in the list exactly when there are material lines, and the labor table exactly when there are labor lines |
| DocumentProperties.DietsPresent | services/documentGenerator.ts:261-281 | the diets breakdown is in the list exactly when workers and days are both positive |
| DocumentProperties.ObservationsPresent | services/documentGenerator.ts:303-308 | the observations label and text are in the list exactly when the observations are not empty |
| DocumentProperties.LabelLineInjective | services/documentGenerator.ts:133-139 | a label line determines its label, its value and its alignment |
| DocumentProperties.LabelValuesNonEmpty | services/documentGenerator.ts:136 | the beneficiary value and the main-worker value are never empty, since both fall back to "---" |
| DocumentProperties.OtherWorkersPresent | services/documentGenerator.ts:156-166 | for every text `x`, an other-workers line with text `x` is in the list exactly when `x` is the joined names and they are not empty; when the joined names are empty no other-workers line of any text appears |
| DocumentProperties.TotalLineInjective | services/documentGenerator.ts:205-214 | a total line determines its caption and its amount |
| DocumentProperties.TotalLinesPresent | services/documentGenerator.ts:205-279 | a total line is in the list exactly when it is a present section's own caption with that section's total |
| DocumentProperties.Layout | services/documentGenerator.ts:116-308 | the separator sits after the opening lines and present sections (4, +1 for other workers, +3 per section), the grand total follows it, and the length counts two more blocks for observations |
| DocumentProperties.SignatureLast | services/documentGenerator.ts:311-351 | the signature table is the last block |
| DocumentProperties.Opening | services/documentGenerator.ts:118-154 | the list opens with the title, the project name, the beneficiary line and the main-worker line |
| DocumentProperties.GrandTotalAfterSeparator | services/documentGenerator.ts:284-300 | every grand-total block is immediately preceded by the separator |
| DocumentProperties.DocumentHeadings | services/documentGenerator.ts:169-267 | in either language, each section's heading is in the document exactly when its section is |
| DocumentProperties.DocumentOtherWorkers | services/documentGenerator.ts:156-166 | in either language and for every text `x`, an other-workers line with text `x` is in the document exactly when `x` is the joined names and they are not empty |
| DocumentProperties.DocumentTotalLines | services/documentGenerator.ts:205-279 | in either language, each section's total line is in the document exactly when its section is |
| ListEdits.Count | App.tsx:57 | the number of items with the id; zero exactly when none has it |
| ListEdits.Without | App.tsx:57 | `filter(x => x.id !== id)`: drops exactly the items with the id, keeps every other, adds nothing; order and multiplicity are fixed by `WithoutOne` and `WithoutAppend` |
| ListEdits.Only | App.tsx:57 | the dropped items: as many as carry the id, all with the id, all taken from the list; order and multiplicity are fixed by `OnlyOne` and `OnlyAppend` |
| ListEdits.WithoutOne | App.tsx:57 | a single item is kept exactly when its id differs |
| ListEdits.OnlyOne | App.tsx:57 | a single item is dropped exactly when it has the id |
| ListEdits.OnlyAppend | App.tsx:57 | the dropped items of two lists placed end to end are those of the first, then those of the second |
| ListEdits.WithoutOnlyPartition | App.tsx:57 | the kept and the dropped items together are the list's items, each as often as in the list |
| ListEdits.UpdateWhere | App.tsx:62 | `map(x => x.id === id ? f(x) : x)`: same length, each item rewritten in place exactly when it has the id |
| ListEdits.WithoutAppend | App.tsx:57 | filtering distributes over concatenation |
| ListEdits.WithoutAbsent | App.tsx:57 | filtering by an absent id changes nothing |
| ListEdits.CountUnique | App.tsx:57 | with unique ids at most one item has any id |
| ListEdits.SumSplit | App.tsx:39 | a sum is the sum over the kept items plus the sum over the dropped ones |
| ListEdits.SumUpdateInvariant | App.tsx:39 | an update that keeps an item's value keeps the sum |
| ListEdits.UpdateUnique | App.tsx:62 | with unique ids, updating by item `k`'s id rewrites item `k` alone |
| ListEdits.SumReplace | App.tsx:39 | replacing one item changes a sum by the difference of their values |
| BudgetForm.EditMaterial | App.tsx:62 | `{ ...m, [field]: value }` for the five fields of a material line; it has no contract of its own, and `EditMaterialOneField` states it |
| BudgetForm.EditMaterialOneField | App.tsx:62 | `{ ...m, [field]: value }` changes the named field and no other |
| BudgetForm.EditLabor | App.tsx:76 | `{ ...l, [field]: value }` for the three fields of a labor line; it has no contract of its own, and `EditLaborOneField` states it |
| BudgetForm.EditLaborOneField | App.tsx:76 | `{ ...l, [field]: value }` changes the named field of a labor line and no other |
| BudgetForm.AddedMaterials | App.tsx:51-53 | the list after adding a material line; it has no contract of its own, and `AddedItems` and `AddKeepsTotals` state it |
| BudgetForm.RemovedMaterials | App.tsx:55-59 | the list after removing a material line; it has no contract of its own, and `RemoveMaterialSpec`, `RemoveKeepsOneLine` and `RemoveMaterialTotal` state it |
| BudgetForm.UpdatedMaterials | App.tsx:61-63 | the list after a field edit; it has no contract of its own, and `UpdateMaterialSpec`, `TextEditKeepsTotal` and `UpdateMaterialTotal` state it |
| BudgetForm.AddedLabor | App.tsx:65-67 | the list after adding a labor line; it has no contract of its own, and `AddedItems` and `AddKeepsTotals` state it |
| BudgetForm.RemovedLabor | App.tsx:69-73 | the list after removing a labor line; it has no contract of its own, and `RemoveLaborSpec`, `RemoveKeepsOneLine` and `RemoveLaborTotal` state it |
| BudgetForm.UpdatedLabor | App.tsx:75-77 | the list after a labor field edit; it has no contract of its own, and `UpdateLaborSpec`, `LaborTextEditKeepsTotal` and `UpdateLaborTotal` state it |
| BudgetForm.AddedWorkers | App.tsx:79-81 | the list after adding a worker; it has no contract of its own, and `AddedItems` and `AddWorkerInDocument` state it |
| BudgetForm.RemovedWorkers | App.tsx:83-85 | the list after removing a worker; it has no contract of its own, and `RemoveLastWorker` states it |
| BudgetForm.RenamedWorkers | App.tsx:158-161 | the list after the name edit; it has no contract of its own, and `RenameWorkerSpec` states it |
| BudgetForm.Form.constructor | App.tsx:8-33 | the initial state: blank project with today's date, the two initial workers, one fresh material line, one fresh labor line, zero diets |
| BudgetForm.Form.Totals | App.tsx:38-48 | the form's memoised totals are the generator's totals of the same lists |
| BudgetForm.Form.AddMaterial | App.tsx:51-53 | appends a fresh material line |
| BudgetForm.Form.RemoveMaterial | App.tsx:55-59 | drops the lines with the id, only when there is more than one line |
| BudgetForm.Form.UpdateMaterial | App.tsx:61-63 | applies the field edit to the lines with the id |
| BudgetForm.Form.AddLabor | App.tsx:65-67 | appends a fresh labor line |
| BudgetForm.Form.RemoveLabor | App.tsx:69-73 | drops the lines with the id, only when there is more than one line |
| BudgetForm.Form.UpdateLabor | App.tsx:75-77 | applies the field edit to the lines with the id |
| BudgetForm.Form.AddWorker | App.tsx:79-81 | appends a fresh unnamed helper |
| BudgetForm.Form.RemoveWorker | App.tsx:83-85 | drops the workers with the id, with no length guard |
| BudgetForm.Form.RenameWorker | App.tsx:158-161 | sets the name of the worker in row `index` |
| BudgetForm.AddedItems | App.tsx:51-81 | adding appends exactly one fresh item and keeps the others; material: empty text, 0, "unidad", 0; labor: empty text, 0; worker: no name, "Ayudante" |
| BudgetForm.AddKeepsTotals | App.tsx:38-67 | adding a material or labor line leaves its total unchanged |
| BudgetForm.RemoveMaterialSpec | App.tsx:55-59 | with one line or none the list is unchanged; otherwise exactly the lines with the id go |
| BudgetForm.RemoveLaborSpec | App.tsx:69-73 | with one labor line or none the list is unchanged; otherwise exactly the lines with the id go |
| BudgetForm.RemoveKeepsOneLine | App.tsx:55-73 | with unique ids a non-empty material or labor list stays non-empty |
| BudgetForm.DuplicateIdsEmptyList | App.tsx:55-59 | the guard counts lines, not ids: two lines sharing an id are both removed, leaving none |
| BudgetForm.RemoveLastWorker | App.tsx:83-85 | the only worker can be removed |
| BudgetForm.RemoveMaterialTotal | App.tsx:55-59 | removal lowers the materials total by the line totals of the removed lines |
| BudgetForm.RemoveLaborTotal | App.tsx:69-73 | removal lowers the labor total by the costs of the removed lines |
| BudgetForm.UpdateMaterialSpec | App.tsx:61-63 | an update keeps the length, rewrites the lines with the id in place, and keeps all others |
| BudgetForm.UpdateLaborSpec | App.tsx:75-77 | a labor update keeps the length, rewrites the lines with the id in place, and keeps all others |
| BudgetForm.TextEditKeepsTotal | App.tsx:61-63 | editing an id, a description or a unit leaves the materials total unchanged |
| BudgetForm.LaborTextEditKeepsTotal | App.tsx:75-77 | editing an id or a description leaves the labor total unchanged |
| BudgetForm.UpdateMaterialTotal | App.tsx:61-63 | with unique ids, editing line `k` changes the materials total by the change in its line total |
| BudgetForm.UpdateLaborTotal | App.tsx:75-77 | with unique ids, setting line `k`'s cost changes the labor total by the difference |
| BudgetForm.RenameWorkerSpec | App.tsx:158-161 | the edit sets that row's name and changes no id, no role and no other row |
| BudgetForm.AddWorkerInDocument | App.tsx:79-81 | an added worker leaves the main worker as it was and adds an empty name to the other-worker names |
| BudgetForm.InitialWorkersInDocument | App.tsx:16-19 | the initial workers give "---" as the main worker and no other-workers line |

## Left out

- **Docx output.** Packer, the blob, `saveAs` and all styling are left out:
  spacing, sizes, colours, shading, border styles, margins, the table width
  setting and size 28. A block keeps only its text runs, bold, alignment,
  heading level, cell widths and whether a table has borders.
- **React.** The JSX, the `isGenerating` flag, the error `alert`, and the
  plain `setProject` and `setDiet` setters are left out. The setters replace
  one record and need no proof.
- **Generated values.** `Date.now()`, `Math.random()` and today's date become
  parameters: the ids of new lines and the form's date.
- **Numbers.** JavaScript numbers are modelled as integers, and money as
  integer cents. Floating point, fractional quantities and `toFixed` rounding
  and exponent notation are not modelled. Neither is the coercion of typed
  input, the `value: any` of the update handlers.
- **Templates.** Document text is kept as templates, and `Render` and the
  `*Text` lemmas give the strings the generator writes.
- Form.RenameWorker: requires `index < |workers|`; the input row exists only
  for an existing worker. It is modelled on values: the source copies the array
  but mutates the shared worker object in place, and that aliasing is not
  modelled.
- DocumentProperties.OtherWorkersPresent: for an arbitrary label table it
  requires the other-workers label to differ from the beneficiary and
  main-worker labels. `DocumentOtherWorkers` discharges this for both real
  tables.
- **TRANSLATIONS lookup.** `TRANSLATIONS[lang]` is the function
  `Translations`. It has no contract of its own, and its two tables are
  described by `SharedLabels` and `LabelsDistinct`.

Behaviour of the code worth noting:

- **Placeholder** (services/documentGenerator.ts:136 and 150). Only the
  beneficiary and the main worker's name fall back to "---". The project name,
  approver and date are printed as they are.
- **Observations** (services/documentGenerator.ts:303). The observations block
  appears for any non-empty text, whitespace alone included.
- **Observations label** (services/documentGenerator.ts:305). The source
  passes `bold: true` in the paragraph options beside `text`. Paragraph options
  in docx carry no run formatting, so the label's run is plain, and the model
  renders it so.
- **Other-workers line** (services/documentGenerator.ts:144 and 156). It is
  omitted when the joined names are empty, not when there are no
  non-principal workers. One unnamed helper gives no line, but two give ", ".
- **File name** (services/documentGenerator.ts:365). A project name of only
  whitespace gives the stem "_", not "presupuesto" (`BlankNameStem`).
