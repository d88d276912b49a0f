# Ross-Heidecke appraisal calculator — a Dafny model

This project models the domain logic of a real-estate appraisal web application.

**Appraisal.** A quotation form collects:
- two names (property and land);
- the structure's residual and replacement values;
- its age and a condition rating from 1 (excellent) to 9 (worthless);
- the land area and its price per square metre;
- the day's dollar exchange rate.

From these the application computes:
- the land value;
- the coefficient K, read from the Ross-Heidecke depreciation table (100 ages by 9 conditions);
- the depreciated structure value `Va = VR - (VR - Vr) * K / 100`;
- the total, and the total in dollars.

**Around the calculator**, the model covers:
- the two validators of the quotation form: the hook and the form component's own older copy;
- the rule set of the rental-property form;
- the list operations of the payment store and of the quotation history;
- the search and pagination of the page that shows the table.

Modules, one per file:

- `RossHeidecke` (`ross_heidecke.dfy`): the table, checked block by block, and the clamped lookup.
- `Appraisal` (`appraisal.dfy`):
  - the formula, with its bounds and monotonicity lemmas;
  - the `useCalculations` hook as a class whose five fields are recomputed from one form snapshot.
- `JsText` (`text.dfy`):
  - JavaScript `trim()` with the exact ECMAScript white-space set;
  - the phone and e-mail regular expressions as character-class predicates. The e-mail check decides on the first `@` and the last dot, and a lemma proves this equals the pattern's existential meaning.
- `FormValidation` (`form_validation.dfy`): `validateField`, the `forEach` that builds the error map, and `validateAllFields`.
- `CotizadorForm` (`cotizador_form.dfy`): the component's state, its older `validateField` (no age or condition rules), `handleInputChange` and `handleSubmit`.
- `RentalValidation` (`rental_validation.dfy`):
  - the rental rule set, one method per block of the effect body;
  - a declarative statement of each rule (`Holds`);
  - `isValid` as "the map is empty".
- `Payments` (`payments.dfy`): the stored payments array as a `seq` field, with create, update and delete, and the search functions.
- `History` (`history.dfy`): the quotation history with prepend, find-by-id and remove-by-id.
- `TableView` (`table_view.dfy`): the page's own copy of the table, proved equal to the form's copy, the highlight search, and pagination.
- `Lists` (`lists.dfy`): `findIndex`, `find`, `some` and `filter` over sequences, shared by the stores.

**The table is not monotone in age.** Depreciation is meant to grow with age in every column, but the data breaks this in one place. In condition 5, the entry for 59 years (55.61) is below the one for 58 years (55.62). See `src/components/CotizadorForm.tsx:140-141` and the same rows of `src/components/TablaRossHeidecke.tsx:73-74`. The model follows the data:
- `RossHeidecke.TableAgesInOrder` states the ordering with this single exception;
- `RossHeidecke.AgeDip` shows the dip on the coefficient itself.

## Model

| member | source | states |
|---|---|---|
| RossHeidecke.TableWellFormed | src/components/CotizadorForm.tsx:81-182 | The table has 100 rows of 9 entries, each in [0, 100]. Entries never decrease from condition 1 to 9, every row ends in 100, and the entry for age 0, condition 1 is 0. |
| RossHeidecke.TableAgesInOrder | src/components/CotizadorForm.tsx:82-181 | Inside each block of ten years, every row depreciates at least as much as the row before it, in every column. The single exception is condition 5 from 58 to 59 years, where the entry drops. |
| RossHeidecke.DecadeBoundaries | src/components/CotizadorForm.tsx:82-181 | From the last age of each ten-year block to the first age of the next, no entry decreases. |
| RossHeidecke.AgeDip | src/components/CotizadorForm.tsx:140-141 | The coefficient for 59 years in condition 5 is smaller than the one for 58 years, so K is not monotone in age. |
| RossHeidecke.RowOrdered | src/components/CotizadorForm.tsx:82-181 | In a well-formed row, a worse condition never has a smaller percentage, and all entries lie in [0, 100]. |
| RossHeidecke.RowIndex | src/components/CotizadorForm.tsx:185 | The row is the floor of the age clamped into 0..99: negative ages give row 0, ages of 99 and above give row 99, and ages in range give their floor. |
| RossHeidecke.ColIndex | src/components/CotizadorForm.tsx:188 | The column is the rating minus one clamped into 0..8: ratings of 1 or less give column 0, ratings of 9 or more give column 8, and ratings in 1..9 give the rating minus one. |
| RossHeidecke.Lookup | src/components/CotizadorForm.tsx:184-191 | On any well-formed table the lookup is total and lies in [0, 100], and a rating of 9 or more reads 100. |
| RossHeidecke.LookupIsEntry | src/components/CotizadorForm.tsx:191 | For an age in 0..99 and a rating in 1..9, the lookup returns the table entry verbatim. |
| RossHeidecke.LookupGrowsWithCondition | src/components/CotizadorForm.tsx:184-191 | On any well-formed table, a worse rating never gives a smaller coefficient for the same age. |
| RossHeidecke.Coefficient | src/components/CotizadorForm.tsx:79-192 | `obtenerCoeficienteRossHeidecke` is total and lies in [0, 100]. It is 100 for ratings of 9 or more, and 0 for ages under 1 with ratings of 1 or less. |
| RossHeidecke.CoefficientClampsAge | src/components/CotizadorForm.tsx:185 | A fractional age reads the row of its completed years. A negative age reads row 0, and an age above 99 reads row 99. |
| RossHeidecke.CoefficientClampsCondition | src/components/CotizadorForm.tsx:188 | A rating below 1 reads as 1, and a rating above 9 reads as 9. |
| RossHeidecke.CoefficientGrowsWithCondition | src/components/CotizadorForm.tsx:79-192 | For a fixed age, a worse condition never gives a smaller coefficient. |
| RossHeidecke.CoefficientExamples | src/components/CotizadorForm.tsx:83-181 | Reference entries: age 0 in condition 1 gives 0, age 99 in condition 9 gives 100, and age 10 in condition 3 gives 7.88. Age 500 in condition 5 is clamped to age 99 and gives 98.78. |
| Appraisal.StructureValue | src/hooks/useCalculations.ts:32-35 | With K = 0 the structure keeps its replacement value, and with K = 100 it falls to its residual value. |
| Appraisal.LandValue | src/hooks/useCalculations.ts:18 | No area or no price gives a land value of 0. A non-negative area and price give a non-negative value. |
| Appraisal.ToDollars | src/hooks/useCalculations.ts:44-46 | At a positive rate, the dollar amount times the rate gives back the total. At a rate of 0 or less it is 0. |
| Appraisal.Appraise | src/hooks/useCalculations.ts:16-47 | All five results come from one form snapshot. K is the table coefficient, in [0, 100]. The land value is area × price per m², the structure value follows the formula with that K, the total is land plus structure, and the dollar total is the total at the form's rate. |
| Appraisal.StructureValueBetween | src/hooks/useCalculations.ts:32-35 | When the residual value does not exceed the replacement value and K is in [0, 100], the structure is worth between the two. |
| Appraisal.StructureValueFallsWithK | src/hooks/useCalculations.ts:32-35 | When the residual value does not exceed the replacement value, a larger K never raises the structure value. |
| Appraisal.ResidualAboveReplacement | src/hooks/useCalculations.ts:32-35 | The formula is not clamped: with a residual value above the replacement value, any positive K values the structure above its replacement value. |
| Appraisal.AppraiseIgnoresNames | src/hooks/useCalculations.ts:16-47 | Two forms that differ only in the two names get identical results. |
| Appraisal.WorseConditionNeverRaisesValue | src/hooks/useCalculations.ts:22-40 | For a fixed age, and when the residual value does not exceed the replacement value, a worse condition never raises the structure value or the total. |
| Appraisal.AppraisalExamples | src/hooks/useCalculations.ts:16-47 | A worked appraisal: a new structure in excellent condition keeps its replacement value and the dollar total is total / rate. At 99 years in condition 9 the structure is left with its residual value. |
| Appraisal.Calculations.constructor | src/hooks/useCalculations.ts:6-10 | Before the first calculation, all five results are 0. |
| Appraisal.Calculations.CalcularValores | src/hooks/useCalculations.ts:16-47 | After `calcularValores`, the five state fields are exactly the appraisal of the given form. |
| JsText.Trim | src/hooks/useFormValidation.ts:20 | `trim()` never lengthens a string. It returns the empty string exactly when the input is blank; otherwise the result starts and ends with a non-white-space character. |
| JsText.TrimRemovesOnlyEnds | src/hooks/useFormValidation.ts:20 | The result is a slice of the input, and everything cut off before and after it is white space. Together with `Trim`'s own contract this fixes the result completely. |
| JsText.IndexOf | src/hooks/usePropiedadAlquilerValidation.ts:25 | The index of the first occurrence of the character, or -1 exactly when it does not occur. |
| JsText.LastIndexOf | src/hooks/usePropiedadAlquilerValidation.ts:25 | The index of the last occurrence of the character, or -1 exactly when it does not occur. |
| JsText.IsPhone | src/hooks/usePropiedadAlquilerValidation.ts:24 | A string that passes the phone pattern is non-empty and holds neither an `@` nor a letter. |
| JsText.IsEmail | src/hooks/usePropiedadAlquilerValidation.ts:25-27 | A string that passes the e-mail pattern holds an `@` and a dot and has at least six characters. It is therefore never a phone number. |
| JsText.EmailSplitIsUnique | src/hooks/usePropiedadAlquilerValidation.ts:25 | Any split that fits the e-mail pattern is at the first `@` and the last dot. |
| JsText.IsEmailMeaning | src/hooks/usePropiedadAlquilerValidation.ts:25 | The e-mail check accepts exactly the strings with some split into local part, `@`, domain, `.` and at least two letters, with each part in its character class. |
| JsText.EmailHasNoWhitespace | src/hooks/usePropiedadAlquilerValidation.ts:25 | A string that passes the e-mail check contains no white space. |
| FormValidation.ValueOf | src/hooks/useFormValidation.ts:50-54 | The value under a key is a string exactly for the two name fields, and a number otherwise. |
| FormValidation.Message | src/hooks/useFormValidation.ts:21-40 | Each key's message is never empty. |
| FormValidation.ValidateField | src/hooks/useFormValidation.ts:15-44 | The result is empty exactly when the value meets its key's rule, and otherwise it is that key's message. The rules: non-blank names, a positive dollar rate, non-negative amounts, an age in [0, 99], a condition in [1, 9]. A value of the other kind is not checked. |
| FormValidation.AllFieldsListed | src/hooks/useFormValidation.ts:50 | The entries the loop visits include every key of the form. |
| FormValidation.ErrorMap | src/hooks/useFormValidation.ts:46-59 | The error map holds exactly the keys whose check returns a message, each with that message. |
| FormValidation.CollectErrors | src/hooks/useFormValidation.ts:47-59 | The `forEach` builds exactly the error map, and `hasErrors` is set exactly when the map is not empty. |
| FormValidation.FailingFieldIsReported | src/hooks/useFormValidation.ts:46-59 | A key is in the hook's error map exactly when its value breaks that key's rule. |
| FormValidation.AcceptableFieldByField | src/hooks/useFormValidation.ts:15-44 | The whole-form condition is exactly every key's rule applied to its value. |
| FormValidation.NoErrorsIffAcceptable | src/hooks/useFormValidation.ts:46-62 | The error map is empty exactly when the names are filled, the dollar rate is positive, the amounts are non-negative, the age is in [0, 99] and the condition is in [1, 9]. |
| FormValidation.AcceptableFormsIndexTheTable | src/hooks/useFormValidation.ts:36-41 | A form that passes validation reads the table at its exact age (the floor) and rating, with no clamping. |
| FormValidation.FormValidator.ValidateAllFields | src/hooks/useFormValidation.ts:46-63 | The stored errors become the full error map. The result is true exactly when every field meets its rule. |
| CotizadorForm.LegacyValidateField | src/components/CotizadorForm.tsx:194-217 | The component's check never fails the age or the condition. On every other key it returns exactly what the hook's check returns. |
| CotizadorForm.LegacyErrorsAreHookErrors | src/components/CotizadorForm.tsx:194-217 | Every error the component reports is a hook error with the same message. The only hook errors it misses are on the age and the condition. |
| CotizadorForm.LegacyAcceptsOutOfRangeAge | src/components/CotizadorForm.tsx:194-217 | A form with age 150 and condition 0 passes the component's check. The hook reports exactly those two keys. |
| CotizadorForm.InitialFormErrors | src/components/CotizadorForm.tsx:20-30 | Submitting the untouched form reports exactly the two names and the dollar rate. |
| CotizadorForm.SetField | src/components/CotizadorForm.tsx:236-239 | Setting a key gives that key the new value and leaves every other key unchanged. |
| CotizadorForm.Cotizador.constructor | src/components/CotizadorForm.tsx:20-43 | The component starts with the initial form and no errors, and its results are those of the initial form, all 0. |
| CotizadorForm.Cotizador.CalcularValores | src/components/CotizadorForm.tsx:45-76 | Afterwards the five results are the appraisal of the current form; the form and the errors are unchanged. |
| CotizadorForm.Cotizador.HandleInputChange | src/components/CotizadorForm.tsx:219-240 | The key's message is stored, even when empty. The key takes the new value, and the results follow the new form. |
| CotizadorForm.Cotizador.HandleSubmit | src/components/CotizadorForm.tsx:242-262 | The errors become exactly the failing keys of the component's check. Only when there are none are the results recomputed; otherwise they keep their old values. Either way the results still match the form afterwards. |
| RentalValidation.IsContactMeaning | src/hooks/usePropiedadAlquilerValidation.ts:24-27 | The contact check accepts exactly what the phone pattern or the e-mail pattern describes. |
| RentalValidation.Verdict | src/hooks/usePropiedadAlquilerValidation.ts:14-80 | The report of each block for a form: nothing when its rule holds, otherwise its message, which is never empty. |
| RentalValidation.VerdictMeaning | src/hooks/usePropiedadAlquilerValidation.ts:14-80 | Each block reports its key exactly when the rule that key stands for fails. |
| RentalValidation.ReportStep | src/hooks/usePropiedadAlquilerValidation.ts:14-80 | Running one block after the earlier ones extends a map that reports those blocks' keys to one that also reports this block's key, with its message. |
| RentalValidation.AllReported | src/hooks/usePropiedadAlquilerValidation.ts:14-80 | After all eight blocks, the map holds exactly the keys whose rule fails. |
| RentalValidation.ValidarPropietario | src/hooks/usePropiedadAlquilerValidation.ts:14-17 | Adds the owner's key exactly when the trimmed name is empty. |
| RentalValidation.ValidarContactoPropietario | src/hooks/usePropiedadAlquilerValidation.ts:19-31 | Adds the owner-contact key when the trimmed contact is empty ("required"), or when it matches neither the phone nor the e-mail pattern ("invalid"). |
| RentalValidation.ValidarContactoInquilino | src/hooks/usePropiedadAlquilerValidation.ts:33-46 | Adds the tenant-contact key when there is a tenant but no contact, or when a contact is given that matches neither pattern. |
| RentalValidation.ValidarFechaInicio | src/hooks/usePropiedadAlquilerValidation.ts:48-52 | Adds the start-date key when there is a tenant and the date is empty. |
| RentalValidation.ValidarDuracion | src/hooks/usePropiedadAlquilerValidation.ts:54-61 | Adds the duration key when there is a tenant and the duration is not positive. |
| RentalValidation.ValidarPrecio | src/hooks/usePropiedadAlquilerValidation.ts:63-66 | Adds the rent key when the rent is not positive, with or without a tenant. |
| RentalValidation.ValidarIntervalo | src/hooks/usePropiedadAlquilerValidation.ts:68-75 | Adds the increase-interval key when there is a tenant and the interval is not positive. |
| RentalValidation.ValidarDireccion | src/hooks/usePropiedadAlquilerValidation.ts:77-80 | Adds the address key exactly when the trimmed address is empty. |
| RentalValidation.CheckAll | src/hooks/usePropiedadAlquilerValidation.ts:12-80 | The new map holds exactly the keys whose rule fails, each with its block's message. |
| RentalValidation.EmptyIffAllRulesHold | src/hooks/usePropiedadAlquilerValidation.ts:83 | The map is empty exactly when every rule holds, written out field by field. |
| RentalValidation.NoTenantNoContractErrors | src/hooks/usePropiedadAlquilerValidation.ts:33-75 | Without a tenant, the start date, duration and interval are never reported. The tenant contact is reported only when it is given and malformed. |
| RentalValidation.RentalValidator.constructor | src/hooks/usePropiedadAlquilerValidation.ts:8-9 | Before the first check, the map is empty and the form is not valid. |
| RentalValidation.RentalValidator.Validate | src/hooks/usePropiedadAlquilerValidation.ts:11-84 | The stored map holds exactly the failing keys with their messages. `isValid` holds exactly when the map is empty, which is exactly when every rule holds. |
| Payments.NewPayment | src/lib/payments.ts:59-64 | The new record carries the given id and the form's fields. Its creation and update times are the two clock readings, which need not be equal. |
| Payments.Merge | src/lib/payments.ts:94-98 | The form's fields replace the stored ones; an absent `observations` keeps the stored one. The id and creation time stay, and the update time is renewed. |
| Payments.HasPaymentOnDate | src/lib/payments.ts:141-143 | True exactly when some payment has that date. |
| Payments.GetPaymentByDate | src/lib/payments.ts:146-151 | A found payment has that date and is the first one in the list with it. |
| Payments.PaymentByDateIffHasPayment | src/lib/payments.ts:141-151 | A payment is found on a date exactly when the list has a payment on that date. |
| Payments.PaymentStore.constructor | src/lib/payments.ts:12-13 | A fresh storage holds no payments key. |
| Payments.PaymentStore.GetPaymentsByMonth | src/lib/payments.ts:4-30 | Every returned payment is stored, belongs to the property, and falls in the year and month. Every stored payment that does is returned. Nothing is returned when no array is stored. |
| Payments.MonthCounts | src/lib/payments.ts:16-23 | A month's list holds each matching stored payment as many times as it is stored, and nothing else. |
| Payments.MonthKeepsOrder | src/lib/payments.ts:16-23 | A month's list reads the stored list at the matching positions, in increasing order, so it keeps the stored order. |
| Payments.PaymentStore.GetPaymentById | src/lib/payments.ts:33-47 | Returns the first stored payment with the id, or nothing exactly when no stored payment has it. |
| Payments.PaymentStore.CreatePayment | src/lib/payments.ts:50-77 | The stored list, or an empty one when none is stored, gains the new record at its end and is stored. The record is returned. |
| Payments.PaymentStore.UpdatePayment | src/lib/payments.ts:80-108 | Throws "No hay pagos registrados" when nothing is stored, or "Pago no encontrado" when no payment has the id, leaving the storage as it was. Otherwise only the first matching entry is replaced by its merge with the form, and the merged record is returned. |
| Payments.PaymentStore.DeletePayment | src/lib/payments.ts:111-130 | Throws the same two errors, leaving the storage as it was. Otherwise exactly the first matching entry is spliced out. |
| Payments.UpdateThenFind | src/lib/payments.ts:89-103 | An update keeps the length and every id. A lookup of the id afterwards returns the merged record. |
| Payments.DeleteRemovesOne | src/lib/payments.ts:117-122 | A delete shortens the list by one. The removed entry had the id, and the remaining entries together with the removed one are the old entries. |
| Payments.DeleteThenNotFound | src/lib/payments.ts:117-122 | When ids are unique, a deleted id can no longer be found. |
| Payments.CreateExtendsMonth | src/lib/payments.ts:16-23 | After a create, each month's list is the old one followed by the new payment, exactly when the new payment belongs to that month. |
| History.FirstWithId | src/hooks/useHistorialCotizaciones.ts:50-53 | The first entry with the id. It is absent exactly when no entry has the id. |
| History.WithoutId | src/hooks/useHistorialCotizaciones.ts:56 | Every kept entry has another id and comes from the history. Every entry with another id is kept. |
| History.WithoutIdCounts | src/hooks/useHistorialCotizaciones.ts:56 | Each entry with another id is kept as many times as it occurs, and no entry with the id is kept. |
| History.WithoutIdKeepsOrder | src/hooks/useHistorialCotizaciones.ts:56 | The result reads the history at the kept positions, in increasing order, so the entries keep their order. |
| History.WithoutIdKeepsOtherLookups | src/hooks/useHistorialCotizaciones.ts:50-58 | After a removal by one id, loading any other id gives what it gave before. |
| History.Historial.constructor | src/hooks/useHistorialCotizaciones.ts:22-25 | The history starts from the list stored under `cotizador_historial`. It starts empty when nothing can be read from there. |
| History.Historial.CargarCotizacion | src/hooks/useHistorialCotizaciones.ts:50-53 | Returns the first entry with the id, or nothing exactly when no entry has it. |
| History.Historial.GuardarCotizacion | src/hooks/useHistorialCotizaciones.ts:27-48 | The new entry, carrying the form, the results, the id and the date, goes in front of the old history. Its id is returned, and loading that id gives back the new entry. |
| History.Historial.EliminarCotizacion | src/hooks/useHistorialCotizaciones.ts:55-58 | Every entry with the id is dropped. Loading the id afterwards finds nothing, and loading any other id finds what it found before. |
| History.SaveThenDelete | src/hooks/useHistorialCotizaciones.ts:27-58 | A saved entry is found by its id. Deleting that id removes it again and leaves what filtering the old history would leave. |
| TableView.TablaDataIsTheTable | src/components/TablaRossHeidecke.tsx:14-115 | The page's copy of the table equals the form's copy row for row, so it has 100 rows of 9 entries. |
| TableView.RowMajorAppend | src/components/TablaRossHeidecke.tsx:158-166 | Two lists in reading order, the first wholly before the second, join into one list in reading order. |
| TableView.RowCellsMeaning | src/components/TablaRossHeidecke.tsx:159-165 | The inner loop pushes exactly the near entries of its row, left to right. |
| TableView.CellsUpToMeaning | src/components/TablaRossHeidecke.tsx:158-166 | The outer loop pushes exactly the near entries of the rows it has visited, in reading order, each once. |
| TableView.Highlight | src/components/TablaRossHeidecke.tsx:158-166 | Every highlighted cell lies inside the 100 by 9 table, and its entry is within 0.5 of the number. |
| TableView.HighlightMeaning | src/components/TablaRossHeidecke.tsx:158-166 | The highlight holds exactly the cells whose entry is within 0.5 of the number, each once, in reading order. |
| TableView.CollectCells | src/components/TablaRossHeidecke.tsx:158-166 | The nested loops push exactly the cells the highlight function lists, in the same order. |
| TableView.TablaRossHeidecke.constructor | src/components/TablaRossHeidecke.tsx:7-10 | The page opens with an empty search and nothing highlighted. |
| TableView.TablaRossHeidecke.IsCellHighlighted | src/components/TablaRossHeidecke.tsx:171-175 | True exactly when the position is in the highlighted list. |
| TableView.TablaRossHeidecke.HandleSearch | src/components/TablaRossHeidecke.tsx:143-169 | The text is kept. An empty text, or one that does not parse as a number, clears the highlight. Otherwise a cell is highlighted exactly when its entry is within 0.5 of the number. |
| TableView.TotalPages | src/components/TablaRossHeidecke.tsx:180 | The fewest pages of 100 rows that hold all the rows. |
| TableView.Slice | src/components/TablaRossHeidecke.tsx:182-185 | An in-range slice is the sub-sequence. A slice that runs past the end is cut back to the end. A slice that starts past the end, or has no width, is empty. |
| TableView.Page | src/components/TablaRossHeidecke.tsx:182-185 | A page holds at most 100 rows, each the row at the page's offset plus its position. Every page before the last is non-empty. |
| TableView.RowOnItsPage | src/components/TablaRossHeidecke.tsx:182-185 | Every row lies on page `i / 100`, at the position the drawing code maps back to row `i`, and that page exists. |
| TableView.SinglePage | src/components/TablaRossHeidecke.tsx:178-185 | The table has exactly one page, page 0 is the whole table, and any later page is empty. |
| Lists.FindIndex | src/lib/payments.ts:89 | The index of the first element that passes, or -1 exactly when none does. |
| Lists.Find | src/lib/payments.ts:40 | The first element that passes, or nothing exactly when none does. |
| Lists.AnyMatch | src/lib/payments.ts:142 | True exactly when some element passes. |
| Lists.Filter | src/lib/payments.ts:16-23 | The result is no longer than the input. Every kept element passes and comes from the input, and every passing element is kept. |
| Lists.FilterCounts | src/lib/payments.ts:16-23 | Each passing element is kept as many times as it occurs; a failing element never is. |
| Lists.FilterPicksKept | src/lib/payments.ts:16-23 | The result reads the input at exactly the passing positions, in increasing order, so the kept elements keep their order. |
| Lists.FilterAppend | src/lib/payments.ts:16-23 | Filtering a concatenation filters each part, so the kept elements keep their order. |
| Lists.FilterKeepsAll | src/hooks/useHistorialCotizaciones.ts:56 | A filter every element passes returns the list unchanged. |

## Left out

- Floating point: money, areas, rates and table entries are exact reals.
  - NaN propagation, rounding and the currency formatting (`Intl.NumberFormat`, `toFixed`) are not modelled.
  - `Appraisal.StructureValue` therefore states the formula over reals, not over IEEE doubles.
- The condition rating is a whole number: it comes from a select of the values 1 to 9.
  - The model stores it as `int`.
  - A fractional rating typed by other means is not modelled, so `CotizadorForm.SetField` requires a whole number for that key.
- The table behind `useCalculations` lives in `src/utils/rossHeideckeData`, which is not part of this model. `Appraisal.Appraise` uses the quotation form's table.
- String-to-number coercion (`Number(value)`, `parseFloat`) is not modelled.
  - The validators and `CotizadorForm.Cotizador.HandleInputChange` take already-typed values.
  - `TableView.TablaRossHeidecke.HandleSearch` receives the parsed number as a parameter, where `None` stands for NaN.
- Storage (`localStorage`, `JSON.parse`/`JSON.stringify`) is not modelled.
  - The payments array is a `seq` field, plus a flag for whether the key exists.
  - The history is a `seq` field. Its starting value is the stored list as read back, given to the constructor.
  - Parse errors and the `typeof window` guard are not modelled.
  - `getPaymentsByMonth` and `getPaymentById` are synchronous functions of the stored state.
- Clocks and random ids are parameters: `crypto.randomUUID()`, the two `new Date().toISOString()` reads of `createPayment` (two separate parameters), the one of `updatePayment`, `Date.now().toString()` and the formatted display date.
- Date parsing is not modelled. `Payments.PaymentStore.GetPaymentsByMonth` takes the year and zero-based month of a date string as a function parameter, `dateParts`, instead of calling `new Date(...)`.
- The rental form's other fields (ids, rent-update dates and so on) are not modelled: the rules do not read them.
  - A field the form leaves unset counts as the empty string or 0.
  - The rules' `!x || x <= 0` tests on numbers are therefore `x <= 0`.
- `RentalValidation`: the messages are named constants. The e-mail pattern is decided on the first `@` and the last dot; `JsText.IsEmailMeaning` proves this agrees with the pattern.
- `Payments.PaymentStore.UpdatePayment`: a form that carries `observations: undefined` explicitly is treated like one that omits the key. In JavaScript the explicit `undefined` would overwrite the stored value.
- React rendering, hover state, table visibility and the PDF report are not modelled. So are Firebase, the network clients and the other pages.
