# Fundamiga donation ledger — a Dafny model

Fundamiga produces the daily report of a parking-lot donation drive.

- A worker enters one daily record (*registro diario*) per shift. A record holds a date, a location, the parking category (motos or carros), the donation total with its number of donors, an optional electronic invoice, and three signatures.
- The report turns each record's donation total into one ledger row per anonymous donor. It splits the total at random into "natural" cash amounts: each is a multiple of 50 between the category's minimum (300 for motos, 500 for carros) and 5000, and together they add up exactly to the total.
- A live check in the form tells the user in advance whether a total can be split.
- The report has an editing panel with a saved copy and an editable copy of the rows.
- An invoice section shares an invoice equally among the people on it.
- Two image-service routes store and list signature images. They derive the folder, the `public_id` and the display name of each signature from its name.

This project models the core of that system and proves what it promises:

| module | file | source |
|---|---|---|
| `Tipos` | tipos.dfy | the records of `src/types/index.ts` as datatypes |
| `Calculos` | calculos.dfy | `src/utils/calculosInforme.ts`: the feasibility checks and error kinds; the partition generator (an `array<int>` filled with the minimum, then topped up circularly until nothing remains); the Fisher–Yates shuffle; the ledger rows of several records; the totals |
| `Validacion` | validacion.dfy | the decision inside `useDonacionesValidation` (`src/hooks/usedonacionesvalidation.ts`), as a pure function, and its agreement with the generator |
| `HookRegistro` | registro_diario.dfy | `useRegistroDiario` as a class whose fields are the hook's state cells |
| `Informe` | informe_edicion.dfy | the state and handlers of `InformeConPanelEdicion` as a class |
| `Facturas` | facturas.dfy | `SeccionFacturasElectronicas`: the share per person, the generation loop, the on/off switch |
| `Items` | items.dfy | the delete-and-renumber, append and update handlers on ledger rows, shared by the two components above |
| `Subida` | cloudinary_upload.dfy | the upload route: required fields, folder, slug |
| `Listado` | cloudinary_list.dfy | the listing route: ordered prefix search, file name from the public id, `formatearNombre` |
| `Aritmetica`, `Listas`, `Texto`, `Wrappers` | | sums, `Math.round` of a quotient, removal by index, ASCII character classes, `Option`/`Result` |

`Math.random()` is an arbitrary choice of an index in the range the source computes. Every property therefore holds for every sequence of random draws. The allocation loop `while (restante > 0)` has no explicit bound, and its termination is proved.

## Model

| member | source | states |
|---|---|---|
| Calculos.Minimo | src/utils/calculosInforme.ts:38-49 | The per-donor minimum of a category is a positive multiple of 50 below the maximum 5000. |
| Calculos.ValoresBase | src/utils/calculosInforme.ts:21-36 | Every entry of both denomination tables is a multiple of 50 between the category's minimum and 5000, so an extra `v - MIN` never takes a slot out of range. |
| Calculos.Verificar | src/utils/calculosInforme.ts:52-89 | The checks reject exactly the infeasible requests. A total below `cantidad·MIN` is reported as too low with that minimum. Otherwise a total above `cantidad·5000` is reported as too high with that maximum. Only inside the range is a non-multiple of 50 reported, and its suggestion is exactly the total divided by 50, rounded half up, times 50: a multiple of 50 within 25 of the total. |
| Calculos.FactibleCantidad | src/utils/calculosInforme.ts:52-89 | A request that passes the checks has a non-negative donor count, and a count of 0 only with a total of 0. |
| Calculos.Posibles | src/utils/calculosInforme.ts:100-103 | Every candidate extra is positive, fits both the slot's headroom and the remainder, and comes from a table entry above the minimum. |
| Calculos.PosiblesCompletos | src/utils/calculosInforme.ts:100-103 | Conversely, every table entry whose extra fits both bounds is among the candidates. |
| Calculos.ElegirExtra | src/utils/calculosInforme.ts:106-112 | When some denomination fits, the extra is one of them, drawn from the list of possible extras. When none fits, it is the fallback `min(maxExtra, restante)`. Either way it is a multiple of 50 that fits the headroom and the remainder, and it is 0 only when the slot is already at 5000. |
| Calculos.AnadirExtra | src/utils/calculosInforme.ts:114-115 | Adding a fitting extra to one slot keeps every amount a multiple of 50 in range and raises the sum by exactly the extra. |
| Calculos.PasoReparto | src/utils/calculosInforme.ts:96-117 | One loop step keeps the invariant: sum of the amounts + remainder = total, the remainder a non-negative multiple of 50, every amount in range. |
| Calculos.EstadoInicial | src/utils/calculosInforme.ts:92-93 | Filling every slot with the minimum establishes the loop invariant with remainder `total - cantidad·MIN`. |
| Calculos.DarExtra | src/utils/calculosInforme.ts:97-116 | The loop body changes only slot `i`, by the chosen extra, and keeps the loop invariant. An extra of 0 means slot `i` is at 5000. |
| Calculos.Repartir | src/utils/calculosInforme.ts:92-117 | For a feasible request the allocation loop terminates with `cantidad` amounts, each a multiple of 50 in [MIN, 5000], summing exactly to the total. |
| Calculos.ParticionEnFrontera | src/utils/calculosInforme.ts:92-117 | At the ends of the feasible range the split is forced: all minimums for `cantidad·MIN`, all 5000 for `cantidad·5000`. |
| Calculos.ShuffleArray | src/utils/calculosInforme.ts:124-131 | The shuffle returns a new array of the same length holding the same elements with the same multiplicities. The input is not modified. |
| Aritmetica.SumaPermutacion | src/utils/calculosInforme.ts:124-131 | Two sequences that are permutations of each other have the same sum. |
| Calculos.ParticionPermutada | src/utils/calculosInforme.ts:119-120 | Shuffling a valid split gives a valid split of the same request. |
| Calculos.GenerarDonaciones | src/utils/calculosInforme.ts:44-121 | Fails if and only if the request is infeasible, and then with the first check's error. On success it returns `cantidad` multiples of 50 in [MIN, 5000] summing exactly to the total. |
| Calculos.EscenariosDePrueba | src/utils/calculos.test.ts:6-43 | The scenarios of `calculos.test.ts`: 1000 for ten motos donors is too low (minimum 3000); 5025 is not a multiple of 50 (suggestion 5050); 5000/10 motos, 8000/15 motos and 10000/10 carros are accepted. |
| Calculos.CalcularValorPorDonante | src/utils/calculosInforme.ts:170-173 | 0 for no donors. Otherwise the average rounded to the nearest integer, halves upwards, and exact when the division is exact. For a negative count the rounding bound is stated with the inequalities reversed. |
| Aritmetica.RedondearCociente | src/components/SeccionFacturasElectronicas.tsx:22 | `Math.round(a / b)` on integers: the result is within half a unit of the quotient, with a half rounded towards +∞, for either sign of `b`. |
| Calculos.TotalGeneralConcatenar | src/utils/calculosInforme.ts:160-168 | The donation total, the invoice total and the general total are additive over consecutive groups of records. |
| Calculos.AgregarFilas | src/utils/calculosInforme.ts:144-154 | The inner loop appends one row per amount, in order. It keeps the earlier rows and numbers the new ones with the running counter, so the rows stay numbered by position. |
| Calculos.ParticionadosAgregar | src/utils/calculosInforme.ts:137-142 | Adding an accepted record with a valid split of its donation keeps "one valid split per record". |
| Calculos.PasoTabla | src/utils/calculosInforme.ts:137-154 | One record of the outer loop keeps its invariant: all records so far accepted, the rows are their splits laid end to end, numbered 1..N, and their sum is the records' donation total. |
| Calculos.GenerarItemsTabla | src/utils/calculosInforme.ts:133-158 | Succeeds if and only if every record is accepted. Otherwise it fails with the error of a record all of whose predecessors were accepted. On success: one valid split per record, rows in record order, numbered 1..N across records, N the total number of donors, each row an anonymous cash donation, and the amounts summing to `calcularTotalDonaciones`. |
| Validacion.Validar | src/hooks/usedonacionesvalidation.ts:25-90 | A blank field is valid with no ranges. A parsed count ≤ 0 is invalid with no ranges. Then a non-multiple of 50 is invalid, with floor and ceiling suggestions that are multiples of 50 bracketing the total 50 apart. Otherwise the ranges are `{cantidad·MIN, cantidad·5000}`, and the result is valid exactly inside them, with "too low" or "too high" outside. `isValid` holds exactly when there is no error. |
| Validacion.Sugerencias | src/hooks/usedonacionesvalidation.ts:49-59 | For a non-multiple of 50, `floor(t/50)·50 < t < ceil(t/50)·50`, 50 apart. |
| Validacion.AcuerdoConGenerador | src/hooks/usedonacionesvalidation.ts:36-88 | For any parsed total and count other than 0/0, the hook accepts exactly what `generarDonaciones` accepts without throwing. |
| Validacion.CeroDonantes | src/hooks/usedonacionesvalidation.ts:36-42 | The one disagreement: 0 donors and total 0 are accepted by the generator (an empty split) but rejected by the hook. |
| Validacion.DiagnosticosDistintos | src/hooks/usedonacionesvalidation.ts:49-81 | An out-of-range total that is also not a multiple of 50 is reported by the hook as a granularity error and by the generator as a range error. |
| Validacion.Ejemplos | src/hooks/usedonacionesvalidation.ts:49-88 | Worked cases: 5025/10 motos suggests 5000 or 5050; 1025/10 motos gets different diagnoses from the hook and the generator; 5000/10 carros is valid with range 5000..50000. |
| Tipos.Firmas.With | src/hooks/useRegistroDiario.ts:49 | Setting one role's signature slot gives it the new value and leaves the other two roles' slots unchanged. |
| Listas.SinPosicion | src/hooks/useRegistroDiario.ts:75 | `filter((_, i) => i !== index)` removes exactly position `index` and keeps the order of the rest; an index outside the list removes nothing. |
| Listas.SinPosicionMulticonjunto | src/hooks/useRegistroDiario.ts:75 | Removing position `index` removes exactly one copy of that element and nothing else. |
| HookRegistro.FormularioVacio | src/hooks/useRegistroDiario.ts:62-69 | The cleared form has no location, a zero donation and a zero invoice, and keeps the given date, category and signatures. It is not complete, so it cannot be added again before it is filled in. |
| HookRegistro.Asignar | src/hooks/useRegistroDiario.ts:20-22 | Setting one top-level field changes that field only. |
| HookRegistro.RegistroDiarioHook.RegistrosAcordes | src/hooks/useRegistroDiario.ts:53-60 | Every stored record passed the add guard, so on each of them the live form check and the generator give the same verdict. |
| HookRegistro.RegistroDiarioHook.constructor | src/hooks/useRegistroDiario.ts:5-18 | The hook starts with no records, no invoice rows, and the default form: category carros, zeros, no signatures. |
| HookRegistro.RegistroDiarioHook.HandleInputChange | src/hooks/useRegistroDiario.ts:20-22 | The form gets the one field; the record list and invoice rows are untouched. |
| HookRegistro.RegistroDiarioHook.HandleDonacionChange | src/hooks/useRegistroDiario.ts:24-29 | Only the named half of the donation changes; every other field of the form and the lists stay the same. |
| HookRegistro.RegistroDiarioHook.HandleFacturaChange | src/hooks/useRegistroDiario.ts:31-36 | Only the named half of the invoice changes; every other field of the form and the lists stay the same. |
| HookRegistro.RegistroDiarioHook.HandleItemsFacturasChange | src/hooks/useRegistroDiario.ts:38-40 | The invoice rows are replaced; the form and records stay. |
| HookRegistro.RegistroDiarioHook.HandleFirmaChange | src/hooks/useRegistroDiario.ts:43-51 | Only the signature slot of the given role changes. |
| HookRegistro.RegistroDiarioHook.AgregarRegistro | src/hooks/useRegistroDiario.ts:53-72 | Returns true if and only if the form has a location and a positive donation from a positive number of donors. On false nothing changes. On true the form is appended as the last record, earlier records unchanged, and the form is cleared but keeps date, category and signatures. Every stored record satisfies the check. |
| HookRegistro.RegistroDiarioHook.EliminarRegistro | src/hooks/useRegistroDiario.ts:74-76 | Removes exactly the record at `index`, keeping the others in order; an index outside the list changes nothing. |
| HookRegistro.RegistroDiarioHook.ReiniciarFormulario | src/hooks/useRegistroDiario.ts:78-93 | Both lists become empty and the form returns to its defaults for the given date. |
| Items.Renumerar | src/components/InformeConPanelEdicion.tsx:122 | Renumbering numbers the rows 1..n and changes no other field or amount. |
| Items.RenumerarNumerado | src/components/InformeConPanelEdicion.tsx:122 | A list already numbered 1..n is unchanged by renumbering. |
| Items.EliminarItem | src/components/SeccionFacturasElectronicas.tsx:65-70 | Deleting an existing row shortens the list by one: rows before it keep their place, rows after move up one, only the number changes, the result is numbered 1..n, and the total drops by exactly the deleted amount. An index outside the list only renumbers. |
| Items.EliminarDentro | src/components/InformeConPanelEdicion.tsx:117-125 | The in-range case of deletion: position, content and total of the remaining rows as above. |
| Items.SumaEliminar | src/components/InformeConPanelEdicion.tsx:120 | Filtering out one row lowers the amount total by that row's amount. |
| Items.AgregarItem | src/components/InformeConPanelEdicion.tsx:127-138 | Appending keeps the existing rows, adds one row numbered `length + 1` with amount 0, the given payment method, donor `ANÓNIMO`, empty document and receipt, and observations `SIN OBSERVACIONES`, keeps a 1..n numbering (now 1..n+1), and keeps the total. |
| Items.Editar | src/components/InformeConPanelEdicion.tsx:105-115 | Editing a row changes the named field to the new value and leaves every other field as it was. |
| Items.ActualizarItem | src/components/SeccionFacturasElectronicas.tsx:55-63 | Only the given row changes, and only in the named field. The numbering survives every edit but one of the number itself. The total changes by exactly the difference in that row's amount. |
| Facturas.CalcularValorPorPersona | src/components/SeccionFacturasElectronicas.tsx:20-23 | 0 when there are no people. Otherwise the invoice amount per person, rounded to the nearest integer with halves upwards (also for a negative count). |
| Facturas.GenerarItemsAutomatico | src/components/SeccionFacturasElectronicas.tsx:36-53 | One row per person (none for a non-positive count), numbered 1..n, each an anonymous electronic-invoice row with the same share. Their sum is within n/2 of the invoice amount, and equal to it when the division is exact. |
| Facturas.SumaDeCuotas | src/components/SeccionFacturasElectronicas.tsx:36-53 | n equal rounded shares add up to the invoice amount within n/2, exactly when n divides it. |
| Facturas.EjemploTresPersonas | src/components/SeccionFacturasElectronicas.tsx:36-53 | 100000 over three people gives three rows summing to 99999: the rounding loss is visible. |
| Facturas.SeccionFacturas.constructor | src/components/SeccionFacturasElectronicas.tsx:18 | The invoice section starts switched off. |
| Facturas.SeccionFacturas.HandleToggle | src/components/SeccionFacturasElectronicas.tsx:25-34 | The switch flips. Switching on hands back the generated rows; switching off hands back the empty list. |
| Informe.BuscarFirma | src/components/InformeConPanelEdicion.tsx:176 | The first signature on offer with that name, or none exactly when no signature has it. |
| Informe.EditarRegistro | src/components/InformeConPanelEdicion.tsx:82-98 | Date, location and category are set directly; an amount replaces only its half of the donation. An unknown field name changes nothing. Invoice and signatures never change. |
| Informe.InformeConPanelEdicion.constructor | src/components/InformeConPanelEdicion.tsx:25-30 | Panel closed, editable records are the received ones, invoice copies as given. Both donation-row copies are valid tables of the records, one per donor, numbered by position and summing to the donation total. The shift total is that sum plus the invoice rows. |
| Informe.InformeConPanelEdicion.AbrirPanel | src/components/InformeConPanelEdicion.tsx:57-62 | Opening makes the editable copies equal to the saved copies and the received records. Opening a closed panel changes neither the rows shown, nor the shift total, nor the record whose signatures are printed. |
| Informe.InformeConPanelEdicion.GuardarCambios | src/components/InformeConPanelEdicion.tsx:64-73 | The saved copies become the editable ones, the edits are handed to the parent, and the panel closes. What is shown and its total do not change. With the panel closed, the printed signatures are again those of the first record received, not of the saved edits. |
| Informe.InformeConPanelEdicion.Cancelar | src/components/InformeConPanelEdicion.tsx:75-80 | The edits are discarded: the editable copies are restored from the saved copies and received records, the saved copies are unchanged, and the panel closes showing them. The printed signatures are those of the first record received. |
| Informe.InformeConPanelEdicion.ActualizarRegistro | src/components/InformeConPanelEdicion.tsx:82-98 | Only the given editable record changes, by the field edit above; an unknown field changes nothing; no row copy changes. |
| Informe.InformeConPanelEdicion.RegenerarTabla | src/components/InformeConPanelEdicion.tsx:100-103 | Succeeds exactly when every edited record is accepted by the generator. The editable rows are then a fresh valid table of the edited records; on failure nothing changes. |
| Informe.InformeConPanelEdicion.ActualizarItem | src/components/InformeConPanelEdicion.tsx:105-115 | The editable donation rows get the single-field update; every other part of the state is unchanged. |
| Informe.InformeConPanelEdicion.EliminarItem | src/components/InformeConPanelEdicion.tsx:117-125 | When confirmed, the editable donation rows lose one row and are renumbered; otherwise, and in every other part of the state, nothing changes. |
| Informe.InformeConPanelEdicion.AgregarItem | src/components/InformeConPanelEdicion.tsx:127-138 | Appends a blank cash row to the editable donation rows; nothing else changes. |
| Informe.InformeConPanelEdicion.ActualizarItemFactura | src/components/InformeConPanelEdicion.tsx:141-151 | The same single-field update on the editable invoice rows. |
| Informe.InformeConPanelEdicion.EliminarItemFactura | src/components/InformeConPanelEdicion.tsx:153-160 | The confirmed delete-and-renumber on the editable invoice rows. |
| Informe.InformeConPanelEdicion.AgregarItemFactura | src/components/InformeConPanelEdicion.tsx:162-173 | Appends a blank electronic-invoice row to the editable invoice rows. |
| Informe.InformeConPanelEdicion.CambiarFirma | src/components/InformeConPanelEdicion.tsx:175-185 | Only the first editable record's slot for that role changes. It becomes the first signature on offer with that name, or empty when none has it; every other record and row is unchanged. With the panel open, the printed first record shows that signature. |
| Subida.Carpeta | src/app/api/cloudinary/upload/route.ts:24 | `responsable` goes to `responsable_conteos`; any other role `t` to `t + "s"`. Either way the role name is a proper prefix of its folder. |
| Subida.ReemplazarEspacios | src/app/api/cloudinary/upload/route.ts:31 | `replace(/\s+/g, '_')` leaves no whitespace and never lengthens the text. |
| Subida.RachaDeEspacios | src/app/api/cloudinary/upload/route.ts:31 | A maximal whitespace run between words becomes exactly one underscore, and the text around it is copied. |
| Subida.SinEspaciosSeCopia | src/app/api/cloudinary/upload/route.ts:31 | Text without whitespace passes through unchanged. |
| Subida.Slug | src/app/api/cloudinary/upload/route.ts:31 | The `public_id` has no whitespace, no upper-case letter, and is at most as long as the name. |
| Subida.SlugIdempotente | src/app/api/cloudinary/upload/route.ts:31 | Slugging a slug changes nothing. |
| Subida.ReemplazoConservaTexto | src/app/api/cloudinary/upload/route.ts:31 | Apart from whitespace and underscores, the replacement loses, adds and reorders no character. |
| Subida.SlugConservaTexto | src/app/api/cloudinary/upload/route.ts:31 | The slug keeps the lower-cased name's characters other than whitespace and underscores, in order. |
| Subida.Subir | src/app/api/cloudinary/upload/route.ts:12-31 | A missing file, or a missing or empty role or name, gets a 400 and nothing is uploaded. Otherwise the upload goes to `firmas/<carpeta>` under the slug of the name. |
| Texto.Minusculas | src/app/api/cloudinary/upload/route.ts:31 | `toLowerCase` (ASCII) keeps the length and lower-cases each letter position-wise. |
| Listado.BuscarPunto | src/app/api/cloudinary/list/route.ts:69 | The backward scan finds a position where `/\.[^/.]+$/` matches, or reports that none exists. |
| Listado.QuitarExtension | src/app/api/cloudinary/list/route.ts:69 | When the extension pattern matches (a dot, then at least one character, none a dot or slash, to the end), the name loses that suffix. Otherwise it is unchanged. |
| Listado.Segmentos | src/app/api/cloudinary/list/route.ts:78 | `split(/[_-]/)` gives one more piece than there are separators. No piece holds a separator. The pieces laid end to end are the text without separators, and interleaving them with the text's separators, in order, gives the text back, so each cut is exactly at a separator. |
| Listado.Separadores | src/app/api/cloudinary/list/route.ts:78 | The separators of the text, in order, are all `_` or `-`. |
| Listado.SegmentosDeIntercalar | src/app/api/cloudinary/list/route.ts:78 | Splitting separator-free pieces interleaved with separators gives those pieces back. |
| Listado.SegmentosUnicos | src/app/api/cloudinary/list/route.ts:78 | The split is the only list of separator-free pieces that interleaves with the text's separators to give the text. |
| Listado.Capitalizar | src/app/api/cloudinary/list/route.ts:79-82 | Same word up to case, same length; first letter upper-case, the others lower-case. |
| Listado.NoVacias | src/app/api/cloudinary/list/route.ts:83 | The filter keeps exactly the non-empty words: every one of them, as often as it occurs, and nothing else. |
| Listado.FiltrarAntesDeCapitalizar | src/app/api/cloudinary/list/route.ts:77-84 | Capitalising preserves emptiness, so filtering after the map equals filtering before it. |
| Listado.PalabrasSonSegmentos | src/app/api/cloudinary/list/route.ts:77-84 | The words are exactly the non-empty segments, in order, each capitalised: same text up to case, non-empty, first letter upper-case, rest lower-case. |
| Listado.PalabrasSinSeparadores | src/app/api/cloudinary/list/route.ts:77-84 | No `_` or `-` survives into the words. |
| Listado.UnirSinSeparadores | src/app/api/cloudinary/list/route.ts:84 | Joining words free of separators with single spaces adds no separator. |
| Listado.FormatearNombre | src/app/api/cloudinary/list/route.ts:67-85 | A name that is blank once its extension is stripped comes back unchanged. Otherwise the result is the capitalised non-empty segments joined by single spaces, with no `_` or `-`. |
| Listado.EjemplosFormato | src/app/api/cloudinary/list/route.ts:67-85 | `ana_paz.png` is displayed as `Ana Paz`. |
| Listado.UltimoSegmento | src/app/api/cloudinary/list/route.ts:45 | `split('/').pop()` is a suffix without slashes, preceded by a slash unless it is the whole text. |
| Listado.NombreArchivo | src/app/api/cloudinary/list/route.ts:45 | The file name is the last path segment, or the whole id when that segment is empty. It is a suffix of the id, empty only for an empty id, and free of slashes unless the id ends in a slash. |
| Listado.UltimoSegmentoSinBarra | src/app/api/cloudinary/list/route.ts:45 | The last segment after a final slash and slash-free text is that text. |
| Listado.EjemplosNombreArchivo | src/app/api/cloudinary/list/route.ts:45 | `firmas/x/ana_paz` names `ana_paz`; `firmas/` falls back to the whole id. |
| Listado.Prefijos | src/app/api/cloudinary/list/route.ts:15-21 | Five prefixes are tried, the first being `firmas/` plus the role. The upload folder under `firmas/` is among them. The first three extend `firmas/` plus the role, and the last two extend the role. |
| Listado.PrefijoExtendido | src/app/api/cloudinary/list/route.ts:15-21 | A prefix stays a prefix when both sides are put after the same text and the longer one is extended. |
| Listado.PrimerResultado | src/app/api/cloudinary/list/route.ts:23-42 | The resources of the first prefix whose lookup succeeds with something, all earlier ones having found nothing or failed. Empty exactly when no prefix finds anything. |
| Listado.BuscarRecursos | src/app/api/cloudinary/list/route.ts:23-38 | The loop returns that first result and looks prefixes up in order. It stops right after the first hit, with every earlier lookup empty or failed, and looks up all prefixes when none hits. |
| Listado.Listar | src/app/api/cloudinary/list/route.ts:9-55 | A missing or empty `tipo` gets a 400 with no lookup. Otherwise one entry per resource of the first successful prefix, in order, each with its public id and the display name formatted from its file name. |
| Listado.SubidaSeLista | src/app/api/cloudinary/list/route.ts:15-21 | The folder an upload for a role goes to is one of the prefixes the listing tries for that role. A slash-free slug is listed under itself as file name. The uploaded id also extends the first prefix tried. |

## Left out

- Markup, styling, printing, timers, tabs and the `alert`/`confirm` dialogs are not modelled. The confirmation is a boolean argument of the delete handlers.
- The image-service calls (upload stream, resource listing, deletion) and the fetch-based signature service are network I/O. The listing lookup is a function parameter that answers `None` for a failed call. The upload route returns the folder and id it would upload under. The image URL built from an environment variable is left out, and so is the delete route.
- Error messages and `toLocaleString('es-CO')` formatting: only the error kinds and their numeric fields are modelled.
- Parsing of form text (`parseInt`, `Number`, `NaN`): the validation takes already-parsed integers, with `Vacio` standing for every value the hook treats as blank.
- Dates: `new Date()` defaults are a `fecha` parameter.
- Case mapping and whitespace are ASCII only (letters A–Z/a–z; space, tab, line feed, vertical tab, form feed, carriage return); the Unicode behaviour of `toUpperCase`, `toLowerCase`, `\s` and `trim` is not modelled.
- Numbers are unbounded integers: floating-point division, `Math.round` on inexact doubles and non-integer amounts are not modelled. The rounded quotient is the exact rational `a / b` rounded half up.
- The statistical behaviour of `Math.random` (how likely each denomination is, the variety of values) is not modelled, only that every draw is some in-range index.
- `generarValoresDonantes` is deprecated and not modelled; it scales by a random floating-point factor.
- Informe.InformeConPanelEdicion: the `registros` and `itemsFacturas` props are fixed for the component's lifetime. A parent re-render with new saved records, which a later open, cancel or first-record display would then use, is not modelled.
- The React re-render model: handlers apply their updates at once, as assignments to fields, rather than batched state updates. In `InformeConPanelEdicion` the initial values given to `useState` are expressions, not functions. So `generarItemsTabla(registros)` runs twice on every render. After mount its results are discarded, and it throws on any render whose records it rejects. The model runs it only in the constructor.
- Informe.InformeConPanelEdicion.constructor: requires every record to be accepted by the generator. For any other record list the source's `generarItemsTabla` throws during rendering and the component does not appear.
- Informe.InformeConPanelEdicion.ActualizarItem, Informe.InformeConPanelEdicion.ActualizarItemFactura and Items.ActualizarItem: these require the index to be in range. The source's indexed assignment outside the list would create a sparse JavaScript array with a partial row, which has no counterpart in sequences.
- Informe.InformeConPanelEdicion.ActualizarRegistro: requires an index in range for a known field. Outside the list, the source behaves in one of two ways. For `fecha`, `ubicacion` and `tipoParqueadero` it writes a partial record into a sparse array. For `valorDonacion` and `cantidadDonantes` it reads `donaciones` of `undefined` and throws a TypeError.
- Informe.InformeConPanelEdicion.CambiarFirma: requires at least one editable record. On an empty list the source reads `firmas` of `undefined` and throws a TypeError.
- HookRegistro.RegistroDiarioHook.HandleFacturaChange: requires the form to have an invoice. Without one the source spreads `undefined` and keeps only the edited field.
- Calculos.GenerarItemsTabla: on failure the source throws, and the model returns the error of the first rejected record. The rows built before the throw are discarded in both.
- The hook and the generator disagree on 0 donors with total 0, and on the order of the granularity and range checks. Validacion.CeroDonantes and Validacion.DiagnosticosDistintos state both differences, and Validacion.AcuerdoConGenerador excludes only 0/0.
