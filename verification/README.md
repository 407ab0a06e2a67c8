# Glass-shop front-end: state logic of the shell, the quote calculator and the catalog manager

This project models the state logic of a small React front-end for a glass
retailer (vidriería). An administrator logs in, keeps a catalog of glass types
(name, optional thickness, price per square meter), prices panes of glass
from their height, width and a markup percentage, and saves the resulting
quotes (presupuestos).

Three components hold state. Each has one Dafny module:

- `Shell` (`shell.dfy`) models `App`, the application shell. It is the
  single writer of the session (`user`, `checkingSession`), of the catalog
  handed to the calculator (`glassTypes`) and of the saved quotes
  (`budgets`, newest first). The class `Shell.App` holds that state. The
  list updates `Prepend` and `RemoveById` and the view selection
  `SelectScreen` are functions, because the source writes them as
  expressions.
- `QuoteCalculator` (`calculator.dfy`) models the calculator. The functions
  are the selected glass (`SelectedGlass`, via `FirstIndexOf`) and the live
  preview (`CalcResult`). The class `Calculator` holds the input fields, the
  default-selection effect, the export guard and the save handler.
- `Catalog` (`catalog.dfy`) models the glass-type manager. The class
  `GlassTypesManager` has one method per handler: load, clear, submit, edit
  and delete.

`Api` (`api.dfy`) holds the shared records and the requests the components
send.

Modelling conventions:

- Backend calls are inputs. Each awaited `apiFetch` call is an
  `Outcome<T>` argument: `Success(data)` or `Failure(message)`. Each
  handler runs as one atomic step. It returns the requests it issued, so
  "no call", "PUT and not POST" and "the list is reloaded" are stated about
  its result.
- Numbers are `real`. This is an idealisation of JavaScript doubles.
  `parseFloat` is the class constant `Calculator.parse`. `Number(text)` and
  `Number.prototype.toString` are `GlassTypesManager.toNumber` and
  `GlassTypesManager.numberText`. All three are supplied when the component
  is constructed, and a `None` result stands for NaN.
- JavaScript truthiness is written out. `if (editId)` is false for `null`
  and for `""` (`Catalog.Editing`). `!vidrioId` means the empty string.

The model also records some behaviour the source leaves implicit:

- The catalog form is cleared and the list reloaded only after a successful
  create or update (`src/components/GlassTypesManager.jsx:85-90`). On
  failure the form and the edit target are kept.
- The submit handler itself does not check the price. It sends
  `Number(precioM2)` as it is. The checks sit in the browser's form
  validation in front of the handler: the price input is a required
  non-negative number with step 0.01, and the name is required
  (`src/components/GlassTypesManager.jsx:126-154`).
- Deleting the glass type that is being edited does not clear the edit
  target.
- A selected glass type that disappears from the catalog is never replaced
  by the default. The calculator then has no selection and no preview
  (`QuoteCalculator.RemovedSelectionHasNoPreview`).

## Model

| member | source | states |
|---|---|---|
| Shell.App.constructor | src/App.jsx:13-20 | Initial state: no user, session being checked, empty catalog, empty quote list |
| Shell.App.CheckSession | src/App.jsx:23-38 | Issues one GET on /api/auth/me; success sets `user` to the returned `user`, any failure sets it to none; the checking phase ends in both cases, so the placeholder is no longer shown |
| Shell.App.LoadBudgets | src/App.jsx:41-55 | With no user, no request and the quotes are untouched; with a user, one GET on /api/presupuestos whose success replaces the quotes wholesale and whose failure keeps them |
| Shell.App.SetUser | src/App.jsx:99 | The identity the login form reports becomes the session user |
| Shell.App.Logout | src/App.jsx:58-69 | Issues POST /api/auth/logout and, whatever its outcome, leaves no user and no quotes; the catalog is untouched; once resolved, the login screen is shown |
| Shell.App.NewBudget | src/App.jsx:72-75 | The quote list becomes `Prepend(nuevo, old list)` |
| Shell.App.DeleteBudget | src/App.jsx:78-81 | The quote list becomes `RemoveById(old list, id)` |
| Shell.App.SetGlassTypes | src/App.jsx:114 | The list reported by the catalog manager replaces the catalog wholesale |
| Shell.SelectScreen | src/App.jsx:84-120 | While the session is being checked only the placeholder is shown; otherwise the login screen exactly when there is no user and the full app exactly when there is one |
| Shell.Prepend | src/App.jsx:72-75 | The new quote comes first, the list grows by one and the old list follows in the same order |
| Shell.RemoveById | src/App.jsx:78-81 | The result is no longer than the input, and every quote in it comes from the input and has a different id |
| Shell.RemoveByIdCounts | src/App.jsx:80 | No quote with the id survives; every other quote keeps its number of occurrences |
| Shell.RemoveByIdAppend | src/App.jsx:80 | Filtering distributes over concatenation, so the survivors keep their relative order |
| Shell.RemoveByIdAbsent | src/App.jsx:80 | Deleting an id no quote carries leaves the list unchanged |
| Shell.RemoveByIdIdempotent | src/App.jsx:78-81 | Deleting the same id twice equals deleting it once |
| Shell.PrependThenRemove | src/App.jsx:72-81 | Adding a quote and then deleting it by its id restores the previous list, when that id was not already in the list |
| QuoteCalculator.FirstIndexOf | src/components/Calculator.jsx:39 | The scan of `find`: absent exactly when no entry has the id; otherwise the index of an entry with that id, with no earlier entry having it |
| QuoteCalculator.SelectedGlass | src/components/Calculator.jsx:38-41 | Absent exactly when no catalog entry has the selected id; otherwise the first entry carrying that id |
| QuoteCalculator.CalcResult | src/components/Calculator.jsx:46-59 | Absent exactly when no glass is selected or one of height, width and markup fails to parse; otherwise area = h·w, cost = h·w·price and client price = h·w·price·(1 + markup/100) |
| QuoteCalculator.ZeroMarkupIsCost | src/components/Calculator.jsx:54-58 | With a markup of 0 the client price equals the cost price |
| QuoteCalculator.MarkupNeverLowersPrice | src/components/Calculator.jsx:54-58 | With a non-negative markup and a non-negative cost the client price is at least the cost price |
| QuoteCalculator.PriceExample | src/components/Calculator.jsx:54-58 | Height 2.00, width 1.50, price 100 and markup 30 give area 3, cost 300 and client price 390 |
| QuoteCalculator.RemovedSelectionHasNoPreview | src/components/Calculator.jsx:38-52 | When the catalog no longer holds the selected id, there is no selection and no preview |
| QuoteCalculator.SaveRecheckUnreachable | src/components/Calculator.jsx:121-128 | Once the preview exists all three inputs parse, so the second guard of the save handler never fires |
| QuoteCalculator.Calculator.constructor | src/components/Calculator.jsx:12-35 | Empty inputs, markup "30", no error, not saving; the first run of the default-selection effect selects the first catalog entry if there is one |
| QuoteCalculator.Calculator.ReceiveGlassTypes | src/components/Calculator.jsx:29-35 | A new catalog with nothing selected yet selects its first entry, which then is the selected glass; otherwise the selected id is kept, stale or not |
| QuoteCalculator.Calculator.ExportSummary | src/components/Calculator.jsx:64-68 | The early-return guard shared by the copy and WhatsApp exports: data exists exactly when the preview does; it holds the parsed height and width, the preview's area and client price and the selected glass |
| QuoteCalculator.Calculator.Save | src/components/Calculator.jsx:115-157 | Without a preview: the missing-data message and no request. Otherwise: one POST on /api/presupuestos with the parsed height, width and markup, the selected glass's id and the note unchanged. Success emits the backend's record and leaves no error. Failure emits nothing and shows the message. Saving is false after either outcome |
| Catalog.SubmitRequest | src/components/GlassTypesManager.jsx:72-84 | With a (truthy) edit target the request is PUT on /api/vidrios/{id}, otherwise POST on /api/vidrios, never both; the body is passed on unchanged |
| Catalog.Editing | src/components/GlassTypesManager.jsx:72 | The truthiness of `editId`: no edit target and the empty id both mean "not editing"; editing implies a non-empty id |
| Catalog.GrosorText | src/components/GlassTypesManager.jsx:97 | The thickness shown in the form, falling back to empty text: it is empty exactly when the thickness is missing or empty, and is the thickness otherwise |
| Catalog.GlassTypesManager.constructor | src/components/GlassTypesManager.jsx:13-23 | Empty list, empty form, no edit target, no error, not loading |
| Catalog.GlassTypesManager.Load | src/components/GlassTypesManager.jsx:29-43 | One GET on /api/vidrios. Success replaces the list, clears the error and reports the same data to the shell. Failure keeps the list, shows the message and reports nothing. Loading is false afterwards |
| Catalog.GlassTypesManager.ClearForm | src/components/GlassTypesManager.jsx:51-56 | Name, thickness and price become empty text and the edit target is cleared; the frame allows nothing else to change |
| Catalog.GlassTypesManager.Submit | src/components/GlassTypesManager.jsx:61-91 | First the request `SubmitRequest` picks for the form's body `FormBody` (name, thickness and `Number` of the price text, as at lines 65-69). Success clears the form, leaves edit mode and reloads the list as `Load` does. Failure shows the message and keeps the form, the edit target and the list |
| Catalog.GlassTypesManager.Edit | src/components/GlassTypesManager.jsx:94-99 | The record becomes the edit target; the form gets its name, its thickness or empty text, and the text of its price; the list is not touched |
| Catalog.GlassTypesManager.Delete | src/components/GlassTypesManager.jsx:104-112 | Unconfirmed: no request and no change. Confirmed: one DELETE on /api/vidrios/{id}. Success reloads the list as `Load` does. Failure shows the message and keeps the list |
| Catalog.EditThenSubmit | src/components/GlassTypesManager.jsx:61-99 | Editing a record with a non-empty id and submitting the unchanged form issues a PUT on that record's own path with its name, thickness text and re-read price; success then leaves edit mode with an empty form, failure keeps the record in the form as the edit target, with its name, thickness text and price text |

## Left out

- The transport helper (`src/hooks/useApi.js`) is not modelled. The model
  does not capture its base URL, headers, cookies, content-type parsing, or
  how it picks the error message. Each call is an abstract success or
  failure supplied as input.
- React effect scheduling, `React.StrictMode`'s double run of effects,
  and the async interleaving of handlers are not modelled. Each handler and
  effect is one atomic transition, and the caller decides when the effects
  run. So a quote list that arrives after a logout is not modelled, and
  neither is the in-flight state of `loading` and `saving`. The model only
  sets each flag inside a step and resets it at the end of that step.
- QuoteCalculator.CalcResult: computes over exact reals. It does not model
  IEEE-754 rounding, infinities, or the prefix rules of `parseFloat`. Those
  sit behind the abstract `parse`, where NaN is `None`.
- The text for the clipboard and for the WhatsApp message is not modelled.
  It is built with `toFixed` and sent through `navigator.clipboard`,
  `window.open` and `alert`. Only the guard that both exports share is
  modelled (`ExportSummary`).
- Catalog.GlassTypesManager.Submit: accepts any form. The browser's form
  validation in front of the submit handler is not modelled: the required
  name and the required, non-negative, 0.01-step price input
  (`src/components/GlassTypesManager.jsx:126-154`). This over-approximates
  the handler's inputs: every form the browser lets through is covered.
- Rendering is not modelled: the error banner, the table, the "loading"
  text and the disabled save button. `alert` acknowledgements and
  `console` logging are left out too.
- The `onChange` handlers of the inputs are not modelled as methods. Each
  one only assigns its field, and a caller of the model assigns the
  field directly.
- `src/components/BudgetsList.jsx` is not part of this model. After a
  successful delete it only forwards the quote's id, and
  `Shell.App.DeleteBudget` covers that. The same holds for
  `src/components/LoginForm.jsx`, whose only shared effect is
  `Shell.App.SetUser`. `src/components/HeaderBar.jsx` (DOM menu handling)
  and `src/main.jsx` (React bootstrapping) are not part of this model
  either.
