# Water-utility billing core, modelled in Dafny

This project models the billing and validation logic of a water utility's admin
dashboard: the progressive water tariff and day arithmetic, the input
validators, the four entity records (customer `KhachHang`, apartment `CanHo`,
water meter `DongHoNuoc`, invoice `HoaDon`) with their defaulting constructors,
`validate()` error maps and JSON projections, the meter-update hook with its
regression guard, and the meter screen's workflow: reading entry, consumption
preview, invoice creation with the advance of the old reading, and payment.

One module per source file:

| module | file | source |
|---|---|---|
| `Js` | `js.dfy` | JavaScript notions the code relies on: absent values, falsy values, `trim()` |
| `Formatters` | `formatters.dfy` | `src/utils/formatters.js` |
| `Validators` | `validators.dfy` | `src/utils/validators.js` |
| `KhachHang` | `khach_hang.dfy` | `src/models/KhachHangModel.js` |
| `CanHo` | `can_ho.dfy` | `src/models/CanHoModel.js` |
| `DongHoNuoc` | `dong_ho_nuoc.dfy` | `src/models/DongHoNuocModel.js` |
| `HoaDon` | `hoa_don.dfy` | `src/models/HoaDonModel.js` |
| `MeterController` | `meter_controller.dfy` | `useUpdateDongHoNuoc` in `src/controllers/dongHoNuocController.js` |
| `MeterScreen` | `meter_screen.dfy` | the handlers of `src/scenes/donghonuoc/DongHoNuoc.jsx` |

Modelling choices:

- Each model constructor `new XModel(data)` is a function `FromData` from an input
  record whose fields are `Option`s (`None` for `undefined` and `null`) to the record.
  Each `x || default` is written out with JavaScript truthiness: `""` and `0` are
  falsy, while arrays and objects are always truthy.
- Each `validate()` is a method that fills the error map key by key, as the source does.
  Its postcondition states, for every key, exactly when the key is present and
  which message it holds. `isValid` holds exactly when the map is empty.
- The regular expressions become computable checks. The e-mail check is proved
  to accept exactly the strings that `^[^\s@]+@[^\s@]+\.[^\s@]+$` matches.
- The hook `useUpdateDongHoNuoc` is a class whose fields are its `error` and
  `isLoading` state. It also keeps a log of the requests it hands to the service.
- The screen is a class holding the selected customer and apartment, the fetched
  meter and invoices, the preview, and the hook. The server's answers are method
  parameters. A request the server accepts is stored as it was sent, so the
  refetch that follows reads back the sent data through the model constructor.
- Ghost state on the screen records the reading ranges invoiced for the selected
  meter. The class invariant says that these ranges never overlap and all lie at
  or below the meter's old reading, as long as every advance of the old reading
  was accepted.

Behaviour of the code worth knowing, all of it proved here:

- After an invoice is stored, the screen asks to advance the old reading to the
  new one, but it does not look at the result (`DongHoNuoc.jsx:220`).
  If that advance is accepted, a second invoice finds nothing to bill. If it is
  refused, the same consumption is billed again for the same amount
  (`MeterScreen.BillTwice`). Invoice creation and the advance are not one atomic
  step, and no inconsistency is reported.
- The controller's guard is not strict: it refuses only a lower reading. The advance
  sends equal readings and relies on that. The strict check is the form's field
  rule, which runs before the hook.
- Payment does not check the current status. Only the pay buttons are hidden for
  invoices that are not unpaid. There is no "already paid" error.
- The tariff accepts a negative consumption and prices it in the first band. The
  screen refuses to bill a consumption that is not positive. Still, a positive
  consumption below 1/12540 m³ is priced at 0, so an invoice of 0 can be created
  (`Formatters.ZeroAmountIffTiny`).
- The meter constructor turns id 0 into `null`, so the screen never reaches the
  hook's create branch (`id === 0`).

## Model

| member | source | states |
|---|---|---|
| `Formatters.Round` | src/utils/formatters.js:80 | `Math.round` gives the integer within half a unit of its argument, halves going up |
| `Formatters.CalculateWaterAmount` | src/utils/formatters.js:50-81 | the amount is the subtotal times 1.1, rounded to the nearest unit |
| `Formatters.SubtotalIsMarginal` | src/utils/formatters.js:62-75 | for consumption ≥ 0, the if/else chain equals marginal pricing, in which each band's rate applies only to the part of the consumption inside that band; so the pieces agree at 10, 20 and 30 |
| `Formatters.BoundariesInLowerBand` | src/utils/formatters.js:62-68 | 10, 20 and 30 m³ are priced in the lower band: at 20 the subtotal is `10·base + 10·tier1`, with no tier2 term |
| `Formatters.AmountAtZero` | src/utils/formatters.js:62-80 | zero consumption costs 0 at any rates |
| `Formatters.RatesUsed` | src/utils/formatters.js:62-68 | up to 10 m³ only the base rate matters; up to 20 only base and tier1; up to 30 tier3 does not matter |
| `Formatters.FirstBand` | src/utils/formatters.js:62-63 | up to 10 m³ the amount is `round(c·base·1.1)` |
| `Formatters.Tier2ChargedAbove20` | src/utils/formatters.js:66-68 | between 20 and 30 m³ a different tier2 rate gives a different subtotal |
| `Formatters.SubtotalNonNegative` | src/utils/formatters.js:62-75 | with non-negative rates, a non-negative consumption has a non-negative subtotal |
| `Formatters.SubtotalMonotone` | src/utils/formatters.js:62-75 | with non-negative rates, the subtotal never decreases as consumption grows |
| `Formatters.AmountMonotone` | src/utils/formatters.js:62-80 | with non-negative rates, the amount never decreases as consumption grows |
| `Formatters.AmountNonNegative` | src/utils/formatters.js:62-80 | with non-negative rates, a non-negative consumption has an amount ≥ 0 |
| `Formatters.TwentyFiveCubicMetres` | src/utils/formatters.js:52-80 | at the default rates, 25 m³ is 169500 before VAT and 186450 after |
| `Formatters.ZeroAmountIffTiny` | src/utils/formatters.js:62-80 | at the default rates, a consumption ≥ 0 is priced at 0 exactly when it is below 1/12540 m³ |
| `Formatters.DaysBetween` | src/utils/formatters.js:89-97 | 0 without a start; otherwise the number of whole days in the absolute difference, never negative |
| `Formatters.DaysBetweenSymmetric` | src/utils/formatters.js:95-96 | swapping the two instants does not change the day count |
| `Validators.IsValidPhone` | src/utils/validators.js:18-21 | true exactly when the string has 10 or 11 characters, all of them `0`–`9` |
| `Validators.EmailCheckMatchesPattern` | src/utils/validators.js:8-11 | the check accepts exactly the strings the e-mail pattern matches: one `@`, no whitespace, a non-empty part before it, and after it a `.` that is neither first nor last |
| `Validators.RequiredCases` | src/utils/validators.js:28-30 | only absent values and `""` are missing; `" "` and `"0"` are present |
| `Validators.BoundInclusiveReadingStrict` | src/utils/validators.js:38-50 | the minimum check admits its bound; the reading check rejects an equal reading and accepts exactly the larger ones |
| `Js.TrimEmptyIffBlank` | src/models/CanHoModel.js:31 | `s.trim() === ""` exactly when every character of `s` is whitespace |
| `KhachHang.FromData` | src/models/KhachHangModel.js:5-15 | text fields default to `""`, nationality to "Việt Nam" (also when empty), id and creation date to null, apartments to `[]` (an empty list is kept) |
| `KhachHang.EmptyCustomer` | src/models/KhachHangModel.js:5-15 | a customer built from no data has empty fields, the default nationality and no apartments |
| `KhachHang.Validate` | src/models/KhachHangModel.js:21-52 | one error per invalid field, with the "required" message taking precedence over the format message; no other keys; `isValid` exactly when the map is empty |
| `KhachHang.EmptyEmailInvalid` | src/models/KhachHangModel.js:30-41 | an empty phone or e-mail also fails the format check, so the required check only chooses the message |
| `KhachHang.ToJson` | src/models/KhachHangModel.js:58-71 | `canho` is present exactly when the list is non-empty; every other field is copied unchanged |
| `KhachHang.ToJsonRoundTrip` | src/models/KhachHangModel.js:5-71 | constructing a customer from its JSON gives back the same customer |
| `CanHo.FromData` | src/models/CanHoModel.js:3-15 | a nested customer's truthy id overrides `khachhang_id`; otherwise `khachhang_id` or null; an apartment number of 0 or NaN becomes null; a missing or zero id becomes null and any other id is kept |
| `CanHo.Validate` | src/models/CanHoModel.js:21-43 | a missing or NaN number gets the required message, a number below 1 the positivity message; a blank building and a missing customer id get errors; `isValid` exactly when the map is empty |
| `CanHo.ZeroNumberBecomesMissing` | src/models/CanHoModel.js:5-29 | an apartment number of 0 is nulled by the constructor, so `validate` reports it as missing |
| `CanHo.ToJson` | src/models/CanHoModel.js:49-56 | `khachhang` is `{id}` exactly when the customer id is truthy, null otherwise; other fields copied |
| `CanHo.ToJsonRoundTrip` | src/models/CanHoModel.js:3-56 | constructing an apartment from its JSON gives back the same JSON |
| `CanHo.FullNameParts` | src/models/CanHoModel.js:62-64 | the full name is the building, then " - Căn hộ ", then the number's decimal text, and the number can be read back from it |
| `DongHoNuoc.FromData` | src/models/DongHoNuocModel.js:2-7 | absent or zero readings become 0; absent or zero ids become null; everything else is kept |
| `DongHoNuoc.TieuThu` | src/models/DongHoNuocModel.js:9-11 | old reading plus consumption is the new reading; the consumption is negative exactly when the new reading is below the old one |
| `DongHoNuoc.EmptyMeter` | src/models/DongHoNuocModel.js:2-11 | a meter built from no data reads 0 and 0 and has consumed nothing |
| `DongHoNuoc.FromDataRoundTrip` | src/models/DongHoNuocModel.js:2-7 | constructing a meter from a constructed meter's data changes nothing |
| `HoaDon.FromData` | src/models/HoaDonModel.js:2-10 | a falsy status becomes unpaid and a given one is kept; a missing total becomes 0; a missing date becomes now; absent or zero ids become null and every other id is kept |
| `HoaDon.EmptyInvoice` | src/models/HoaDonModel.js:2-10 | an invoice built from no data is an unpaid invoice of 0, dated now |
| `HoaDon.PaidStatusKept` | src/models/HoaDonModel.js:9 | a paid status survives construction |
| `HoaDon.FromDataRoundTrip` | src/models/HoaDonModel.js:2-10 | constructing an invoice from a constructed invoice's data, at any later time, changes nothing |
| `MeterController.Dispatch` | src/controllers/dongHoNuocController.js:24-31 | id 0 becomes a creation; any other id, null included, becomes an update of that id; the data is passed on |
| `MeterController.UpdateDongHoNuocHook.constructor` | src/controllers/dongHoNuocController.js:19-20 | no error, not loading, nothing sent |
| `MeterController.UpdateDongHoNuocHook.UpdateDongHoNuoc` | src/controllers/dongHoNuocController.js:37-60 | an update that lowers the reading is refused with the regression message and nothing is sent; otherwise the request is sent; the result is true exactly when the guard passes and the server accepts; the callback runs only then; the error is the server's message on refusal; loading always ends |
| `MeterController.UnchangedReadingPasses` | src/controllers/dongHoNuocController.js:43 | equal readings pass the guard |
| `MeterController.GuardRejectsExactlyRegressions` | src/controllers/dongHoNuocController.js:43-45 | for an update, the guard passes exactly when the new reading is at least the old one |
| `MeterController.CreationBypassesGuard` | src/controllers/dongHoNuocController.js:26-43 | id 0 skips the guard and routes to creation |
| `MeterScreen.InvoiceRequest` | src/scenes/donghonuoc/DongHoNuoc.jsx:206-214 | the invoice sent charges the tariff of the meter's consumption, is unpaid, and refers to the selected customer and the meter |
| `MeterScreen.DisplayedConsumption` | src/scenes/donghonuoc/DongHoNuoc.jsx:413 | the consumption shown is never negative and is either 0 or the meter's consumption |
| `MeterScreen.PreviewConsumption` | src/scenes/donghonuoc/DongHoNuoc.jsx:102-105 | the preview consumption is never negative |
| `MeterScreen.ButtonMatchesHandler` | src/scenes/donghonuoc/DongHoNuoc.jsx:430 | the create button is enabled exactly when the handler's positive-consumption check passes, and then the consumption shown is the one billed |
| `MeterScreen.PreviewMatchesInvoice` | src/scenes/donghonuoc/DongHoNuoc.jsx:100-108 | once a typed reading is saved, the invoice charges the consumption and amount the preview showed for it |
| `MeterScreen.NewInvoiceOffersPayment` | src/scenes/donghonuoc/DongHoNuoc.jsx:310 | an invoice stored without a status offers payment; a paid one does not |
| `MeterScreen.DongHoNuocScreen.constructor` | src/scenes/donghonuoc/DongHoNuoc.jsx:49-59 | nothing selected, no invoices, preview 0 and 0 |
| `MeterScreen.DongHoNuocScreen.SelectKhachHang` | src/scenes/donghonuoc/DongHoNuoc.jsx:128-133 | selects the customer and clears the apartment and meter; invoices are fetched only for a truthy customer id |
| `MeterScreen.DongHoNuocScreen.SelectCanHo` | src/scenes/donghonuoc/DongHoNuoc.jsx:136-142 | selects one of the customer's apartments; its meter is fetched only for a truthy apartment id and passes through the meter constructor |
| `MeterScreen.DongHoNuocScreen.PreviewReading` | src/scenes/donghonuoc/DongHoNuoc.jsx:100-109 | with a meter and non-empty typed text ("0" included, being a truthy string), the preview becomes `max(0, typed − old)` and its tariff; otherwise it is unchanged; the selection and the meter stay |
| `MeterScreen.DongHoNuocScreen.CloseMeterDialog` | src/scenes/donghonuoc/DongHoNuoc.jsx:160-164 | clears the preview; the selection and the meter stay |
| `MeterScreen.DongHoNuocScreen.SubmitReading` | src/scenes/donghonuoc/DongHoNuoc.jsx:167-191 | a missing reading, or one not above the old reading, is rejected by the form with its message and nothing is sent; exactly the readings above the old one pass the form, and for them an update with the unchanged old reading is sent; on acceptance the meter is reread and the preview cleared; the old reading never moves |
| `MeterScreen.DongHoNuocScreen.CreateInvoice` | src/scenes/donghonuoc/DongHoNuoc.jsx:194-238 | without a selection or without positive consumption nothing happens; a refused invoice is reported as failed and changes nothing; a stored invoice is appended, unpaid, at the tariff of the consumption, and an advance to equal readings is sent; if it is accepted the meter read back is the same meter of the same apartment with nothing left to bill, and if refused the meter is unchanged and the hook holds the server's message; each stored invoice adds the range it charged to the record of billed ranges, a refused advance ends the no-overlap guarantee until the next selection, and ranges billed while advances are accepted never overlap |
| `MeterScreen.DongHoNuocScreen.PayInvoice` | src/scenes/donghonuoc/DongHoNuoc.jsx:241-258 | on acceptance only that invoice's status changes, to paid, whatever it was; on refusal nothing changes |
| `MeterScreen.BillTwice` | src/scenes/donghonuoc/DongHoNuoc.jsx:194-238 | billing twice in a row: after an accepted advance the second attempt finds nothing to bill; after a refused one it bills the same amount again |

## Left out

- `formatCurrency` and `formatDate` are not modelled. They only format values through `Intl`.
- Floating point is not modelled. Readings, consumptions and rates are exact reals, and the VAT factor is exactly 11/10.
- Clocks and date parsing are not modelled. Instants are millisecond counts, and the current time is a parameter.
- `Formatters.DaysBetween`: the end instant is always given, so the `new Date()` default is left out. A start instant is taken as present. A start of 0 (the epoch as a number) would be falsy in the source.
- String-to-number coercion (`Number()`, `parseFloat`) and NaN readings are not modelled. Typed readings are reals or absent.
- `Validators.IsValidPhone` and `Validators.EmailCheckMatchesPattern` take strings only. The source's `regex.test` would first turn a non-string into text.
- `CanHo.FromData`: the apartment number is an integer or NaN. Fractional numbers and strings (numeric or not, such as "A1", which the constructor keeps and `validate` reports as not positive) are left out.
- `CanHo.FullNameParts`: a number is written in plain decimal digits. JavaScript's exponent notation for magnitudes of 10^21 and above is not modelled.
- `CanHo.FromData`: a nested customer object is reduced to its id.
- Notifications (`toggleNotification`) are not modelled. The failure message they show is read from hook state that the handler does not see updated.
- Dialog open and close state, the invoice detail dialog and `handleOpenMeterDialog` are not modelled separately. The form's read-only old-reading field is taken to hold the meter's old reading when the form is submitted.
- The effect that refetches on navigation (`DongHoNuoc.jsx:112-125`) is not modelled.
- HTTP services and the server are not modelled. Each answer is a parameter, an accepted request is stored as sent, and the "latest meter" of the apartment is the one just updated.
- The async order of the mutations and the query-cache invalidation are not modelled. The invoice refetch, the advance and the meter refetch run one after another, and the advance's result is not awaited by the handler.
- `createHoaDon` and `updateHoaDonStatus` in `src/controllers/hoaDonController.js` are not part of this model. Only their success or failure enters, as a parameter. Their error and loading state is not modelled.
- `MeterScreen.DongHoNuocScreen.PreviewReading`: the preview effect also runs again whenever the fetched meter changes (after an apartment is selected, a reading is saved or an advance is accepted), using the value still in the field; the model runs it only when a reading is typed and does not recompute the preview after `SelectCanHo`, `SubmitReading` or `CreateInvoice`: `SelectCanHo` and `CreateInvoice` keep the preview, and a saved reading leaves it cleared to 0 by `handleCloseMeterDialog`, where the source recomputes it from the field once the refetched meter arrives. The number `handleOpenMeterDialog` puts in the field is not modelled either: a 0 put there is falsy and leaves the preview unchanged.
- `MeterScreen.DongHoNuocScreen.CreateInvoice`: the record of billed reading ranges starts afresh with each apartment selection. Billing across separate selections of the same apartment is not tracked.
- Customers and apartments are passed in as values. The source finds them by comparing ids as strings.
- `src/models/ThongKeModel.js` is not part of this model. It holds statistics for display.
