# Purchase Request router — a Dafny model

This project models the Purchase Request router of the robotics team website (`routers/member/purchase.js`). Team members file purchase requests, edit them, and list them. Admins and then mentors approve or reject them. The model covers five parts of the router:

- **Form-field normalisers.** `safeString`, `toNumber`/`mapToNumber`, `toDollarAmount`/`mapToDollarAmount`, `deleteBlanks` and `xss_array` (`FormFields`). They run over the values a url-encoded body parser produces: a string, or an array of strings when a key repeats (`JsValues`). That module also models `parseInt`, `v[0]` and `.shift()` as JavaScript evaluates them, with a `TypeError` as an explicit `Throws` result.
- **Line-item normalisation.** The six parallel line-item fields are normalised by POST /create and POST /edit, then sanitised (`LineItemRows`). The property that matters is that the six arrays keep one common length.
- **Rank gates.** The three rank guards, the role tests of approve and reject, and the permission check of the edit form (`RankGates`). The numeric ranks live outside the router and are a parameter; results that need an order among them say which of two they assume. With mentors ranked below admins, no mentor gets past the admin guard, so only the superadmin override takes approve's mentor branch; as written, an admin's rejection is still recorded in the mentor stage (see Findings). With mentors ranked above admins, which is what the guards' layout suggests, approval works as a two-stage chain, but as written a mentor's rejection is recorded as an admin's (see Findings).
- **Approval updates.** The stored record and the updates approve and reject build (`Approval`).
- **The collection and its handlers.** A class holding the records keyed by `purchase_id`, with create, edit, approve, reject, the edit-form lookup and the JSON listings (`PurchaseStore`).

Each imperative piece is written as a method and proved equal to a specification function. The lemmas state the properties of those functions:
- the `deleteBlanks` backward splice loop;
- the `xss_array` slot-rewriting loop;
- the `.shift()` normalisation;
- the property-by-property construction of the approve and reject queries;
- the listing loop.

The router does not do several things one might expect of an approval workflow, and the model does not add them:
- There is no optimistic-concurrency check and no conflict response.
- A record in state 4 can still be approved or rejected, with status 200.
- POST /edit checks neither the owner nor the state of the record. It always writes approval 0 and the caller as submitter.
- Create names no approval code. The code comes from the schema default, which is a parameter here.

## Model

| member | source | states |
|---|---|---|
| JsValues.At0 | routers/member/purchase.js:158-164 | `v[0]` throws exactly on undefined and null; it yields "" only for an array whose first element is "" |
| JsValues.Shift | routers/member/purchase.js:165-170 | `.shift()` succeeds exactly on arrays and removes the first element; a string throws |
| JsValues.ParseInt | routers/member/purchase.js:28 | `parseInt(s, 10)` reads a number exactly when, after white space, a digit or a sign and a digit follows; the number is negative only after a minus sign |
| JsValues.ParsesAsFloat | routers/member/purchase.js:39-40 | `parseFloat` reads everything `parseInt` reads, and also a leading decimal point that `parseInt` rejects |
| JsValues.ParseIntSkipsSpace | routers/member/purchase.js:28 | leading JavaScript white space never changes what `parseInt` reads |
| JsValues.ParseIntReadsDecimal | routers/member/purchase.js:28 | `parseInt` of white space, then the decimal form of n, then a tail not starting with a digit, is n |
| JsValues.ParseIntDecimalRoundTrip | routers/member/purchase.js:28-29 | `parseInt(String(n), 10)` is n for every integer n |
| FormFields.SafeString | routers/member/purchase.js:23-25 | undefined becomes "", anything else is returned unchanged |
| FormFields.ToNumber | routers/member/purchase.js:27-30 | a number exactly when `parseInt` reads one, and then that number; otherwise the fallback as a decimal string |
| FormFields.ToNumberReadsLeadingInteger | routers/member/purchase.js:27-30 | text such as "  3 pcs" converts to its leading integer |
| FormFields.MapToNumber | routers/member/purchase.js:32-36 | an array is converted element by element with its length kept; a non-array becomes one `toNumber` |
| FormFields.ToDollarAmount | routers/member/purchase.js:38-41 | always a string: the two-decimal rendering when `parseFloat` reads a number, otherwise the fallback |
| FormFields.MapToDollarAmount | routers/member/purchase.js:43-47 | element-wise on an array with its length kept; one `toDollarAmount` otherwise |
| FormFields.BlankAmountFallsBack | routers/member/purchase.js:38-41 | an empty or missing amount falls back to the fallback value |
| FormFields.KeepNonBlankMembers | routers/member/purchase.js:51 | an element survives exactly when it is in the input and is not undefined, null or "" |
| FormFields.KeepNonBlankAppend | routers/member/purchase.js:49-53 | removing blanks distributes over concatenation, so the kept elements stay in order |
| FormFields.KeepNonBlankUnchanged | routers/member/purchase.js:49-53 | an array without blanks is left as it is |
| FormFields.DeleteBlanks | routers/member/purchase.js:49-53 | the backward splice loop leaves exactly the non-blank elements, in order |
| FormFields.XssArrayOf | routers/member/purchase.js:134-143 | a string becomes a one-element array; an array keeps its length and slot i becomes `xss(arr[i])`; undefined and null throw; a number is returned unchanged |
| FormFields.XssArray | routers/member/purchase.js:134-143 | the slot-rewriting loop computes that result |
| LineItemRows.FirstRowBlank | routers/member/purchase.js:158-164 | the first-row test holds exactly when the four text fields start with "" and the first price and quantity are falsy; it cannot throw on six arrays |
| LineItemRows.ShiftAll | routers/member/purchase.js:165-170 | shifting succeeds exactly when all six fields are arrays, and each loses exactly its first element |
| LineItemRows.CreateNormalised | routers/member/purchase.js:146-171 | create's normalisation, case by case: the all-empty form, a blank first row, the rest, and the throwing case |
| LineItemRows.NormaliseForCreate | routers/member/purchase.js:146-171 | the imperative reassignment and shifting compute that result |
| LineItemRows.EditNormalised | routers/member/purchase.js:216-243 | edit's normalisation: an all-empty form becomes six empty arrays, and a blank first row is dropped from all six |
| LineItemRows.NormaliseForEdit | routers/member/purchase.js:216-243 | the imperative version computes that result |
| LineItemRows.ShiftFirstRow | routers/member/purchase.js:237-242 | the six `.shift()` calls, in order, compute `ShiftAll` |
| LineItemRows.SanitisedRows | routers/member/purchase.js:179-184 | sanitising six aligned arrays gives six aligned arrays of the same length |
| LineItemRows.SanitiseRows | routers/member/purchase.js:252-257 | the six `xss_array` calls compute that result |
| LineItemRows.CreateRows | routers/member/purchase.js:146-184 | create never throws on six arrays or on the all-empty form, and writes six arrays for six arrays |
| LineItemRows.EditRows | routers/member/purchase.js:216-257 | edit never throws on six arrays and writes six arrays for them; the all-empty form is written as six empty arrays |
| LineItemRows.DroppingFirstRowKeepsAlignment | routers/member/purchase.js:237-242 | shifting a blank first row off six aligned arrays keeps them aligned, one row shorter |
| LineItemRows.EditRowsAligned | routers/member/purchase.js:216-257 | edit stores six aligned arrays for every aligned or all-empty form, with the row count it should have |
| LineItemRows.CreateRowsAlignedForArrays | routers/member/purchase.js:158-184 | create keeps six aligned arrays aligned |
| LineItemRows.CreateBlankFormLeavesPriceRow | routers/member/purchase.js:146-183 | as written, an all-empty create form stores five empty arrays and a one-element price array, which breaks alignment |
| LineItemRows.CreateNormalisedIntended | routers/member/purchase.js:152-156 | corrected all-empty branch: six empty arrays; otherwise the same as create |
| LineItemRows.CreateIntendedRowsAligned | routers/member/purchase.js:146-184 | with the correction, every aligned or all-empty create form is stored aligned |
| LineItemRows.OneItemFirstRowNotBlank | routers/member/purchase.js:158-164 | on a form with one line item, whose six fields arrive as single strings, the first-row test is false and does not throw |
| LineItemRows.OneItemSanitised | routers/member/purchase.js:134-143 | the conversions wrap the four text fields and the price in one-element arrays, and leave a readable quantity as a bare number |
| LineItemRows.OneItemFormStoresBareQuantity | routers/member/purchase.js:146-257 | unless all six fields are empty, create and edit store a one-item form as five one-element arrays and a quantity that is a bare number when it reads as an integer; the six fields are aligned exactly when it does not |
| LineItemRows.OneItemQuantityTwo | routers/member/purchase.js:216-257 | the one-item edit form ("u", "n", "m", "s", "1.5", "2") is stored with quantity 2 as a bare number, not aligned |
| RankGates.Screen | routers/member/purchase.js:56-62 | a refused caller gets an error page reporting 401, with the reason of a guard its rank is below |
| RankGates.ScreenPassesAll | routers/member/purchase.js:56-62 | guards in sequence admit exactly the callers that pass all of them; a refused caller gets an error page reporting 401, with the reason of the first guard it fails |
| RankGates.Admit | routers/member/purchase.js:56-364 | a caller at or above the whitelist, admin and mentor ranks reaches every route; one below the whitelist rank is refused everywhere with the whitelist message |
| RankGates.AdmitExactly | routers/member/purchase.js:56-364 | a route is reached exactly when the caller passes every guard declared above it |
| RankGates.MentorReachesApproveOnlyIfRankedAsAdmin | routers/member/purchase.js:283-298 | a caller of mentor rank reaches /admin/approve exactly when the mentor rank is at least the admin and whitelist ranks |
| RankGates.OrderedMentorListNeedsAdmin | routers/member/purchase.js:283-367 | with mentors ranked below admins, /mentor needs admin rank, and a mentor is refused with the clearance message |
| RankGates.OrderedApproveMentorBranchNeedsOverride | routers/member/purchase.js:283-298 | with mentors ranked below admins, past the admin guard only the superadmin override takes approve's mentor branch |
| RankGates.ApproveAsMentor | routers/member/purchase.js:298 | below superadmin, approve takes the mentor branch exactly for the mentor rank; at or above it, the `mentor: 'true'` override decides for anyone else |
| RankGates.RejectAsMentor | routers/member/purchase.js:327 | as written: below superadmin, reject takes the mentor branch exactly for the admin rank; at or above it, the override decides for anyone else |
| RankGates.MentorAboveAdminGates | routers/member/purchase.js:283-364 | with mentors ranked above admins, /mentor needs mentor rank and refuses admins; a mentor reaches approve and reject, takes approve's mentor branch, and as written does not take reject's |
| RankGates.AdminRejectTakesMentorBranch | routers/member/purchase.js:298-327 | as written, a caller of exactly admin rank takes reject's mentor branch but approve's admin branch |
| RankGates.LowerAscii | routers/member/purchase.js:210 | lower-casing keeps the length and maps exactly A-Z to a-z |
| RankGates.LowerAsciiIdempotent | routers/member/purchase.js:210 | lower-casing twice is lower-casing once |
| RankGates.MayEdit | routers/member/purchase.js:210 | the edit form is shown exactly when the code is at most 1 and the caller's email has the submitter's length and matches it character by character up to ASCII case; anyone else is refused |
| RankGates.MayEditRefusesOthers | routers/member/purchase.js:210 | a pending record submitted by "bob@x" is not editable by "ann@x" |
| RankGates.LowerAsciiEqual | routers/member/purchase.js:210 | two emails lower-case to the same string exactly when they have one length and agree character by character up to ASCII case |
| RankGates.MayEditIgnoresCase | routers/member/purchase.js:210 | whether the edit form is shown does not depend on the case of the caller's email |
| Approval.Apply | routers/member/purchase.js:311 | an update overwrites exactly what it names and keeps the rest |
| Approval.Decision | routers/member/purchase.js:299-302 | a decision sets the approval code and one stage's stamp, and nothing else |
| Approval.ApproveQuery | routers/member/purchase.js:296-310 | approval is 4 exactly on the mentor branch, with the mentor stamp only; otherwise 2, with the admin stamp only |
| Approval.RejectQuery | routers/member/purchase.js:325-339 | approval is 3 exactly on the mentor branch as written, with the mentor stamp only; otherwise 1, with the admin stamp only |
| Approval.BuildApproveQuery | routers/member/purchase.js:296-310 | the property-by-property query object equals `ApproveQuery` |
| Approval.BuildRejectQuery | routers/member/purchase.js:325-339 | the property-by-property query object equals `RejectQuery` |
| Approval.DecisionTouchesOnlyItsStage | routers/member/purchase.js:298-311 | applied to any record, a decision changes only the code and that stage's stamp; the submitter, the fields and the other stamp are kept |
| Approval.ApproveIgnoresPriorState | routers/member/purchase.js:295-321 | from any prior state approve ends in 4 or 2, so an admin re-approval turns 4 back into 2; the other stage's stamp is kept |
| Approval.RejectIgnoresPriorState | routers/member/purchase.js:324-350 | from any prior state reject ends in 3 or 1; the other stage's stamp is kept |
| Approval.AdminRejectIsRecordedAsMentorRejection | routers/member/purchase.js:327-332 | as written, with mentors ranked below admins, an admin's rejection is stored as a mentor's: code 3 with the mentor stamp |
| Approval.MentorRejectIsRecordedAsAdminRejection | routers/member/purchase.js:298-339 | as written, with mentors ranked above admins, a mentor's rejection is stored as an admin's (1, admin stamp) while the mentor's approval is 4, and an admin's rejection is 3 |
| Approval.RejectQueryIntended | routers/member/purchase.js:327 | corrected reject: 3 with the mentor stamp exactly under approve's mentor test, otherwise 1 with the admin stamp |
| Approval.IntendedRejectMirrorsApprove | routers/member/purchase.js:327-339 | with the correction, under either order, an admitted caller's rejection differs from the code as written exactly when the caller has the admin or the mentor rank; an admin's rejection is 1, and with mentors above admins a mentor's rejection is 3 |
| PurchaseStore.StoredFields | routers/member/purchase.js:172-186 | text fields and tax are stored as single strings, shipping as a one-element array, and the line items as computed |
| PurchaseStore.CreatedRecord | routers/member/purchase.js:172-187 | the created record has the schema's default code, the caller as submitter, create's line items and no stamps |
| PurchaseStore.EditUpdate | routers/member/purchase.js:245-261 | the edit update writes approval 0, the caller as submitter and the edited fields, and no stamps |
| PurchaseStore.FilterQuery | routers/member/purchase.js:80-89 | only "my" puts the caller's email in the query, and no approval-code query contains 1 or 4; only the unfiltered listing and "my" show such records |
| PurchaseStore.FilterKeeps | routers/member/purchase.js:80-89 | "my" keeps exact submitter matches, "admin" codes 0 and 3, "mentor" code 2, anything else everything |
| PurchaseStore.SortedDescending | routers/member/purchase.js:91 | the ids are strictly descending and are exactly the given set |
| PurchaseStore.Listing | routers/member/purchase.js:91-98 | the rows are in strictly descending id order, every row is a matching stored record, and every matching record is listed |
| PurchaseStore.Store.FindOneAndUpdate | routers/member/purchase.js:311-319 | a database error or a missing id writes nothing; otherwise exactly that record is updated |
| PurchaseStore.Store.Approve | routers/member/purchase.js:295-321 | 500 on a database error, 404 on a missing id, else 200 with the record updated by `ApproveQuery` |
| PurchaseStore.Store.Reject | routers/member/purchase.js:324-351 | 500, 404, or 200 with the record updated by `RejectQuery` |
| PurchaseStore.Store.Edit | routers/member/purchase.js:215-279 | a throwing form, a database error or a missing id writes nothing; otherwise the record gets `EditUpdate` |
| PurchaseStore.Store.Create | routers/member/purchase.js:145-205 | a throwing form or a database error writes nothing; otherwise `CreatedRecord` is inserted under the new id |
| PurchaseStore.Store.EditForm | routers/member/purchase.js:207-213 | not found on error or a missing id; the edit form exactly when the submitter matches case-insensitively and the code is at most 1; the view otherwise |
| PurchaseStore.Store.ListObjects | routers/member/purchase.js:79-120 | 500 on a database error; otherwise exactly `Listing` of the filter's query |
| PurchaseStore.EditIgnoresOwnerAndState | routers/member/purchase.js:245-261 | edit writes approval 0 and the caller as submitter into any record, whatever its owner or code, and keeps both stamps |
| PurchaseStore.EditKeepsRowsAligned | routers/member/purchase.js:216-257 | a stored edit of an aligned or all-empty form has aligned line items |
| PurchaseStore.EditableButNotListedAsMine | routers/member/purchase.js:210 | a record can be editable by a caller whose "my" list does not show it, because one check ignores case and the other does not |

## Left out

- Express plumbing, template rendering, redirects, and the cookie parser and CSRF middleware (routers/member/purchase.js:3-21) are framework glue. The render-only routes (`/`, `/list/`, `/list_my` at 126-128, GET `/create` at 130-132, `/admin`, `/mentor`) appear only as `RankGates.Route`, for their access.
- GET /view/:purchase_id (72-77) only renders a record, with `totalCost()` from models/purchase.js. The schema and `totalCost` are not part of this model, and neither is the `total_cost` each listed row carries.
- Email through nodemailer (194-203, 268-277) is an external call.
- `xss` is a parameter: the filtering it does is not modelled.
- PurchaseStore.Store.Create: the id comes from the schema, which is not part of this model, so the new id is a parameter assumed not in use. The default approval code is also a parameter.
- FormFields.ToDollarAmount: the floating-point value and its `toFixed(2)` rendering are a parameter. Only the test for "NaN" is modelled exactly.
- JsValues.ParseInt: the model does not represent -0, or the loss of precision above 2^53. It also ignores the exponent notation `String(n)` uses for very large numbers.
- RankGates.LowerAscii: it lower-cases ASCII letters only. JavaScript's `toLowerCase` also maps other Unicode letters.
- FormFields.DeleteBlanks and FormFields.XssArray return the new array instead of changing their argument in place. In create's all-empty branch five fields alias one shared empty array; in edit's, all six do. That sharing is not modelled, and it changes nothing there.
- The schema's cast of a bare value into a one-element array is not modelled, because models/purchase.js is not part of this model. `LineItemRows.OneItemFormStoresBareQuantity` describes the values the router hands to the database, before any such cast.
- `deleteBlanks` is never called by the router. It is modelled on its own.
- Route parameters are integers here. Mongoose's casting of a non-numeric id, which reports an error, is not modelled.
- The caller's email is taken to be a string and the caller's level a number. Both come from authentication code outside this model.
- Callbacks, asynchrony and concurrent requests are not modelled: each handler runs to completion on its own. An edit whose id matches no record is reported as `EditMissing`; in the router, its redirect then throws after the email is sent.
- static/js/scouting.js (browser UI) and index.js (server start-up) are not part of this model.

## Findings

| source | as written | input that shows it | evidently intended | confidence | as-written member | corrected member |
|---|---|---|---|---|---|---|
| routers/member/purchase.js:152-156 | the all-empty create branch resets five line-item fields to [] but not `price_per_unit` | a create form whose six line-item fields are all "": `price_per_unit` is stored as `[xss("0")]` and the other five as [] | reset all six fields, as edit does at 223-228 | not executed | LineItemRows.CreateBlankFormLeavesPriceRow | LineItemRows.CreateIntendedRowsAligned |
| routers/member/purchase.js:327 | reject takes its mentor branch when `level == ranks.admin` | an admin (exactly admin rank, ranks ordered whitelist < mentor < admin < superadmin) rejecting without the override: stored as 3 with the mentor stamp; with ranks ordered whitelist < admin < mentor < superadmin, a mentor's rejection is stored as 1 with the admin stamp | test `ranks.mentor`, as approve does at 298 | not executed | Approval.AdminRejectIsRecordedAsMentorRejection | Approval.IntendedRejectMirrorsApprove |
