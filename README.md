# Loan-application widget: form controller and notification handler

A Dafny model of the two halves of a small lead-capture widget for a
Mongolian lender.

- **`api/send-zeel.js`** is a serverless HTTP handler. It answers CORS
  preflights and rejects other methods. It checks that the e-mail API key is
  configured, parses the JSON body and checks the required fields. It then
  resolves the branch's recipient (a per-branch table overrides a default
  inbox) and hands an HTML e-mail to the provider. The e-mail's table rows are
  built from the fields, and every cell passes through an HTML `escape`.
- **`src/components/LoanApplicationForm.jsx`** is the form that posts to it.
  It keeps a draft of six fields, per-field error messages, a submitting flag
  and a result message. It has a phone input that keeps at most eight digits,
  and two searchable dropdowns (loan type, branch) whose option filter ignores
  case.

Layout:

- `wrappers.dfy` (`Wrappers`): `Option`, which stands for JavaScript's
  `undefined`/`null`.
- `js_string.dfy` (`JsString`): the string built-ins the code relies on.
  These are truthiness and `||`, `trim`, `toLowerCase`, `includes`,
  `replace(/c/g, …)`, `replace(/\D/g, '')` and `slice(0, n)`, each with the
  lemmas that characterise it.
- `send_zeel.dfy` (`SendZeel`): `escape` and its inverse (entity decoding),
  `getToEmail`, the row list of `buildHtml`, and `handler` as a method.
  Inputs are the request, the configuration and the provider's answer.
  Outputs are the response and the e-mail handed to the provider, if any.
- `loan_form.dfy` (`LoanApplicationForm`): the option lists, label lookup, the
  dropdown filter, the phone filter, validation, the submitted payload, and
  two classes: `CustomSelect` (open flag and filter text) and `FormController`
  (draft, errors, submitting flag, message).
- `end_to_end.dfy` (`EndToEnd`): the form's request fed to the handler, and
  the handler's answer read back by the form.

The network result is an input on both sides. The server gets the provider's
answer as `SendResult`. The form gets the HTTP outcome as `FetchOutcome`.

## Model

| member | source | states |
|---|---|---|
| JsString.TrimStartSpec | src/components/LoanApplicationForm.jsx:118-120 | dropping leading white space keeps a suffix that starts with a non-space and removes only white space |
| JsString.TrimEndSpec | src/components/LoanApplicationForm.jsx:118-120 | dropping trailing white space keeps a prefix that ends with a non-space and removes only white space |
| JsString.TrimSpec | src/components/LoanApplicationForm.jsx:118-120 | `trim` leaves no white space at either end, and is empty exactly when the text is all white space |
| JsString.TrimIdempotent | src/components/LoanApplicationForm.jsx:141-143 | trimming twice equals trimming once |
| JsString.ToLower | src/components/LoanApplicationForm.jsx:27 | `toLowerCase` keeps the length |
| JsString.ToLowerIdempotent | src/components/LoanApplicationForm.jsx:27 | lower-casing twice equals lower-casing once |
| JsString.IncludesIffOccurs | src/components/LoanApplicationForm.jsx:27 | the left-to-right `includes` scan succeeds exactly when the text occurs at some index |
| JsString.ReplaceCharAppend | api/send-zeel.js:77-80 | a global one-character replace rewrites the two halves of a concatenation independently |
| JsString.Digits | src/components/LoanApplicationForm.jsx:221 | `replace(/\D/g, '')` yields only digits and is no longer than its input |
| JsString.DigitsAppend | src/components/LoanApplicationForm.jsx:221 | the digit filter distributes over concatenation, so every digit of the input is kept, in order |
| JsString.DigitsOfChar | src/components/LoanApplicationForm.jsx:221 | one character survives the digit filter exactly when it is a digit |
| JsString.DigitsOfDigits | src/components/LoanApplicationForm.jsx:221 | the digit filter leaves a string of digits unchanged |
| JsString.Take | src/components/LoanApplicationForm.jsx:221 | `slice(0, n)` is the prefix of length min(len, n) |
| SendZeel.Escape | api/send-zeel.js:74-81 | null or empty input gives the empty string; any other input is escaped character by character (`&`, `<`, `>`, `"` to their entities) |
| SendZeel.EscapeText | api/send-zeel.js:76-80 | the chain of four global replaces, `&` first; what it computes is stated by `EscapeTextIsPerChar` |
| SendZeel.EscapeTextAppend | api/send-zeel.js:76-80 | the four chained replaces escape the two halves of a concatenation independently |
| SendZeel.ReplaceCharAbsent | api/send-zeel.js:77-80 | a replace of a character that does not occur changes nothing |
| SendZeel.EscapeTextChar | api/send-zeel.js:76-80 | on one character the chained replaces give that character's entity, so an `&` introduced by an earlier replace is never escaped twice |
| SendZeel.EscapeTextIsPerChar | api/send-zeel.js:76-80 | the replace chain, `&` first, equals per-character escaping |
| SendZeel.EscapeFreeOfMarkup | api/send-zeel.js:76-80 | escaped text holds no raw `<`, `>` or `"` |
| SendZeel.EscapeIdentityOnSafe | api/send-zeel.js:76-80 | text without `&`, `<`, `>`, `"` is returned unchanged |
| SendZeel.EscapeLength | api/send-zeel.js:76-80 | output length = input length + 4·#`&` + 3·#`<` + 3·#`>` + 5·#`"` |
| SendZeel.DecodeEscapedChar | api/send-zeel.js:76-80 | decoding an escaped character followed by any text gives back the character, then the decoding of that text |
| SendZeel.DecodeEscape | api/send-zeel.js:76-80 | decoding the entities of escaped text gives back the original text (escape is injective) |
| SendZeel.GetToEmail | api/send-zeel.js:8-16 | a parsed table with a non-empty entry for the branch gives that entry; otherwise (no table, unparseable, no entry) the default inbox; a recipient exists exactly when one of the two exists |
| SendZeel.MakeRowFaithful | api/send-zeel.js:23-24 | both cells of a row decode to the label and the value, and neither holds raw markup |
| SendZeel.BuildRows | api/send-zeel.js:25-32 | five rows, plus a sixth exactly when the comment is non-empty |
| SendZeel.BuildRowsFaithful | api/send-zeel.js:18-32 | the rows show, in order, Овог, Нэр, Утас (`+976 ` + phone), Зээлийн төрөл, Салбар with their values, then Тайлбар only for a non-empty comment; no cell holds raw markup |
| SendZeel.Subject | api/send-zeel.js:120 | the subject starts with `Зээлийн хүсэлт: `, the branch label and ` - `, and ends with the name and the surname |
| SendZeel.Handle | api/send-zeel.js:83-136 | CORS headers on every answer; OPTIONS 200; other non-POST 405; no API key 500; unparseable body 400; a missing required field 400; no recipient 500; none of these sends; otherwise the e-mail's sender, recipient and subject, and rows that are exactly the escaped rows built from the fields, show the label/value pairs and hold no raw markup, and 200 with the id, 400 with the provider message or "Resend error", or 500 with the thrown message or "Failed to send email" |
| LoanApplicationForm.OptionListsWellFormed | src/components/LoanApplicationForm.jsx:3-16 | both option lists have distinct codes and non-empty labels |
| LoanApplicationForm.Find | src/components/LoanApplicationForm.jsx:23 | `find` gives nothing exactly when no option has the code, and otherwise the first option with that code |
| LoanApplicationForm.FindKnownCode | src/components/LoanApplicationForm.jsx:132-133 | in a list with distinct codes, finding an option's code gives that option |
| LoanApplicationForm.LabelFor | src/components/LoanApplicationForm.jsx:132-133 | the label sent is the code itself or the label of an option with that code; it is the first such option's label when that label is non-empty; it is non-empty for a non-empty code |
| LoanApplicationForm.LabelForCases | src/components/LoanApplicationForm.jsx:132-133 | a listed code is sent with its option's label; an unlisted code is sent as its own label |
| LoanApplicationForm.DisplayValue | src/components/LoanApplicationForm.jsx:23-24 | the closed dropdown shows the label of the first option with the current code, and `''` when no option has it |
| LoanApplicationForm.KeepMatching | src/components/LoanApplicationForm.jsx:26-28 | the filtered list is no longer than the options and holds exactly the options whose lower-cased label contains the lower-cased filter |
| LoanApplicationForm.KeepMatchingAppend | src/components/LoanApplicationForm.jsx:26-28 | filtering preserves order: it distributes over concatenation |
| LoanApplicationForm.KeepMatchingEmptyFilter | src/components/LoanApplicationForm.jsx:25-29 | filtering by the empty text keeps every option, since every label contains it |
| LoanApplicationForm.FilterOptions | src/components/LoanApplicationForm.jsx:25-29 | the listed options are exactly the order-preserving filter result, and all options for an empty filter |
| LoanApplicationForm.FilterIgnoresCase | src/components/LoanApplicationForm.jsx:25-29 | a filter lists the same options as its lower-cased form |
| LoanApplicationForm.PhoneFilter | src/components/LoanApplicationForm.jsx:221 | only digits, at most 8, and exactly the first min(8, #digits) digits of the input in order |
| LoanApplicationForm.PhoneFilterIdempotent | src/components/LoanApplicationForm.jsx:221 | filtering a filtered phone number changes nothing |
| LoanApplicationForm.Form.With | src/components/LoanApplicationForm.jsx:111 | `{ ...prev, [field]: value }` sets that field and leaves every other field as it was |
| LoanApplicationForm.ErrorsAmongAdd | src/components/LoanApplicationForm.jsx:117-122 | checking one more field adds its message exactly when that field is missing |
| LoanApplicationForm.CompleteIffNothingMissing | src/components/LoanApplicationForm.jsx:116-124 | a draft is complete exactly when no field is missing |
| LoanApplicationForm.NoErrorsWhenNothingMissing | src/components/LoanApplicationForm.jsx:116-124 | with nothing missing the error map is empty |
| LoanApplicationForm.ErrorExactlyWhenMissing | src/components/LoanApplicationForm.jsx:118-122 | a field has an error exactly when it is missing (blank after trim for surname/name/phone, empty for loan type/branch), with its own non-empty message |
| LoanApplicationForm.ValidationErrorsEmptyIff | src/components/LoanApplicationForm.jsx:116-124 | the error map is empty (has zero keys) exactly for a complete draft, and never mentions the comment |
| LoanApplicationForm.PayloadOf | src/components/LoanApplicationForm.jsx:132-149 | the posted codes are the chosen ones, and a chosen code always comes with a non-empty label |
| LoanApplicationForm.OptionsFor | src/components/LoanApplicationForm.jsx:230-249 | the loan-type dropdown is given `LOAN_TYPES` and the branch dropdown `BRANCHES`, both lists with distinct codes and non-empty labels |
| LoanApplicationForm.PayloadLabelsFromLists | src/components/LoanApplicationForm.jsx:132-133 | for a complete draft whose codes come from the lists, both labels posted are the labels of those options, never the raw code |
| LoanApplicationForm.PayloadOfComplete | src/components/LoanApplicationForm.jsx:132-148 | for a complete draft the posted surname, name, phone, branch and both labels are non-empty, and the three text fields have no white space at either end |
| LoanApplicationForm.CollectErrors | src/components/LoanApplicationForm.jsx:116-124 | filling the error object check by check yields exactly the validation error map, and reports valid exactly for a complete draft |
| LoanApplicationForm.CustomSelect.constructor | src/components/LoanApplicationForm.jsx:18-20 | a new dropdown is closed with an empty filter |
| LoanApplicationForm.CustomSelect.ClickTrigger | src/components/LoanApplicationForm.jsx:49 | a click on the trigger toggles `open` and keeps the filter |
| LoanApplicationForm.CustomSelect.Focus | src/components/LoanApplicationForm.jsx:59 | focus opens the dropdown and keeps the filter |
| LoanApplicationForm.CustomSelect.TypeFilter | src/components/LoanApplicationForm.jsx:55-58 | typing sets the filter and leaves the dropdown open |
| LoanApplicationForm.CustomSelect.Choose | src/components/LoanApplicationForm.jsx:77-81 | choosing a listed option reports its code, which belongs to the option list, clears the filter and closes the dropdown |
| LoanApplicationForm.FormController.constructor | src/components/LoanApplicationForm.jsx:95-108 | the controller starts with `INITIAL_FORM`, no errors, not submitting and no message; its codes are unset, so within the lists |
| LoanApplicationForm.FormController.HandleChange | src/components/LoanApplicationForm.jsx:110-114 | sets only that field, drops that field's error, clears the message, leaves the submitting flag; editing a text field keeps the codes within the lists |
| LoanApplicationForm.FormController.EditPhone | src/components/LoanApplicationForm.jsx:221 | the phone input stores the filtered text, so the phone draft is at most eight digits; the codes stay within the lists |
| LoanApplicationForm.FormController.PickOption | src/components/LoanApplicationForm.jsx:230-249 | the loan-type dropdown over `LOAN_TYPES` and the branch dropdown over `BRANCHES`: choosing stores the code of an option of that list in its field, so the draft's codes stay within the lists; it drops the field's error, clears the message and closes the dropdown |
| LoanApplicationForm.FormController.Validate | src/components/LoanApplicationForm.jsx:116-125 | `errors` becomes exactly the validation error map, and the result is true exactly for a complete draft |
| LoanApplicationForm.FormController.HandleSubmit | src/components/LoanApplicationForm.jsx:127-163 | errors are recomputed; an incomplete draft sends nothing and changes nothing else (message cleared); a complete one posts the trimmed payload with looked-up labels; success resets the draft and shows the success text; an HTTP error keeps the draft and shows the server's error or the fallback; a transport failure shows the connection text; after a post the submitting flag is false, and an incomplete draft leaves it as it was; the codes stay within the lists |
| EndToEnd.Observe | src/components/LoanApplicationForm.jsx:151-153 | the form sees success exactly for a 2xx status, and otherwise the `error` property of the body when it has one |
| EndToEnd.ValidDraftHasRequiredFields | api/send-zeel.js:107-110 | a request built from a draft that passes the form's validation never fails the handler's required-field check |
| EndToEnd.CommentRowExactlyWhenWritten | api/send-zeel.js:32 | the e-mail has the comment row exactly when the typed comment is not all white space |
| EndToEnd.Submit | src/components/LoanApplicationForm.jsx:137-158 | a validated draft is e-mailed exactly when the API key is set and its branch has a recipient, with the trimmed fields and looked-up labels as rows (escaped, no raw markup) and subject; the form sees success exactly when it was e-mailed and the provider accepted it; every other answer carries a non-empty error text |

## Left out

- The e-mail provider client (`new Resend(...)`, `resend.emails.send`) is not modelled. Its answer is the input `SendResult`, and the model returns the e-mail it would be given.
- `process.env` is not read. The configuration is a record of optional strings. `BRANCH_EMAILS` is given already parsed: `None` stands for unset, empty, unparseable, or parsed to a value whose lookup gives nothing truthy.
- Table entries of `BRANCH_EMAILS` that are not strings, and keys inherited from `Object.prototype` (a branch named `constructor` finds a function), are not modelled. Neither is a table that parses to a string or an array, where indices and `length` give truthy values (`"abc"["0"]`, `["x"]["length"]`). The table is a map from strings to strings.
- `JSON.parse` of the request body is not modelled. The body is either "not JSON" or a parsed object. A body that parses to a number, boolean or string destructures to all-`undefined` fields, which is `Json` with every field `None` and gives 400 "Missing required fields". A body that is or parses to `null`/`undefined` throws at the destructuring, outside any `try`; that path is not modelled.
- Request fields are optional strings. JavaScript truthiness of numbers, booleans or objects in the body is not modelled.
- The fixed HTML and CSS template around the rows, and the joining of the rows into one string, are not modelled. The rows are modelled as escaped label and value cells.
- `fetch`, `res.json()` and `async`/`await` are not modelled. `HandleSubmit` receives the outcome of the request as `FetchOutcome`, and a body without an `error` property is `HttpError(None)`. Edits made to the draft while the request is in flight are not modelled: a submit is one atomic step.
- React rendering, CSS classes, the logo's `onError`, the disabled submit button and `e.preventDefault()` are presentation and are not modelled.
- The text shown in the dropdown's input (the filter while open, the chosen label while closed) is rendering and is not modelled; the label it shows is `DisplayValue`.
- The `document` mousedown listener that closes the dropdown on an outside click is DOM plumbing and is not modelled.
- JsString.ToLower: maps only ASCII letters, the Cyrillic capitals U+0400–U+042F and the Mongolian Ү and Ө. Every other code point is left as it is, rather than applying full Unicode case mapping.
- LoanApplicationForm.FormController.HandleChange: `errors[field] = null` is modelled as removing the key. All messages are non-empty, so a present key is exactly a truthy one.
- `scripts/test-mail.js` is a one-shot command-line client and is not part of this model.
