# Acara (event) create and list flow — a Dafny model

This project models the logic of the dashboard's single resource, the *acara*
(event). It has five modules:

- `Rupiah` (`rupiah.dfy`) covers the price input's formatter and parser. `formatRupiah`
  shows a raw price as `Rp` followed by the digits, with a `.` in front of every
  three-digit group counted from the right. `parseRupiah` keeps only the digits.
  The regular expression `\B(?=(\d{3})+(?!\d))` is modelled position by position,
  for every string and not only for digit strings.
- `Schema` (`schema.dfy`) covers the rules of the creation form's schema. They are
  written as a total function from the form's values to a per-field error report.
- `AcaraForm` (`form.dfy`) covers the form's default values, the free-event checkbox,
  the price input and the submit handler. The handler is a class whose
  methods stop at the handler's two awaits: the poster upload and the document
  write. Both have abstract outcomes. Every effect the handler has on the world
  (spinner, upload, write, toast, navigation, console log) goes into an ordered log.
- `Listing` (`listing.dfy`) covers the listing page. It filters the store, given as a
  sequence of documents, by owner. It then turns each matching document into a row:
  the document id, every stored field, and `tanggal` as a Date or null.
- `Lifecycle` (`lifecycle.dfy`) links the two flows. The record the form writes,
  stored by the document store, is listed for its creator with the same values
  and date, and for nobody else.

`Wrappers` (`wrappers.dfy`) holds `Option` and `Result`.

Three behaviours of the program are worth stating plainly:

- Only the checkbox handler sets `harga` to `"0"`, and it does so whether the box
  is checked or unchecked. A new form starts with `is_free = true` and
  `harga = ""`, so an event submitted without touching the box is written with
  `harga = ""` (`AcaraForm.UntouchedFreeEventKeepsEmptyPrice`).
- `category` accepts any string. Only the select widget offers its four values.
- A failed submission returns the form to idle: the spinner is off and the
  button is enabled again. There is no separate failed state.

## Model

| member | source | states |
|---|---|---|
| `Rupiah.DecimalString` | src/features/acara/components/form.tsx:48 | `toString()` of a non-negative integer is a non-empty digit string that starts with `0` only for 0, and its digits denote the number |
| `Rupiah.ToText` | src/features/acara/components/form.tsx:48 | `value.toString()`: a string is itself; a number gives a non-empty digit string denoting it |
| `Rupiah.DigitRun` | src/features/acara/components/form.tsx:48 | the result is the longest run of digits from position p: every character in it is a digit and the next one is not |
| `Rupiah.LookaheadMatchesRun` | src/features/acara/components/form.tsx:48 | the lookahead `(?=(\d{3})+(?!\d))` succeeds at p exactly when the digit run from p is non-empty and a multiple of three long |
| `Rupiah.SeparatorAt` | src/features/acara/components/form.tsx:48 | the pattern matches at p exactly when `\B` holds there and the lookahead, read literally, succeeds |
| `Rupiah.SeparateUpTo` | src/features/acara/components/form.tsx:48 | the global replace only inserts characters, so the output is never shorter than the input |
| `Rupiah.Separate` | src/features/acara/components/form.tsx:48 | the replace over the whole text only inserts characters: the output is never shorter than the input |
| `Rupiah.FormatRupiah` | src/features/acara/components/form.tsx:46-49 | the result is `""` exactly for a falsy value (`""` or the number 0); otherwise it starts with `Rp` followed by at least one character |
| `Rupiah.ParseRupiah` | src/features/acara/components/form.tsx:51-54 | the result holds only digits and is no longer than the input |
| `Rupiah.ParseKeepsDigitStrings` | src/features/acara/components/form.tsx:51-54 | parsing returns the input unchanged exactly when the input is all digits |
| `Rupiah.ParseIdempotent` | src/features/acara/components/form.tsx:51-54 | parsing twice is parsing once |
| `Rupiah.ParseConcat` | src/features/acara/components/form.tsx:51-54 | parsing keeps the digits of each part in order: parse(a + b) = parse(a) + parse(b) |
| `Rupiah.SeparateKeepsDigits` | src/features/acara/components/form.tsx:48 | inserting separators changes no digit: the output has the same digits as the input, for every string |
| `Rupiah.FormatThenParse` | src/features/acara/components/form.tsx:46-54 | parsing a formatted value gives back the digits of the value's text, or `""` for a falsy value |
| `Rupiah.RoundTrip` | src/features/acara/components/form.tsx:46-54 | parse(format(x)) = x for every digit string x, including `""` and strings with leading zeros |
| `Rupiah.AmountRoundTrip` | src/features/acara/components/form.tsx:46-54 | a number formats to text that parses back to its decimal digits, which denote the number; 0 gives `""` |
| `Rupiah.DigitSeparator` | src/features/acara/components/form.tsx:48 | on a digit string the pattern matches exactly at the inner positions whose distance from the end is a multiple of three; never at position 0 (`\B`) |
| `Rupiah.SeparateIsGrouping` | src/features/acara/components/form.tsx:48 | on a digit string the regex replace equals an independent right-to-left grouping into threes joined by `.` |
| `Rupiah.GroupedDots` | src/features/acara/components/form.tsx:48 | grouping n digits inserts exactly (n - 1) / 3 dots |
| `Rupiah.GroupedFirst` | src/features/acara/components/form.tsx:48 | the grouping starts with the first digit, never with a dot |
| `Rupiah.GroupedDigits` | src/features/acara/components/form.tsx:48 | the grouping keeps every digit, in order |
| `Rupiah.FormatDigitString` | src/features/acara/components/form.tsx:46-49 | a non-empty digit string of length n is shown as `Rp` plus its grouping, with (n - 1) / 3 dots and its first digit right after `Rp` |
| `Rupiah.FormatZeroText` | src/features/acara/components/form.tsx:47-48 | the string `"0"` is not falsy and is shown as `Rp0` |
| `Schema.ImageIssues` | src/features/acara/components/form.tsx:57-67 | the image refinements all run: there is no issue exactly when there is one file of at most 5,000,000 bytes of an accepted type, and each refinement's message is present exactly when that refinement fails |
| `Schema.MinLengthIssues` | src/features/acara/components/form.tsx:68-87 | `min(n, message)`: no issue exactly when the text has at least n characters, and otherwise exactly the message |
| `Schema.FieldIssues` | src/features/acara/components/form.tsx:56-88 | slot, is_free, category and harga have no rule and report nothing; every field other than the image reports at most one message |
| `Schema.FieldErrors` | src/features/acara/components/form.tsx:56-88 | the report is empty exactly when every rule of the schema holds, and slot, is_free, category and harga never appear in it |
| `Schema.Validate` | src/features/acara/components/form.tsx:56-88 | validation succeeds exactly when every rule holds and then returns the values unchanged; otherwise it returns the non-empty report |
| `Schema.ImageRule` | src/features/acara/components/form.tsx:57-67 | the image is reported unless there is exactly one file of at most 5,000,000 bytes whose type is image/jpeg, image/jpg, image/png or image/webp; the message is "Image is required." without exactly one file, then "Max file size is 5MB." for a file that is too large, then ".jpg, .jpeg, .png and .webp files are accepted." |
| `Schema.NameRule` | src/features/acara/components/form.tsx:68-70 | the event name is reported exactly when it has fewer than 2 characters, with "Nama Acara must be at least 2 characters." |
| `Schema.PembicaraRule` | src/features/acara/components/form.tsx:71-73 | the speaker's name is reported exactly below 2 characters, with "Nama Pembicara must be at least 2 characters." |
| `Schema.JabatanPembicaraRule` | src/features/acara/components/form.tsx:74-76 | the speaker's position is reported exactly below 2 characters, with "Jabatan Pembicara must be at least 2 characters." |
| `Schema.TempatRule` | src/features/acara/components/form.tsx:78-80 | the venue is reported exactly below 2 characters, with "Tempat must be at least 2 characters." |
| `Schema.TanggalRule` | src/features/acara/components/form.tsx:81 | the date is reported exactly when it is not a valid Date: a missing one with "Tanggal pelaksanaan wajib diisi", one whose time is NaN with "Invalid date" |
| `Schema.DescriptionRule` | src/features/acara/components/form.tsx:85-87 | the description is reported exactly below 10 characters, with "Description must be at least 10 characters." |
| `Schema.ErrorsAreFieldLocal` | src/features/acara/components/form.tsx:56-88 | whether and how a field is reported depends only on that field's value |
| `Schema.NoIssuesIffSatisfied` | src/features/acara/components/form.tsx:56-88 | no field reports an issue exactly when every rule holds |
| `AcaraForm.DefaultValues` | src/features/acara/components/form.tsx:97-113 | no image is preset and a date always is; with no initial data the event is free, `harga` is `""` and the date is now; otherwise is_free and harga come from the initial data |
| `AcaraForm.BuildRecord` | src/features/acara/components/form.tsx:130-137 | the record carries every submitted value except the image, `is_public = false`, `is_complete = false`, the uploaded URL and the caller's id |
| `AcaraForm.SubmitEffects` | src/features/acara/components/form.tsx:123-146 | one run of the handler has 6 effects when the upload gives a URL and 5 otherwise; it turns the spinner on, then uploads the first file to `thumbnail_acara`, and ends by turning the spinner off |
| `AcaraForm.SubmitEffectsCases` | src/features/acara/components/form.tsx:123-146 | one run of the handler, spelled out for an upload failure, a write failure and success |
| `AcaraForm.UploadsPosterOnce` | src/features/acara/components/form.tsx:126-129 | a run uploads the first poster file exactly once, to the `thumbnail_acara` folder, whatever the outcomes of the upload and the write |
| `AcaraForm.NoWriteWithoutUrl` | src/features/acara/components/form.tsx:126-137 | a run writes exactly one document when the upload gives a URL and none otherwise, and that document carries the URL |
| `AcaraForm.OneToastAndNavigationOnSuccess` | src/features/acara/components/form.tsx:138-142 | a run shows exactly one toast: the success message when upload and write both succeed, and the same generic message on any failure; it navigates to `/dashboard/acara` only on success |
| `AcaraForm.LoadingBracketsRun` | src/features/acara/components/form.tsx:123-146 | a run turns the spinner on first and off last, and does not touch it in between, on every path |
| `AcaraForm.RunLeavesLogOrdered` | src/features/acara/components/form.tsx:123-146 | after a run the log still has each write right after an upload, each success toast right after a write and each navigation right after a success toast, and the spinner is off |
| `AcaraForm.CreateForm.constructor` | src/features/acara/components/form.tsx:97-121 | a new form holds the default values, is not loading, shows no errors and has done nothing |
| `AcaraForm.CreateForm.ToggleFree` | src/features/acara/components/form.tsx:318-323 | the checkbox stores its new state and sets `harga` to `"0"` in either direction; nothing else changes |
| `AcaraForm.CreateForm.PriceText` | src/features/acara/components/form.tsx:339-343 | what the price input shows parses back to the stored price whenever that price is a digit string |
| `AcaraForm.CreateForm.EditPrice` | src/features/acara/components/form.tsx:331-347 | the price input (shown only for a paid event) stores the digits of what was typed, so the stored price is always a digit string |
| `AcaraForm.CreateForm.EditFields` | src/features/acara/components/form.tsx:158-307 | the poster picker, text inputs and date picker store what they are given; the price and free flag are kept |
| `AcaraForm.CreateForm.Submit` | src/features/acara/components/form.tsx:123-129 | a click while loading does nothing (the button is disabled); otherwise the values are validated; invalid values only show errors, and valid values turn the spinner on and start the poster upload |
| `AcaraForm.CreateForm.StartUpload` | src/features/acara/components/form.tsx:124-129 | on validated values the spinner goes on and the upload of the first file to `thumbnail_acara` is awaited; the values and the report are kept |
| `AcaraForm.CreateForm.UploadSettled` | src/features/acara/components/form.tsx:126-145 | with a URL, the record is built from the submitted values and written; on failure the error is logged, the generic toast shown and the spinner turned off |
| `AcaraForm.CreateForm.WriteSettled` | src/features/acara/components/form.tsx:131-145 | on success, the success toast and then navigation to the listing; on failure, a log entry and the generic toast; the spinner goes off on both paths |
| `AcaraForm.CreateForm.SubmitAndSettle` | src/features/acara/components/form.tsx:123-146 | a click on an idle form followed by both awaits adds exactly one run of the handler to the log when the values are valid, and nothing otherwise; the spinner ends off |
| `AcaraForm.UntouchedFreeEventKeepsEmptyPrice` | src/features/acara/components/form.tsx:99-103 | a new form filled in through the plain inputs only, with values the schema accepts, and submitted with both awaits succeeding writes exactly one document: a free event with `harga = ""`, the uploaded URL and the caller's id |
| `Listing.TimestampMillis` | src/features/acara/components/listing.tsx:33-34 | the Date is within one millisecond of the timestamp's exact instant, on the side of zero |
| `Listing.NormalisedTanggal` | src/features/acara/components/listing.tsx:32-35 | the row's date is null or a Date, and a Date exactly when the stored value is a timestamp |
| `Listing.Normalise` | src/features/acara/components/listing.tsx:26-37 | a row has the stored keys plus `id` and `tanggal`; every stored field other than `tanggal` is copied unchanged; `id` is the document id unless the data has its own `id`; `tanggal` is null exactly when the stored value is not a timestamp, and otherwise is the Date of that timestamp |
| `Listing.OwnedDocuments` | src/features/acara/components/listing.tsx:22-24 | the query returns exactly the stored documents whose `userId` is the caller's |
| `Listing.OneOwner` | src/features/acara/components/listing.tsx:23 | the owner filter returns a document to at most one caller |
| `Listing.Rows` | src/features/acara/components/listing.tsx:26-37 | one row per document, in the same order, each the normalised document |
| `Listing.ListAcara` | src/features/acara/components/listing.tsx:22-37 | the page's rows are the caller's documents, normalised one for one, in the store's order |
| `Listing.OwnedConcat` | src/features/acara/components/listing.tsx:22-24 | the owner filter keeps the store's order |
| `Listing.NoLimit` | src/features/acara/components/listing.tsx:22-24 | no limit or cursor applies: when every document is the caller's, all of them are listed |
| `Listing.RowsAreCallersDocuments` | src/features/acara/components/listing.tsx:22-37 | every row comes from one of the caller's documents, and every such document gives a row |
| `Listing.SingleDocument` | src/features/acara/components/listing.tsx:23-37 | a store of one document lists that document, normalised, for its owner, and nothing for any other caller |
| `Listing.OwnerExample` | src/features/acara/components/listing.tsx:23-37 | with two documents of "u1" and one of "u2", the listing for "u1" is exactly the two, in order |
| `Listing.NonTimestampBecomesNull` | src/features/acara/components/listing.tsx:32-35 | a `tanggal` that is not a timestamp becomes null, and the row is still produced |
| `Listing.TimestampSameInstant` | src/features/acara/components/listing.tsx:33-34 | a timestamp's whole seconds and milliseconds are kept; a sub-millisecond rest is dropped toward zero |
| `Lifecycle.TimestampOfMillis` | src/features/acara/components/form.tsx:131-137 | a stored Date becomes a timestamp for exactly the same instant |
| `Lifecycle.StoredDocument` | src/features/acara/components/form.tsx:131-137 | the stored document of a written record belongs to the record's user, has no `id` field of its own, and holds the date as the timestamp of the same instant |
| `Lifecycle.DateSurvivesStorage` | src/features/acara/components/listing.tsx:32-35 | a Date written by the form and listed again is the same millisecond |
| `Lifecycle.StoredRowIdAndDate` | src/features/acara/components/listing.tsx:29-36 | the row made from a written record carries the document id and the record's date to the millisecond |
| `Lifecycle.StoredRowValues` | src/features/acara/components/form.tsx:130-137 | the row made from a written record carries the submitted name, price and free flag |
| `Lifecycle.StoredRowFlags` | src/features/acara/components/form.tsx:133-135 | the row made from a written record carries `is_public` and the poster URL the form wrote |
| `Lifecycle.CreatedEventIsListedForItsCreator` | src/features/acara/components/listing.tsx:22-37 | in a store holding only that event, a created event is listed for its creator as one row with the document id, its date and its values, and for no other caller |
| `Lifecycle.CreatedEventIsListedInAnyStore` | src/features/acara/components/listing.tsx:22-37 | in any store holding a created event, the listing for its creator contains the event's row, and the query returns the event to no other caller |

## Left out

- The document store, blob storage and authentication services are left out. The
  store is a sequence of documents, the caller's id is a parameter, and the upload
  and write are abstract outcomes.
- The upload's storage path `thumbnail_acara/<milliseconds>_<file name>` is left out
  because it needs the wall clock. The model records only the upload of the first
  file to the `thumbnail_acara` folder.
- The store may reject a write whose `userId` is undefined (no user loaded). Such a
  rejection is one of the abstract write failures.
- Page rendering is left out. So are the table column configuration (the "Gratis"
  badge, the locale currency cell, the Aktif/Non-Aktif label), the view page (it
  always renders the create form with no initial data) and the uploader widget's
  own 1 MB limit.
- Toasts, navigation and console logging are entries in the effect log. Their
  rendering and the logged error's content are not modelled.
- The form library's re-validation on every change after a failed submit is not
  modelled. The error report is computed only when the submit button is clicked.
- The schema's type checks are left out: values are typed, so a field that is not a
  string or not a boolean cannot occur. The date is absent (`NoDate`), a Date whose
  time is NaN (`InvalidDate`), or a valid Date (`At`).
- `Schema.NameRule`, `Schema.PembicaraRule`, `Schema.JabatanPembicaraRule`, `Schema.TempatRule` and `Schema.DescriptionRule`: lengths are counted in Unicode characters. The schema counts
  UTF-16 code units, so the two differ for characters outside the Basic
  Multilingual Plane.
- `Rupiah.FormatRupiah`: a numeric argument is limited to non-negative safe
  integers (at most 2^53 - 1). Negative numbers, fractions, NaN and larger numbers
  are not modelled. The form only ever passes strings.
- `Rupiah.DecimalString`: it models `toString()` only up to 2^53 - 1. From 10^21 on,
  JavaScript prints numbers in exponent notation (`1e+21`), which this function
  does not produce.
- `Rupiah.AmountRoundTrip`: it holds for safe integers only. For 10^21 the formatter
  gives `Rp1e+21`, which parses to `121`.
- `Schema.TanggalRule`: the date's messages are those of zod 3.23 and later, where
  the schema's message replaces only the "required" and "wrong type" messages.
  zod is not part of this model.
- `Listing.TimestampMillis`: it uses exact arithmetic. Firestore's `Timestamp.toDate`
  goes through `toMillis`, which computes `seconds * 1000 + nanoseconds / 1e6` in
  floating point, which can round up by one
  millisecond for timestamps far from 1970.
- The double-submit guard is modelled only as `isLoading`: `Submit` does nothing
  while it is set.
