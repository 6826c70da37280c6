# Dashboard table presenter and seen-users list, modelled in Dafny

The dashboard shows two searchable, paginated tables of records fetched from a remote API:
credit cards (`CreditCardTable`) and personal profiles (`ProfileTable`). Each table keeps a
search term, a current page (1-based, 10 records per page), a selected record with a modal
flag, and the loading and error flags of its one fetch. From that state each render derives
four things: the filtered list, the page slice with its page count and "Showing X to Y of Z"
label, the enabled/disabled Previous and Next buttons, and which of spinner, error,
"No data available." and table is shown. Card numbers render as `**** **** **** ` plus
their last four characters, and CVVs always render as `***`. The login page keeps a
module-level list of users it has seen. A sign-in returns the stored user with the same
email, or else appends a new `{id, name, email}`.

Layout:

- `wrappers.dfy`, module `Wrappers`: `Option`, for JavaScript's `null`.
- `lists.dfy`, module `Lists`: `Array.prototype.filter`, the order-preserving
  subsequence relation it satisfies, and the count of each element it keeps.
- `text.dfy`, module `Text`: how a record field renders, ASCII `toLowerCase`,
  `String.prototype.includes`, `slice(-4)`, and the card-number mask.
- `pager.dfy`, module `Pager`: the page arithmetic and display decision. Both components
  carry identical copies of it, so the model defines it once.
- `credit_card_table.dfy` and `profile_table.dfy`: the pure parts of each component as
  functions and lemmas, and each component's hook state as a class:
  - its `useState` fields are the class fields;
  - the handlers are methods with `modifies this`;
  - `Valid()` is the state invariant.
- `login_page.dfy`: the `users` list as a class with a `seq` field. It has a linear
  `Find` loop and the find-or-append handler, both proved against the specification
  functions `FindByEmail` and `SignIn`.

Records are `map<string, string>`. A key that is absent stands for `undefined`/`null`, and
JSX renders it as nothing.

- For card records, this representation is the precondition that values are non-null:
  `Object.values(item)` followed by `val.toString()` would throw on `null`.
- A number-valued field is represented by its decimal string.
- The profile filter also requires the value to be truthy. For strings, that excludes the
  empty string, even when the search term is empty.

The fetch is split into two steps:
- `FetchStart`: the code before the `await`.
- `FetchFinish(response)`: the rest, where `response` is the endpoint's records or a
  transport failure.

A ghost flag records that the mount effect (empty dependency list) runs only once. Previous
and Next are only rendered with the table, so their methods require the table to be
displayed. `OpenModal` is reached from a rendered row, so it requires the record to be on
the current page.

Three behaviours of the code worth noting:
- **Loading state on first render.** Before the mount effect runs, `isLoading` is still
  `false` and the data is empty, so the first render shows "No data available.", not a
  spinner.
- **Card search reads the raw secrets.** `Object.values(item)` includes the unmasked
  `card_number` and `cvv`, so the search box matches against them even though the table and
  the overlay mask them. For example, `{card_number: "4111", cvv: "123"}` and the same card
  with CVV `999` render the same overlay, yet a search for "123" lists only the first
  (`CreditCardTable.SearchDistinguishesCvv`).
  The masking lemmas are about what is rendered, not about which cards the filter keeps.
- **Profile search.** The profile search matches only the fields named by the `columns`
  descriptors, and only values that are truthy. With no descriptors nothing is listed, even
  for an empty search term.

## Model

| member | source | states |
|---|---|---|
| `Lists.Filter` | src/components/CreditCardTable.js:59-63 | the result contains only elements satisfying the predicate, every satisfying element of the input is in it, nothing else is, and it is no longer than the input |
| `Lists.FilterKeepsEveryOccurrence` | src/components/CreditCardTable.js:59-63 | every element that satisfies the predicate is kept as many times as it occurs in the input, and every other element is dropped entirely |
| `Lists.FilterIsSubsequence` | src/components/ProfileTable.js:68 | the filtered list is an order-preserving subsequence of the fetched list |
| `Lists.FilterKeepsAll` | src/components/CreditCardTable.js:59 | when every element satisfies the predicate, filtering returns the list unchanged |
| `Lists.FilterKeepsNone` | src/components/ProfileTable.js:68-69 | when no element satisfies the predicate, filtering returns the empty list |
| `Text.FieldText` | src/components/ProfileTable.js:146 | a present field renders as its value, an absent one as the empty text |
| `Text.LowerChar` | src/components/CreditCardTable.js:61 | the result is never an upper-case ASCII letter; upper-case letters move up by 32 code points (A–Z to a–z), everything else is kept |
| `Text.Lower` | src/components/ProfileTable.js:73 | lower-casing keeps the length and lower-cases each character in place |
| `Text.LowerIsIdempotent` | src/components/ProfileTable.js:73 | lower-casing twice is the same as lower-casing once |
| `Text.MatchesTerm` | src/components/CreditCardTable.js:61 | the search matches iff the lower-cased term occurs at some position of the lower-cased value |
| `Text.Includes` | src/components/ProfileTable.js:73 | `includes` is true exactly when the needle occurs at some position of the haystack |
| `Text.MatchIgnoresCase` | src/components/CreditCardTable.js:61 | the search match gives the same answer when either the value or the term is lower-cased first |
| `Text.EmptyTermMatches` | src/components/CreditCardTable.js:61 | every value matches the empty search term |
| `Text.LastFour` | src/components/CreditCardTable.js:94 | `slice(-4)` is the final min(4, length) characters of the value |
| `Text.MaskCardNumber` | src/components/CreditCardTable.js:94 | the mask is `**** **** **** ` followed by a suffix of the number of at most 4 characters |
| `Text.MaskRevealsOnlyLastFour` | src/components/CreditCardTable.js:94 | two card numbers have equal masks iff their last four characters are equal |
| `Text.MaskExample` | src/components/CreditCardTable.js:94 | `4111111111111111` masks to `**** **** **** 1111`, and a 2-character number is shown whole after the mask |
| `Pager.SliceBound` | src/components/ProfileTable.js:80-83 | a slice bound lies in [0, length]; a negative bound counts from the end, and a bound past the end is clamped to the length |
| `Pager.IndexOfFirstRecord` | src/components/ProfileTable.js:78-79 | page p starts at index (p-1)*10 and ends, exclusive, 10 records later at `indexOfLastRecord` = p*10 |
| `Pager.Slice` | src/components/ProfileTable.js:80-83 | with both bounds read as `slice` reads them, the result has max(0, to-from) elements and element i is element from+i of the list |
| `Pager.TotalPages` | src/components/ProfileTable.js:84 | the page count is the ceiling of n/10: it is zero iff n is zero, and otherwise (t-1)*10 < n <= t*10 |
| `Pager.CurrentRecords` | src/components/ProfileTable.js:78-83 | for page p >= 1 the rows are `filtered[(p-1)*10 + i]`, and there are min(10, max(0, n-(p-1)*10)) of them |
| `Pager.PageNonEmptyIff` | src/components/ProfileTable.js:84 | for p >= 1, page p has rows iff p <= totalPages |
| `Pager.PagesUpToIsPrefix` | src/components/ProfileTable.js:78-83 | pages 1..k laid end to end are the first min(10k, n) filtered records |
| `Pager.PagesCoverFiltered` | src/components/ProfileTable.js:78-84 | pages 1..totalPages laid end to end are exactly the filtered list, so every record is on exactly one page |
| `Pager.PreviousPage` | src/components/ProfileTable.js:176 | Previous goes one page back and never below page 1 |
| `Pager.NextPage` | src/components/ProfileTable.js:187-189 | Next goes one page forward and never past totalPages |
| `Pager.PreviousDisabled` | src/components/ProfileTable.js:177 | Previous is disabled exactly when clicking it would leave the page unchanged |
| `Pager.NextDisabled` | src/components/ProfileTable.js:190 | Next is disabled exactly when clicking it would leave the page unchanged |
| `Pager.PagingStaysInRange` | src/components/ProfileTable.js:176-190 | from 1 <= p <= totalPages, both buttons keep the page in [1, totalPages]; each button is disabled exactly when clicking it would leave the page unchanged |
| `Pager.ShowingSummary` | src/components/ProfileTable.js:166-171 | X is (p-1)*10+1, Y is min(p*10, n) and Z is n |
| `Pager.SummaryMatchesRows` | src/components/ProfileTable.js:166-171 | with n > 0 and 1 <= p <= totalPages the label satisfies 1 <= X <= Y <= Z = n, and Y - X + 1 is the number of rows shown |
| `Pager.TwelveResultsExample` | src/components/CreditCardTable.js:193-217 | with 12 matches there are 2 pages: page 1 shows 1 to 10 of 12, page 2 shows records 11 and 12 as 11 to 12 of 12, and Next is disabled on page 2 only |
| `Pager.Decide` | src/components/CreditCardTable.js:119-127 | the spinner shows iff loading; the error shows iff the error is a non-empty string; "No data available." shows iff not loading, no error and n = 0; the table shows iff not loading, no error and n > 0 |
| `Pager.ExactlyOneBlock` | src/components/ProfileTable.js:102-110 | unless loading and error coincide, exactly one of the four blocks shows |
| `CreditCardTable.CardMatches` | src/components/CreditCardTable.js:60-62 | a card matches iff for some field the lower-cased term occurs at some position of the lower-cased value |
| `CreditCardTable.FilteredData` | src/components/CreditCardTable.js:59-63 | a card is kept iff it was fetched and some field value, lower-cased, contains the lower-cased term |
| `CreditCardTable.FilteredPreservesOrder` | src/components/CreditCardTable.js:59 | the filtered cards are an order-preserving subsequence of the fetched cards |
| `CreditCardTable.EmptyTermKeepsCards` | src/components/CreditCardTable.js:59-63 | with an empty term, a list of cards that each have at least one field is kept whole |
| `CreditCardTable.ConvertFieldName` | src/components/CreditCardTable.js:73-90 | each of the six table keys gets a label different from the key; any other key is returned unchanged |
| `CreditCardTable.ConvertFieldNameLabels` | src/components/CreditCardTable.js:73-90 | the six table keys map to their six labels, in column order; any other key is its own label |
| `CreditCardTable.MaskSensitiveData` | src/components/CreditCardTable.js:92-99 | `card_number` gives the card mask, `cvv` gives `***`, and any other field gives the data unchanged |
| `CreditCardTable.MaskHidesSecrets` | src/components/CreditCardTable.js:92-99 | the CVV output is independent of the data; card-number outputs are equal iff the last four characters are; other fields are distinguished exactly as the data is |
| `CreditCardTable.CellText` | src/components/CreditCardTable.js:171-173 | the `card_number` cell is the card mask of the number, the `cvv` cell is `***`, and any other cell is the field as rendered |
| `CreditCardTable.RowCells` | src/components/CreditCardTable.js:159-174 | a row has one cell per table field, in column order |
| `CreditCardTable.RowMasking` | src/components/CreditCardTable.js:171-173 | in a row only the card number (masked) and the CVV (`***`) pass through the mask; the other four cells show the field verbatim |
| `CreditCardTable.CardDetail` | src/components/CreditCardTable.js:239-258 | the detail overlay has six lines: the card number masked, the CVV as `***`, and provider, digits, expiry and type verbatim |
| `CreditCardTable.CardDetailHidesCvv` | src/components/CreditCardTable.js:256-257 | the overlay is unchanged by any change of the CVV |
| `CreditCardTable.SearchDistinguishesCvv` | src/components/CreditCardTable.js:59-63 | when only the CVV of a card contains the term, replacing the CVV by one that does not leaves the detail overlay unchanged but drops the card from the search results |
| `CreditCardTable.CardDetailHidesCardNumber` | src/components/CreditCardTable.js:246-247 | the overlay is unchanged by a change of the card number that keeps its last four characters |
| `CreditCardTable.CreditCardTable.DisplayIsConsistent` | src/components/CreditCardTable.js:119-127 | in every valid state exactly one block shows, and a shown table has its page in [1, totalPages] with a non-empty slice |
| `CreditCardTable.CreditCardTable.constructor` | src/components/CreditCardTable.js:8-18 | the initial state: no data, empty term, page 1, not loading, no error, modal closed |
| `CreditCardTable.CreditCardTable.FetchStart` | src/components/CreditCardTable.js:20-23 | the fetch turns loading on, clears the error and changes nothing else |
| `CreditCardTable.CreditCardTable.FetchFinish` | src/components/CreditCardTable.js:24-37 | on success the fetched cards replace the data; on failure the fixed message is the error; either way loading turns off and the invariant (page within range, modal open iff selected) holds |
| `CreditCardTable.CreditCardTable.HandleSearch` | src/components/CreditCardTable.js:44-47 | changing the search sets the term and resets the page to 1; nothing else changes |
| `CreditCardTable.CreditCardTable.OpenModal` | src/components/CreditCardTable.js:49-52 | selecting a row stores the card and opens the modal together |
| `CreditCardTable.CreditCardTable.CloseModal` | src/components/CreditCardTable.js:54-57 | closing clears the selection and the modal flag together |
| `CreditCardTable.CreditCardTable.ModalContents` | src/components/CreditCardTable.js:231-232 | an open modal shows the selected card's detail; a closed one shows nothing |
| `CreditCardTable.CreditCardTable.PreviousPage` | src/components/CreditCardTable.js:203 | the page becomes max(p-1, 1) and stays in [1, totalPages] |
| `CreditCardTable.CreditCardTable.NextPage` | src/components/CreditCardTable.js:214-216 | the page becomes min(p+1, totalPages) and stays in [1, totalPages] |
| `ProfileTable.ColumnMatches` | src/components/ProfileTable.js:70-74 | a column matches iff its field is present and non-empty and the lower-cased term occurs at some position of its lower-cased value |
| `ProfileTable.ProfileMatches` | src/components/ProfileTable.js:69-75 | a profile matches iff some listed descriptor's column matches |
| `ProfileTable.FilteredData` | src/components/ProfileTable.js:68-76 | a profile is kept iff it was fetched and some listed column names a field that is present, non-empty and contains the term, ignoring case |
| `ProfileTable.FilteredPreservesOrder` | src/components/ProfileTable.js:68 | the filtered profiles are an order-preserving subsequence of the fetched ones |
| `ProfileTable.NoColumnsNoRows` | src/components/ProfileTable.js:68-76 | with no column descriptors nothing is kept, whatever the term |
| `ProfileTable.EmptyTermKeepsFilledProfiles` | src/components/ProfileTable.js:68-76 | with an empty term, a profile is kept iff some listed column names a field that is present and non-empty |
| `ProfileTable.HeaderNames` | src/components/ProfileTable.js:122-129 | one name per descriptor: name i is the `headerName` of descriptor i |
| `ProfileTable.HeaderLabels` | src/components/ProfileTable.js:116-129 | each header is the `headerName` of a descriptor for one of the four table fields, and there are no more headers than descriptors |
| `ProfileTable.HeaderLabelsComplete` | src/components/ProfileTable.js:116-129 | every descriptor for one of the four table fields contributes its `headerName` to the header row |
| `ProfileTable.HeaderLabelsInDescriptorOrder` | src/components/ProfileTable.js:116-129 | the headers are an order-preserving subsequence of the `headerName`s of all descriptors |
| `ProfileTable.RowCells` | src/components/ProfileTable.js:141-148 | a row shows first name, last name, sex and date of birth verbatim, in that order |
| `ProfileTable.RowCellsReadOnlyTableFields` | src/components/ProfileTable.js:141-148 | changing any field other than the four table fields leaves the row unchanged |
| `ProfileTable.HeaderMisalignedExample` | src/components/ProfileTable.js:116-148 | descriptors `[dob, first_name]` give the two headers "DOB" and "First" over a row of four cells whose first is the first name |
| `ProfileTable.DescriptorFor` | src/components/ProfileTable.js:116-129 | a found descriptor is in the list and is for the field; none is found iff no descriptor is for the field |
| `ProfileTable.AlignedHeaderLabels` | src/components/ProfileTable.js:116-148 | one header per table field, in table order: the field's descriptor's `headerName`, or the field key when there is none |
| `ProfileTable.AlignedHeadersMatchCells` | src/components/ProfileTable.js:116-148 | there are as many aligned headers as cells, and header i comes from a descriptor for the field that cell i shows whenever one exists |
| `ProfileTable.VerbatimReadsOnlyItsKeys` | src/components/ProfileTable.js:212-273 | changing a field not named in a verbatim run leaves that run unchanged |
| `ProfileTable.FinancialSection` | src/components/ProfileTable.js:282-311 | the financial section has 8 lines: the credit and debit card numbers are masked to their last four characters, and both CVVs show `***` |
| `ProfileTable.FinancialSectionHidesSecrets` | src/components/ProfileTable.js:282-311 | the financial section is unchanged by any change of a field it does not show verbatim, provided a changed card number keeps its last four characters |
| `ProfileTable.ProfileDetail` | src/components/ProfileTable.js:204-321 | the overlay has 25 lines: the personal run (lines 0 to 6), the documents run (7 to 15), the financial section (16 to 23) and the address (24), each run showing its fields verbatim |
| `ProfileTable.ProfileDetailHidesSecrets` | src/components/ProfileTable.js:282-302 | the overlay depends only on its verbatim fields and on the last four characters of each card number; no CVV field influences it |
| `ProfileTable.ProfileTable.DisplayIsConsistent` | src/components/ProfileTable.js:102-110 | in every valid state exactly one block shows, and a shown table has its page in [1, totalPages] with a non-empty slice |
| `ProfileTable.ProfileTable.constructor` | src/components/ProfileTable.js:8-19 | the initial state: no data, no columns, empty term, page 1, not loading, no error, modal closed |
| `ProfileTable.ProfileTable.FetchStart` | src/components/ProfileTable.js:21-23 | the fetch turns loading on, clears the error and changes nothing else |
| `ProfileTable.ProfileTable.FetchFinish` | src/components/ProfileTable.js:24-46 | on success the fetched profiles and columns replace the data; on failure the fixed message is the error; either way loading turns off and the invariant holds |
| `ProfileTable.ProfileTable.HandleSearch` | src/components/ProfileTable.js:53-56 | changing the search sets the term and resets the page to 1; nothing else changes |
| `ProfileTable.ProfileTable.OpenModal` | src/components/ProfileTable.js:58-61 | selecting a row stores the profile and opens the modal together |
| `ProfileTable.ProfileTable.CloseModal` | src/components/ProfileTable.js:63-66 | closing clears the selection and the modal flag together, so the modal is open iff a profile is selected |
| `ProfileTable.ProfileTable.ModalContents` | src/components/ProfileTable.js:204-205 | an open modal shows the selected profile's detail; a closed one shows nothing |
| `ProfileTable.ProfileTable.PreviousPage` | src/components/ProfileTable.js:176-177 | the page becomes max(p-1, 1) and stays in [1, totalPages] |
| `ProfileTable.ProfileTable.NextPage` | src/components/ProfileTable.js:187-190 | the page becomes min(p+1, totalPages) and stays in [1, totalPages] |
| `LoginPage.FindByEmail` | src/pages/LoginPage.js:24 | `find` returns the first index whose email matches; it returns none iff no stored email matches |
| `LoginPage.SignIn` | src/pages/LoginPage.js:24-37 | the returned user has the incoming email and is in the new list; the new list is the old one, or the old one with that user appended |
| `LoginPage.SignInEffect` | src/pages/LoginPage.js:24-37 | a known email returns a stored user and leaves the list unchanged; an unknown email appends `{id: sub, name, email}` at the end and returns it; the returned user has the incoming email |
| `LoginPage.SignInPreservesEntries` | src/pages/LoginPage.js:24-37 | a sign-in grows the list by at most one, keeps every existing entry as it was, and keeps emails pairwise distinct |
| `LoginPage.FindAfterAppend` | src/pages/LoginPage.js:24-35 | a user appended because its email was missing is then found at the end of the list |
| `LoginPage.RepeatSignInReturnsFirst` | src/pages/LoginPage.js:24-27 | a second sign-in with the same email returns the first stored user, with its id and name and not the fresh ones, and does not grow the list |
| `LoginPage.UserDirectory.constructor` | src/pages/LoginPage.js:7 | the list starts empty |
| `LoginPage.UserDirectory.Find` | src/pages/LoginPage.js:24 | the linear scan returns exactly what `FindByEmail` specifies |
| `LoginPage.UserDirectory.OnLoginSuccess` | src/pages/LoginPage.js:24-37 | the new list and the user passed on are those of `SignIn` on the old list, and emails stay distinct |

## Findings

| source | as written | input that shows it | evidently intended | confidence | as-written member | corrected member |
|---|---|---|---|---|---|---|
| src/components/ProfileTable.js:116-148 | the header row shows the table-field descriptors in the order the server lists them, while every body row shows the fixed four fields first name, last name, sex, date of birth | descriptors `[{field: "dob", headerName: "DOB"}, {field: "first_name", headerName: "First"}]`: two headers, "DOB" over the first-name cell and "First" over the last-name cell | one header per body cell, in the order of the cells | not executed; follows from the code text | `ProfileTable.HeaderMisalignedExample` | `ProfileTable.AlignedHeadersMatchCells` (on `ProfileTable.AlignedHeaderLabels`) |

The rest of the model keeps the header row as written (`ProfileTable.HeaderLabels`), because
it is what the component renders; `ProfileTable.AlignedHeaderLabels` is the corrected header
row, and nothing else depends on the header row.

## Left out

- The axios POST/GET calls, the userinfo request, `useEffect` scheduling, and the
  `console.error`/`console.log` logging are network and console I/O. A fetch is modelled only
  by its outcome: the records (and columns) it returns, or a failure.
- `setUser` and `navigate('/dashboard')` after a sign-in, the route guard in `App.js`, and
  tab switching and logout in `Dashboard.js` are not modelled. They are routing and session
  wiring with no logic.
- `Modal.js` is not part of this model: its Escape-key listener, focus handling and overlay
  markup are DOM plumbing. Every close path ends in `closeModal`, which is modelled.
- `MaskedText.js` and `Navbar.js` only render and are not part of this model.
- `Text.LowerChar`: covers ASCII letters only. The full Unicode `toLowerCase` is not
  modelled.
- `Text.FieldText`: JavaScript's `toString` on numbers, and the truthiness of `0`, are not
  modelled, because every field value is a string. A numeric `0` would be falsy in the
  profile filter, but its string "0" is kept.
- `CreditCardTable.HasCardNumber`, `ProfileTable.HasCardNumbers`: a record without its card
  number would make `.slice(-4)` throw. The model instead requires the endpoint's records to
  carry card numbers, so this crash is not modelled.
- JSX markup, CSS classes, the icons and the "Actions" header cell are not modelled. The
  float `Math.ceil` is modelled as integer ceiling division.
- The late response after unmount is not modelled, because the model has no unmount.
  Concurrency between renders is not modelled either: each handler is one atomic state
  change.
