# Parcel dashboard: consignment slip and recycle bin

This project models the two pieces of the parcel-service dashboard that carry
rules rather than layout, and proves properties of them in Dafny.

**Consignment slip** (`SlipModal` module, `slip_modal.dfy`). The slip modal
takes a booking and works out three tax rates. CGST and SGST fall back to 9
and IGST to 0 whenever the booking's field is falsy. It then computes the
three tax amounts as `grandTotal * rate / 100` and the total including tax.
It renders one invoice twice, with a divider between the copies. The invoice
is modelled as a record. It holds the header fields, the two fixed office
addresses, the reference and date line, the parties, one item row per line
item (numbered from 1, six cells in fixed column order) and the totals
section. The totals section is Sub Total, then the CGST, SGST and IGST rows
whose rate is positive, then Total (Incl. Tax). Numeric booking fields are
JavaScript values: absent, NaN, or a number (`JsNumber`). This makes the
falsy fallbacks and the spread of NaN from a missing subtotal explicit.
Amounts are `real`.

**Recycle bin** (`RecycleBin` module, `bin.dfy`; string order in
`Collation`, `collation.dfy`). The bin holds a sort configuration (column,
direction) that starts at pick-up location, ascending. It is the field of
class `RecycleBin.Bin` and changes through `HandleSort`. The table takes the
values of the id-keyed object, sorts a copy with the component's comparator,
numbers the rows from 1, and shows a single placeholder row when there are no
records. The comparator returns 0 when either value is missing or empty. It
compares dates by timestamp and every other column as a string. Descending
swaps the operands. The sort runs on a fresh array (insertion sort by
adjacent swaps). It is proved to return a permutation of its input. It is
proved sorted only when every record has a value for the active column (for
the date column, one the host can parse). A
missing value compares equal to everything, which breaks transitivity
(`MissingValueBreaksTransitivity`).

On these edges the model follows what the code does:

- An absent `items` field makes rendering throw, at
  `bookingData.items.map`. An empty `items` list renders normally. The model
  has `Rendered.Crashed` for the first case and zero item rows for the second.
- A `bookingDate` that is present but empty renders "N/A", because the check
  is a truthiness test.
- A date string that is present but cannot be parsed renders as the host's
  rendering of an invalid date (`LocaleDate`). It is not "N/A".
- The bin's `dataObj` prop defaults to `{}` only when it is left out. A
  `null` prop makes `Object.values` throw, which the model has as
  `TableBody.Crashed`.

## Model

| member | source | states |
|---|---|---|
| SlipModal.ComputeTax | Bps-Dashboard/src/Components/SlipModal.js:24-31 | Each rate is its field when truthy, else 9/9/0. With a numeric subtotal each amount is subtotal × rate / 100 and the total is subtotal × (100 + the three rates) / 100. Without one, every amount and the total are NaN. |
| SlipModal.TotalIsSumOfParts | Bps-Dashboard/src/Components/SlipModal.js:31 | The total including tax equals the subtotal plus the three tax amounts. |
| SlipModal.ExplicitZeroRateBecomesDefault | Bps-Dashboard/src/Components/SlipModal.js:24-26 | A CGST or SGST rate given explicitly as 0 becomes 9. An IGST of 0 stays 0. |
| SlipModal.SuppliedRateKept | Bps-Dashboard/src/Components/SlipModal.js:24-26 | Any supplied non-zero rate, negative ones included, is used unchanged. |
| SlipModal.TaxNonNegative | Bps-Dashboard/src/Components/SlipModal.js:28-30 | A non-negative rate applied to a non-negative subtotal gives a non-negative tax amount. |
| SlipModal.TotalAtLeastSubtotal | Bps-Dashboard/src/Components/SlipModal.js:28-31 | With a non-negative subtotal and no negative rate supplied, the total including tax is at least the subtotal. |
| SlipModal.ZeroRatesExample | Bps-Dashboard/src/Components/SlipModal.js:24-31 | Subtotal 1000 with CGST 0, SGST 0 and IGST 18 gives rates 9/9/18, amounts 90/90/180 and total 1360. |
| SlipModal.FormatCurrency | Bps-Dashboard/src/Components/SlipModal.js:14 | An absent, NaN or zero amount is shown as 0. Any other number is shown as itself. |
| SlipModal.FormatDate | Bps-Dashboard/src/Components/SlipModal.js:15 | "N/A" exactly when the date is absent or empty. Otherwise the host's rendering of that very text. |
| SlipModal.ItemRows | Bps-Dashboard/src/Components/SlipModal.js:97-106 | One row per item, in input order. Row i has six cells: number i+1, formatted insurance, formatted VPP amount, raw to-pay text, raw weight, formatted amount. |
| SlipModal.TotalsRows | Bps-Dashboard/src/Components/SlipModal.js:109-142 | First Sub Total showing the subtotal, last Total (Incl. Tax) showing the total. Row kinds are strictly ordered (so each appears at most once, CGST before SGST before IGST). A CGST, SGST or IGST row appears if and only if its rate is positive, and shows that rate and its amount. |
| SlipModal.StateRowsFollowSubtotal | Bps-Dashboard/src/Components/SlipModal.js:109-128 | When the CGST and SGST rates are both positive, their rows come second and third, right after Sub Total, and show those rates. |
| SlipModal.AbsentStateRatesShowBothRows | Bps-Dashboard/src/Components/SlipModal.js:117-128 | A booking with no CGST and SGST fields always shows a CGST 9% and an SGST 9% row, right after Sub Total. |
| SlipModal.AbsentSubtotalShowsAsZero | Bps-Dashboard/src/Components/SlipModal.js:28-31 | A missing subtotal makes every amount NaN. The totals section it renders is identical to the one for a subtotal of 0. |
| SlipModal.BuildInvoice | Bps-Dashboard/src/Components/SlipModal.js:34-146 | It is built from the booking's own `items`. It carries the fixed company name and PAN, and lists exactly the two fixed addresses. It takes jurisdiction and GSTIN from the start station, and the reference number from the first item, if any. The date is the formatted booking date, so "N/A" exactly when absent or empty. It shows the booking's from and to cities, and the sender and receiver with their GSTINs. Its item rows are exactly `ItemRows(items)` under the six fixed columns. Its totals are exactly `TotalsRows` of the subtotal and tax, which open with the subtotal and close with the total. |
| SlipModal.EmptyItemsKeepTotals | Bps-Dashboard/src/Components/SlipModal.js:97-142 | For a booking whose `items` is empty there are no item rows and no reference number, but the full totals section is still rendered. |
| SlipModal.Render | Bps-Dashboard/src/Components/SlipModal.js:11-166 | Renders nothing exactly when there is no booking. Throws exactly when `items` is absent. Otherwise renders three blocks: an invoice, a divider, and the identical invoice. |
| Collation.Compare | Bps-Dashboard/src/Pages/Admin/Bin/Bin.js:38-40 | The string comparison yields -1, 0 or 1, and 0 exactly when the strings are equal. |
| Collation.Antisymmetric | Bps-Dashboard/src/Pages/Admin/Bin/Bin.js:38-40 | Swapping the strings negates the comparison. |
| Collation.Transitive | Bps-Dashboard/src/Pages/Admin/Bin/Bin.js:38-40 | The string order is transitive. |
| Collation.Total | Bps-Dashboard/src/Pages/Admin/Bin/Bin.js:38-40 | Any two strings are ordered one way or the other. |
| RecycleBin.NextConfig | Bps-Dashboard/src/Pages/Admin/Bin/Bin.js:44-49 | After a click on a column, the key is that column. The direction is descending if and only if the previous configuration was that column, ascending. |
| RecycleBin.ClickToggleOrReset | Bps-Dashboard/src/Pages/Admin/Bin/Bin.js:44-49 | A click on the active column flips the direction. A click on another column resets to ascending. |
| RecycleBin.TwoClicks | Bps-Dashboard/src/Pages/Admin/Bin/Bin.js:44-49 | Two clicks on the active column restore the configuration. Two clicks on a new column leave it descending. |
| RecycleBin.Bin.constructor | Bps-Dashboard/src/Pages/Admin/Bin/Bin.js:19 | The initial configuration is pick-up location, ascending. |
| RecycleBin.Bin.HandleSort | Bps-Dashboard/src/Pages/Admin/Bin/Bin.js:44-49 | The state becomes the clicked key. Its direction is descending exactly when the old state was that key, ascending. |
| RecycleBin.Comparator | Bps-Dashboard/src/Pages/Admin/Bin/Bin.js:26-41 | The comparison is 0 whenever either record's value for the key is missing or empty, and whenever either date is invalid. |
| RecycleBin.ComparatorMeaning | Bps-Dashboard/src/Pages/Admin/Bin/Bin.js:32-40 | With both values present: dates compare by timestamp difference, negated for descending. Other columns are 0 exactly on equal strings, and non-positive exactly when the strings are in order for the direction. |
| RecycleBin.DescendingSwapsOperands | Bps-Dashboard/src/Pages/Admin/Bin/Bin.js:32-40 | Descending on (a, b) equals ascending on (b, a), for every column. |
| RecycleBin.ComparatorAntisymmetric | Bps-Dashboard/src/Pages/Admin/Bin/Bin.js:30-40 | Swapping the records negates the comparison, missing values included. |
| RecycleBin.ComparatorTransitive | Bps-Dashboard/src/Pages/Admin/Bin/Bin.js:30-40 | Among records that all have a value for the key (for `date`, one the host can parse), "no greater than" is transitive. |
| RecycleBin.MissingValueBreaksTransitivity | Bps-Dashboard/src/Pages/Admin/Bin/Bin.js:30 | A record without a value compares equal to both "b" and "a", though "b" compares greater than "a". |
| RecycleBin.SortedByColumn | Bps-Dashboard/src/Pages/Admin/Bin/Bin.js:26-41 | A sorted list whose records all have the value (for `date`, one the host can parse) lists dates by non-decreasing (ascending) or non-increasing (descending) timestamp, and other columns in string order for the direction. |
| RecycleBin.DescendingIsReversedAscending | Bps-Dashboard/src/Pages/Admin/Bin/Bin.js:32-40 | A list is sorted descending by a column exactly when its reverse is sorted ascending by it. |
| RecycleBin.SortedItems | Bps-Dashboard/src/Pages/Admin/Bin/Bin.js:25-42 | The result is a permutation of the input. The input is a value and stays as it was. The result is sorted by the configuration whenever every record has a value for the key (for `date`, one the host can parse). |
| RecycleBin.Insert | Bps-Dashboard/src/Pages/Admin/Bin/Bin.js:26 | One insertion step only rearranges `a[..i + 1]`: that prefix keeps its records and everything after it is unchanged. When every record is comparable and `a[..i]` was sorted, `a[..i + 1]` is sorted. |
| RecycleBin.NumberedRows | Bps-Dashboard/src/Pages/Admin/Bin/Bin.js:88-105 | One row per record, in order, row i numbered i+1 and showing record i. |
| RecycleBin.TableRows | Bps-Dashboard/src/Pages/Admin/Bin/Bin.js:87-112 | The body is the single "No deleted items found." row, spanning 7 columns, exactly when there are no records. Otherwise it is one numbered row per record. |
| RecycleBin.DataArray | Bps-Dashboard/src/Pages/Admin/Bin/Bin.js:18-22 | The values of the object in its enumeration order, one per entry. A left-out prop gives none, by the `{}` default. A `null` prop makes the call throw. |
| RecycleBin.Bin.Rows | Bps-Dashboard/src/Pages/Admin/Bin/Bin.js:22-112 | Rendering throws exactly when the prop is `null`. Otherwise the body is the placeholder row exactly when there are no values. When there are values, it is the numbered rows of a permutation of them, sorted under the current configuration when every value has the sort column (for `date`, one the host can parse). |

## Left out

- Printing (`handlePrint`) is left out: it opens a browser window, writes markup into it and calls the host's print dialog, all browser I/O.
- The restore button is left out: it only writes to the console.
- Layout is left out. This covers the React and MUI components, styling, the page geometry, `useRef` and `useMemo` caching, modal open/close, React row keys (`_id || idx`, `id || index`), the bin's header captions and the active-column indicator.
- FormatCurrency: the two-decimal text of `toFixed(2)` is not modelled. `Money` holds the amount before that rounding, and the Rupee prefix is an opaque constant.
- FormatDate: the locale text of `toLocaleDateString()` is not modelled. `LocaleDate` holds the date text the host renders.
- Date parsing (`new Date(text)`) is taken as given. Each record's date carries the timestamp the host parser yields, or `None` for an invalid date.
- Collation.Compare: `localeCompare` is stood in for by lexicographic order on character codes. The host's locale collation is not modelled. The sort proofs use only that the order is total, antisymmetric and transitive. `ComparatorMeaning`'s clause that the comparison is 0 exactly on equal strings holds for this stand-in only. `localeCompare` may return 0 for different strings, such as canonically equivalent ones.
- SortedItems: stability is not proved. The host's sort algorithm is replaced by insertion sort by adjacent swaps. When some record lacks the sort value the comparator is inconsistent, and the host may return any permutation; the model returns one of them.
- JavaScript's coercion of non-numeric field values (a rate or amount sent as a string) is not modelled. Infinities and negative zero are not modelled either. Numeric fields are absent, NaN or a real number.
- The fixed company name, PAN and column captions are constants in the model. `BuildInvoice` states that the invoice carries them.
- ComputeTax: amounts are exact reals, so IEEE-754 double rounding is not modelled. The closed form subtotal × (100 + rates) / 100 holds over reals, while the page adds doubles, which can differ in the last bits.
- ComputeTax: a `null` numeric field is not representable. A `null` subtotal gives amounts of 0 in JavaScript, not NaN. It displays the same, since both format as 0.
