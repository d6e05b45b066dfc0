# Order summary: a Dafny model

This is a model of the order summariser in a small React page
(`src/App.tsx`). The page loads a spreadsheet, takes its first sheet as rows
of cells, skips the header row, and reads each remaining row. A row counts
when its SKU cell (column I, index 8) is text that is not blank. Its quantity
is the cell in column S (index 18) passed through `Number(x) || 0`.

Each counted row is routed by the upper-cased first character of its SKU:
- "K", "L" or "D" SKUs go to the first table;
- "R" SKUs go to the second table;
- any other SKU goes to neither table but still adds to the grand total.

Each table holds one entry per distinct SKU, in first-seen order, with the
summed quantity. A copy button puts a table on the clipboard as
`"<sku> - <qty>"` lines joined by line feeds.

The model has these modules:
- `Wrappers`: `Option`.
- `Cells`: raw cells, plus the three JavaScript conversions the summariser depends on:
  - `trim`, with the ECMAScript whitespace set;
  - `Number(text)` on integer text;
  - the template-literal rendering of an integer.
- `OrderedRecord`: a plain JavaScript object used as a dictionary. It keeps keys in insertion order, reads a missing key as 0 (`obj[k] || 0`) and has `Object.entries`.
- `Tally`: per-key totals of keyed quantities, generic in the key. It contains:
  - the specification functions `FirstSeen`, `SumFor` and `Aggregate`;
  - `Tallies`, the invariant the dictionary keeps while the loop fills it;
  - the conservation and ordering lemmas.
- `Summary`: the row handling and the specification `SummaryOf`. It also has:
  - the imperative `forEach` loop, as `AddRow` and `Summarize`;
  - `Summarize` proved to produce exactly `SummaryOf`;
  - the properties of the tables and the grand total.
- `Clipboard`: the clipboard text and its partners. `Split` cuts text at line feeds and `ParseLine` reads a line back into a table row.

Quantities may be negative: `Number("-3") || 0` is -3, and the model keeps it.

## Model

| member | source | states |
|---|---|---|
| Summary.Summarize | src/App.tsx:25-48 | Two empty dictionaries and a zero total, after every row past the header goes through the callback and the entries are mapped to records, give exactly `SummaryOf(rows)`: both tables and the grand total |
| Summary.AddRow | src/App.tsx:31-44 | One callback step keeps the loop invariant. Afterwards each dictionary tallies its group's lines in first-seen order and the total is the sum of all kept lines. A row without a usable SKU adds no line; any other row adds exactly its own line |
| Summary.LineOf | src/App.tsx:32-34 | A row is kept exactly when its SKU cell is text that is not all whitespace. A kept row's key is that untrimmed text and its quantity is `Number(cell) \|\| 0` of the quantity cell. Cells are read with `CellAt`, which gives `undefined` past the end of a short row |
| Summary.GroupOfFirstChar | src/App.tsx:35-40 | A SKU is in the "K/L/D" group exactly when its first character is one of K, L, D, k, l, d, and in the "R" group exactly when it is R or r. Leading whitespace is not skipped: " K1" is in neither group |
| Summary.InGroup | src/App.tsx:35-40 | Every line routed to a group has a SKU of that group |
| Summary.HeaderIgnored | src/App.tsx:31 | Replacing the first row by any other row leaves the summary unchanged |
| Summary.SkippedRowIgnored | src/App.tsx:34 | Inserting a row without a text, non-blank SKU anywhere after the header leaves both tables and the total unchanged |
| Summary.UnreadableQuantityIsZero | src/App.tsx:33 | A row with a usable SKU whose quantity cell reads as no number is still kept, with quantity 0 |
| Summary.TableContents | src/App.tsx:36-40 | Every table row's SKU is routed to that table. The SKUs in a table are pairwise distinct. A SKU is listed exactly when some kept row carries it and it is routed to that table |
| Summary.GroupsDisjoint | src/App.tsx:36-40 | No SKU appears in both tables |
| Summary.TableQuantities | src/App.tsx:37-47 | Each table row's quantity is the sum of the quantities of all kept rows whose SKU is exactly that string |
| Summary.TableOrder | src/App.tsx:37-47 | Table rows are ordered by the position where each SKU first occurs among the kept rows |
| Summary.TableTotal | src/App.tsx:37-47 | A table's quantities add up to the quantities of all the rows routed to it |
| Summary.Partition | src/App.tsx:36-42 | The sum over all kept rows is the sum over the "K/L/D" rows, plus the "R" rows, plus the rows of neither group |
| Summary.Conservation | src/App.tsx:36-42 | The grand total is the first table's total, plus the second table's total, plus the quantities of kept rows that neither table takes |
| Summary.ItemsTotal | src/App.tsx:46-47 | Mapping dictionary entries to `{ sku, qty }` records keeps the sum of the quantities |
| Summary.OrderRowKept | src/App.tsx:32-34 | A row whose SKU text starts with a non-whitespace character is kept with its numeric quantity |
| Summary.BlankRowSkipped | src/App.tsx:34 | A row whose SKU cell is the empty text is not kept |
| Summary.ExampleSummary | src/App.tsx:31-47 | For four lines where the first and third share a "K/L/D" SKU, the second is "R" and the fourth is in neither group: the first table has one merged entry, the second table has one entry, and the total is all four quantities |
| Summary.ExampleLines | src/App.tsx:31-47 | The kept order lines "K100" 5, "r200" 3, "K100" 2 and "Z900" 7 give the tables [K100 7] and [r200 3] and the total 17 |
| Summary.EmptySheet | src/App.tsx:27-31 | A sheet with no rows, or with a header only, gives two empty tables and a grand total of 0 |
| Summary.ExampleCaseSensitive | src/App.tsx:37-46 | "K100" and "k100" share the "K/L/D" table as two entries, in their order |
| Tally.FirstSeen | src/App.tsx:37-46 | The keys of first occurrence are pairwise distinct and are exactly the keys that occur |
| Tally.TalliesPut | src/App.tsx:37-39 | `map[sku] = (map[sku] \|\| 0) + qty` on a dictionary that tallies the lines seen so far gives one that tallies them plus the new line: keys in first-seen order and every key's value its sum |
| Tally.TalliesEntries | src/App.tsx:46-47 | `Object.entries` of a tallying dictionary is one pair per distinct key, in first-seen order, each with its key's sum |
| Tally.TalliesEmpty | src/App.tsx:27-28 | The empty dictionary tallies no lines |
| Tally.AggregateTotal | src/App.tsx:37-42 | Summing per key loses and duplicates nothing: the per-key totals add up to the sum of all the lines |
| Tally.SumForAbsent | src/App.tsx:37-39 | A key carried by no line totals 0, as `map[sku] \|\| 0` reads a missing key |
| Tally.SelectHasKey | src/App.tsx:36-40 | A key occurs among the selected lines exactly when it occurs at all and passes the test |
| Tally.SelectSumFor | src/App.tsx:36-40 | Selecting lines by a test their key passes keeps that key's total |
| Tally.SelectOrder | src/App.tsx:36-46 | The first-seen keys of the selected lines are in the order of their first position among all the lines |
| Tally.AggregateOne | src/App.tsx:37 | One line aggregates to its own key and quantity |
| Tally.AggregateSameKey | src/App.tsx:37 | Two lines with the same key merge into one pair with the summed quantity |
| Tally.AggregateTwoKeys | src/App.tsx:37 | Two lines with different keys stay two pairs, in their order |
| OrderedRecord.Record.Put | src/App.tsx:37-39 | After storing, the key reads as the new value and every other key as before. A present key keeps its place and a new key is enumerated last |
| OrderedRecord.Record.PutValid | src/App.tsx:37-39 | Storing keeps every key enumerated once and exactly the stored keys enumerated |
| OrderedRecord.Empty | src/App.tsx:27-28 | `{}` has no keys and reads every key as 0 |
| Cells.Trim | src/App.tsx:34 | `trim` gives the empty text exactly when the text is all whitespace. Otherwise the result neither starts nor ends with whitespace |
| Cells.QuantityCoercion | src/App.tsx:33 | `Number(x) \|\| 0` is 0 for an absent cell, for unreadable text and for blank text. It is the number itself for a numeric cell, and the parsed value for readable text |
| Cells.ParseRendered | src/App.tsx:54 | The rendering of an integer in a template literal reads back under `Number` as the same integer |
| Cells.NatToStringValue | src/App.tsx:54 | The decimal digits of a natural number evaluate back to it |
| Clipboard.FormatItem | src/App.tsx:54 | A line begins with the SKU as it is, then " - ", then the quantity, which holds only a sign and digits |
| Clipboard.ClipboardText | src/App.tsx:54 | The clipboard text is empty exactly when the table is empty |
| Clipboard.NoTrailingNewline | src/App.tsx:54 | For a non-empty table the text ends with a digit, so never with a line feed |
| Clipboard.JoinEndsWith | src/App.tsx:54 | Joining non-empty lines ends the text with the last line |
| Clipboard.SplitJoin | src/App.tsx:54 | Splitting joined lines that contain no line feed gives the lines back |
| Clipboard.ParseFormatted | src/App.tsx:54 | A formatted line reads back as the table row it was made from |
| Clipboard.ClipboardRoundTrip | src/App.tsx:54 | If no SKU holds a line feed, the clipboard text splits into exactly one line per table row, in order, and each line reads back as its row |
| Clipboard.FormattedNoNewline | src/App.tsx:54 | A line holds a line feed only if its SKU does |
| Clipboard.LastDashOf | src/App.tsx:54 | When no space follows the separator, the separator is the last " - " of the line |

## Left out

- Loading the file (`FileReader`, `readAsArrayBuffer`, `XLSX.read`, `sheet_to_json`, src/App.tsx:14-23, 50): asynchronous I/O and a foreign library. The model starts from the rows as a `seq<Row>`.
- Boolean and date cells that `sheet_to_json` can produce: a cell is text, an integer or absent.
- React state and rendering (`useState`, the setters, `renderTable`, `renderBtn`, the JSX, the `grandTotal > 0` display guard, src/App.tsx:10-12, 46-48, 61-103): presentation only. `Summarize` returns the three values that are handed to the setters.
- `navigator.clipboard.writeText` and `alert` (src/App.tsx:55-56): browser side effects. Only the text that is built is modelled.
- Cells.ParseNumber: `Number` on text is modelled for decimal integers only. These are: optional surrounding whitespace, an optional sign, and one or more digits, with blank text read as 0. Fractions, exponents, hexadecimal, binary and octal literals and "Infinity" read as no number here, although JavaScript reads them as numbers. Quantities are integers, not doubles, so rounding and precision loss are not modelled.
- Cells.Quantity: a numeric cell is an integer, so `NaN` cells and non-integer numbers do not arise. `-0` is not distinguished from 0.
- Cells.IntToString: integers are rendered in plain decimal at every size. JavaScript switches to exponent notation from 1e21 upwards.
- Summary.UpperAscii: `toUpperCase` is applied to ASCII letters only. Outside ASCII, no character upper-cases to a single K, L, D or R, so routing is unaffected. The model also works on characters rather than UTF-16 code units.
- OrderedRecord: the insertion order of `Object.entries` is assumed for every key. That holds here because every stored SKU starts with a letter, so none is an array index. No `Object.prototype` property name starts with k, l, d or r in either case, so no stored key can clash with an inherited property.
- Clipboard.ClipboardRoundTrip: the round trip is stated for tables whose SKUs hold no line feed. A SKU containing a line feed splits into extra lines on the clipboard.
