# Category totals of expensify-server, in Dafny

expensify-server is a small Express backend. It stores each user's transactions as rows
of a Google Sheet: date, detail, category, amount and type. Its only logic beyond calls to
Express, Prisma, bcrypt and the Sheets API sits in two handlers, and this project models
both.

- `GET /fetch-data/:username` reads the category, amount and type columns. It folds
  them, row by row, into a dictionary that maps each category to a `{credit, debit}`
  pair. Then it answers with one `{amount, category}` per category, where the amount is
  `|credit - debit|`. A row is skipped when its category is empty, its amount is `NaN`,
  or its amount is zero. Only the exact labels `"Credit"` and `"Debit"` add to a sum. A
  counted row with any other label still creates its category.
- `POST /sheets/:username` turns each request object into a five-cell row. The cells are
  date, transaction detail, category, the `parseFloat`ed amount and the type label, in
  that order.

Modules:

- `Wrappers`: the `Option` type. `None` stands for `NaN` or `undefined`.
- `CategorySpec`: the rows the loop visits (`Rows`) and the meaning of the response.
  `Categories` gives the reported categories, in order of first appearance. `Total`
  gives the credit or debit sum of one category. `Summary` gives the whole response.
  The module also holds the lemmas proved about these functions.
- `FetchData`: the handler's two loops as a method. The `data` dictionary is a local
  `map` that the loop updates, plus the sequence of its keys in insertion order, which
  is the order in which a JavaScript object enumerates them. The method is proved to
  return exactly `Summary` of its input.
- `SheetRows`: the row formatting of the push handler.

The loop runs over the length of the category column only. The amount and type columns
may be shorter. A read past the end of the amount column gives `undefined`, so the row
is skipped. A read past the end of the type column adds to neither sum. The model keeps
this behaviour, as the code has it. Written descriptions of this service speak of
truncating to the shortest column and call the output unordered. The model follows the
code: it iterates over the category column and keeps the dictionary's insertion order.

## Model

| member | source | states |
|---|---|---|
| `FetchData.FetchCategoryTotals` | index.js:138-161 | the two loops return exactly `Summary` of the rows visited, so identical inputs give equal responses and every lemma about `Summary` holds of the response |
| `CategorySpec.Rows` | index.js:139-142 | one row per category cell; a row past the end of the amount column is never counted; a row past the end of the type column is typed neither "Credit" nor "Debit" |
| `CategorySpec.Abs` | index.js:159 | `Math.abs`: the result is non-negative and is `x` or `-x` |
| `CategorySpec.CategoriesExactlySeen` | index.js:143-148 | a category gets an entry if and only if some non-skipped row carries it |
| `CategorySpec.CategoriesDistinct` | index.js:146-148 | no category gets two entries |
| `CategorySpec.CategoriesInFirstAppearanceOrder` | index.js:146-157 | entries come in order of first appearance: every counted row of a later entry's category is preceded by a counted row of each earlier entry's category |
| `CategorySpec.TotalUnseenIsZero` | index.js:143-153 | a category carried by no counted row has zero credit and zero debit sums |
| `CategorySpec.TotalAppend` | index.js:149-153 | the sums over two consecutive stretches of rows add up, so each sum does not depend on how the rows are split |
| `CategorySpec.RowContribution` | index.js:143-153 | wherever it stands, a counted row typed exactly "Credit" adds its amount to its category's credit sum only; one typed exactly "Debit" adds to the debit sum only; any other row adds nothing |
| `CategorySpec.OtherKindOnlyCreatesCategory` | index.js:146-153 | a counted row with any other type label changes no sum, but its category is still reported |
| `CategorySpec.CategoriesSkipRow` | index.js:143-145 | a skipped row creates no entry: the reported categories are those of the input without it |
| `CategorySpec.SkippedRowHasNoEffect` | index.js:143-145 | removing a skipped row (empty category, `NaN` amount or zero amount) leaves the whole response unchanged |
| `CategorySpec.SummaryCharacterization` | index.js:156-161 | the response has one entry per category of a counted row and no others; the categories are distinct and in order of first appearance; each amount is \|credit sum - debit sum\| and never negative |
| `CategorySpec.FoodRentExample` | index.js:138-161 | Food debit 50, Food credit 20 and Rent debit 300 give `[{30, Food}, {300, Rent}]` |
| `CategorySpec.ZeroAmountExample` | index.js:143-145 | a lone row with amount 0 gives an empty response |
| `CategorySpec.UnknownKindExample` | index.js:146-160 | a lone row `("Y", 10, "Unknown")` gives `[{0, Y}]` |
| `CategorySpec.ShortColumnsExample` | index.js:139-153 | with a short amount column the extra row is dropped; with an empty type column the remaining row is reported with amount 0 |
| `SheetRows.FormatRow` | index.js:178-184 | a row has five cells in the header's column order: date, detail, category, parsed amount, type |
| `SheetRows.FormatRows` | index.js:178-184 | exactly one formatted row per request object, at the same position |
| `SheetRows.ReadBackFormatted` | index.js:178-184 | columns C, D and E of each pushed row hold the category, parsed amount and type label of the object it came from, which are the columns the fetch path reads |
| `SheetRows.FormatRowsAppend` | index.js:178-184 | formatting two batches one after the other gives the rows of the joined batch |

## Left out

- Express routing, CORS, JSON body parsing and server start-up (index.js:9-11, 204-208): transport plumbing.
- User creation and login (index.js:24-112): Prisma lookups and inserts, bcrypt hashing and comparison, and the 400/401/404 answers all depend on external libraries.
- The Sheets API calls (`batchUpdate`, `values.append`, `values.get`) and `validateSheetConnection` (index.js:62-72, 117-132, 186-194): network I/O. `validateSheetConnection` is not defined in index.js and is not part of this model.
- An empty sheet range, for which the Sheets API returns no `values`, makes `.map` throw, and the handler answers 500. This error path belongs to the I/O glue and is not modelled.
- `String` and `Number` applied to one-cell row arrays (index.js:134-136), and `parseFloat` (index.js:182): the model takes the columns already converted. An amount is an exact `real` or `None` for `NaN`, and `parseFloat` is a function parameter of `FormatRows`.
- IEEE-754 addition: sums are exact reals, so rounding in long sums and `Infinity` amounts are not modelled.
- Prototype-inherited keys of the plain `{}` dictionary (a category named `constructor` is already truthy) and `for...in` listing integer-like keys first: the model treats every category as absent until inserted and enumerates keys in insertion order.
- Console logging and the mapping of errors to 500 responses.
