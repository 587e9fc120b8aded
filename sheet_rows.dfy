/**
 * The row formatting in `POST /sheets/:username`: each transaction object of the request
 * body becomes one five-cell sheet row, in the column order of the header row written
 * when the user's sheet is created (A: Date, B: Detail, C: Category, D: Amount, E: Type).
 */
module SheetRows {
  import opened Wrappers

  /** One object of the request body. `amount` is the raw value handed to `parseFloat`. */
  datatype Transaction = Transaction(
    date: string,
    transactionDetail: string,
    category: string,
    amount: string,
    debitCredit: string)

  /** A sheet cell: text as sent, or the result of `parseFloat` (`None` is `NaN`). */
  datatype Cell = Text(text: string) | Number(number: Option<real>)

  /** The header row written when a user's sheet is created. */
  const Header: seq<string> := ["Date", "Detail", "Category", "Amount", "Type"]

  const DateColumn: nat := 0
  const DetailColumn: nat := 1
  const CategoryColumn: nat := 2
  const AmountColumn: nat := 3
  const TypeColumn: nat := 4

  /** One request object as a sheet row; `parseFloat` is JavaScript's string-to-number
      parser, passed in because string parsing is not part of this model. */
  function FormatRow(t: Transaction, parseFloat: string -> Option<real>): (row: seq<Cell>)
    ensures |row| == |Header|
    ensures Header[DateColumn] == "Date" && row[DateColumn] == Text(t.date)
    ensures Header[DetailColumn] == "Detail" && row[DetailColumn] == Text(t.transactionDetail)
    ensures Header[CategoryColumn] == "Category" && row[CategoryColumn] == Text(t.category)
    ensures Header[AmountColumn] == "Amount" && row[AmountColumn] == Number(parseFloat(t.amount))
    ensures Header[TypeColumn] == "Type" && row[TypeColumn] == Text(t.debitCredit)
  {
    [Text(t.date), Text(t.transactionDetail), Text(t.category), Number(parseFloat(t.amount)), Text(t.debitCredit)]
  }

  /** `body.map(...)`: exactly one row per request object, in the same order. */
  function FormatRows(body: seq<Transaction>, parseFloat: string -> Option<real>): (rows: seq<seq<Cell>>)
    ensures |rows| == |body|
    ensures forall i :: 0 <= i < |body| ==> rows[i] == FormatRow(body[i], parseFloat)
  {
    if body == [] then []
    else [FormatRow(body[0], parseFloat)] + FormatRows(body[1..], parseFloat)
  }

  /** The text a row holds in a text column, if any. */
  function TextAt(row: seq<Cell>, column: nat): Option<string>
  {
    if column < |row| && row[column].Text? then Some(row[column].text) else None
  }

  /** Reads back, from a formatted row, the fields the fetch path aggregates (columns C,
      D and E): category, amount and type. */
  function ReadBack(row: seq<Cell>): Option<(string, Option<real>, string)>
  {
    if |row| == |Header| && TextAt(row, CategoryColumn).Some? && row[AmountColumn].Number?
       && TextAt(row, TypeColumn).Some?
    then Some((TextAt(row, CategoryColumn).value, row[AmountColumn].number, TextAt(row, TypeColumn).value))
    else None
  }

  /** Every pushed row yields back the category, the parsed amount and the type label of
      the request object it came from, at the same position. */
  lemma ReadBackFormatted(body: seq<Transaction>, parseFloat: string -> Option<real>)
    ensures forall i :: 0 <= i < |body| ==>
      ReadBack(FormatRows(body, parseFloat)[i]) == Some((body[i].category, parseFloat(body[i].amount), body[i].debitCredit))
  {
  }

  /** Formatting two batches one after the other gives the rows of the joined batch. */
  lemma FormatRowsAppend(a: seq<Transaction>, b: seq<Transaction>, parseFloat: string -> Option<real>)
    ensures FormatRows(a + b, parseFloat) == FormatRows(a, parseFloat) + FormatRows(b, parseFloat)
  {
  }
}
