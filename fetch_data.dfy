/**
 * The aggregation in `GET /fetch-data/:username`, written as the handler runs it: one
 * counted loop that builds the `data` dictionary in place, and a second loop that pushes
 * one `{amount, category}` per key onto `categoryResults`.
 *
 * A JavaScript object enumerates its (non-numeric) keys in insertion order; the
 * dictionary is therefore kept as a map together with the sequence of its keys in the
 * order they were first inserted.
 */
module FetchData {
  import opened Wrappers
  import opened CategorySpec

  /** The value stored per category: `{credit, debit}`. */
  datatype Sums = Sums(credit: real, debit: real)

  /** Aggregates the category, amount and type columns (already converted with `String`
      and `Number`; a `None` amount is `NaN`) into the per-category totals the handler
      returns. The result is exactly `Summary` of the rows the loop visits, so identical
      inputs give equal outputs and the properties proved of `Summary` hold of it. */
  method FetchCategoryTotals(categoryData: seq<string>, amountData: seq<Option<real>>, typeData: seq<string>)
    returns (categoryResults: seq<CategoryTotal>)
    ensures categoryResults == Summary(Rows(categoryData, amountData, typeData))
  {
    ghost var rows := Rows(categoryData, amountData, typeData);
    var keys: seq<string> := [];
    var data: map<string, Sums> := map[];
    for i := 0 to |categoryData|
      invariant keys == Categories(rows[..i])
      invariant forall c :: c in data <==> c in keys
      invariant forall c :: c in data ==>
        data[c] == Sums(Total(rows[..i], c, Credit), Total(rows[..i], c, Debit))
    {
      var category := categoryData[i];
      var amount := if i < |amountData| then amountData[i] else None;
      var kind := if i < |typeData| then Some(typeData[i]) else None;
      assert rows[..i + 1][..i] == rows[..i];
      assert rows[..i + 1][i] == rows[i] == Row(category, amount, kind);
      if category == "" || amount.None? || amount.value == 0.0 {
        continue;
      }
      if category !in data {
        CategoriesExactlySeen(rows[..i], category);
        TotalUnseenIsZero(rows[..i], category, Credit);
        TotalUnseenIsZero(rows[..i], category, Debit);
        data := data[category := Sums(0.0, 0.0)];
        keys := keys + [category];
      }
      if kind == Some(Credit) {
        data := data[category := data[category].(credit := data[category].credit + amount.value)];
      } else if kind == Some(Debit) {
        data := data[category := data[category].(debit := data[category].debit + amount.value)];
      }
    }
    assert rows[..|categoryData|] == rows;

    categoryResults := [];
    for k := 0 to |keys|
      invariant categoryResults == Summary(rows)[..k]
    {
      var category := keys[k];
      var amount := Abs(data[category].credit - data[category].debit);
      categoryResults := categoryResults + [CategoryTotal(amount, category)];
    }
  }
}
