/** The records the budget client exchanges with its backend, and the small
    JavaScript idioms every view applies to them (`x || 0`, `_id || id`,
    `date.slice(0, 7)`).

    Amounts are exact integers (cents); a value JavaScript would hold as
    `undefined`, `null` or `NaN` in a numeric field is `None`, and a missing
    string field is the empty string, which JavaScript also treats as false. */
module Records {

  datatype Option<T> = None | Some(value: T)

  /** The outcome of a backend call: its value, or the thrown error's
      `message` (empty when the error carried none). */
  datatype Result<T> = Ok(value: T) | Err(message: string)

  /** `x || 0` on a number: a missing or `NaN` value reads as zero. */
  function OrZero(x: Option<int>): int
  {
    match x
    case Some(v) => v
    case None => 0
  }

  /** `s || fallback` on a string: an empty string gives way to the
      fallback (an error banner's text, a form field's default). */
  function OrElse(s: string, fallback: string): (t: string)
    requires fallback != ""
    ensures t != ""
    ensures s != "" ==> t == s
    ensures s == "" ==> t == fallback
  {
    if s != "" then s else fallback
  }

  /** A record's two identifier fields: the backend's `_id` and a plain
      `id`; either may be absent (empty). */
  datatype RecordId = RecordId(underscoreId: string, id: string)

  /** `record._id || record.id`: the one identifier every view compares. */
  function IdOf(r: RecordId): (k: string)
    ensures r.underscoreId != "" ==> k == r.underscoreId
    ensures r.underscoreId == "" ==> k == r.id
  {
    if r.underscoreId != "" then r.underscoreId else r.id
  }

  /** An expense (or income) record. `kind` is the record's `type` field;
      the backend may hold any string there, and the views treat
      `"income"` and `"expense"` specially. `date` is `YYYY-MM-DD` text. */
  datatype Expense = Expense(
    ids: RecordId,
    title: string,
    amount: int,
    category: string,
    date: string,
    kind: string)

  function ExpenseId(e: Expense): string
  {
    IdOf(e.ids)
  }

  /** `date.slice(0, 7)`: the `YYYY-MM` month a record belongs to. JavaScript's
      `slice` returns the whole string when it is shorter than seven. */
  function MonthOf(date: string): (m: string)
    ensures |m| == if |date| < 7 then |date| else 7
    ensures m <= date
  {
    if |date| < 7 then date else date[..7]
  }

  /** `selectedMonth + '-01'`: the first day of a month, the forms' default
      date. Its month is the month it was built from. */
  function FirstDay(month: string): (d: string)
    ensures |month| == 7 ==> MonthOf(d) == month
  {
    month + "-01"
  }

  function IsIncome(e: Expense): bool
  {
    e.kind == "income"
  }

  function IsExpense(e: Expense): bool
  {
    e.kind == "expense"
  }

  /** Neither income nor expense: a type the backend may hold but the forms
      never produce. */
  function IsOtherKind(e: Expense): bool
  {
    !IsIncome(e) && !IsExpense(e)
  }

  function NotIncome(e: Expense): bool
  {
    !IsIncome(e)
  }

  function Amount(e: Expense): int
  {
    e.amount
  }
}
