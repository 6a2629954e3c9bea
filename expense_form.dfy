/** The add/edit expense form: its field values, how a record is loaded into
    it, the submit guard and the record each submission sends. */
module ExpenseForm {
  import opened Records

  // ---- trimming ----

  /** The characters `String.prototype.trim` removes: white space and line
      terminators. */
  predicate IsWhitespace(c: char)
  {
    var n := c as int;
    || 0x09 <= n <= 0x0D || n == 0x20 || n == 0xA0 || n == 0x1680
    || 0x2000 <= n <= 0x200A || n == 0x2028 || n == 0x2029 || n == 0x202F
    || n == 0x205F || n == 0x3000 || n == 0xFEFF
  }

  function TrimStart(s: string): (t: string)
    ensures |t| <= |s|
    ensures t == s[|s| - |t|..]
    ensures t != "" ==> !IsWhitespace(t[0])
    ensures forall i :: 0 <= i < |s| - |t| ==> IsWhitespace(s[i])
  {
    if s != "" && IsWhitespace(s[0]) then TrimStart(s[1..]) else s
  }

  function TrimEnd(s: string): (t: string)
    ensures |t| <= |s|
    ensures t == s[..|t|]
    ensures t != "" ==> !IsWhitespace(t[|t| - 1])
    ensures forall i :: |t| <= i < |s| ==> IsWhitespace(s[i])
  {
    if s != "" && IsWhitespace(s[|s| - 1]) then TrimEnd(s[..|s| - 1]) else s
  }

  /** `s.trim()`. */
  function Trim(s: string): string
  {
    TrimEnd(TrimStart(s))
  }

  /** A title trims to nothing exactly when every character of it is white
      space. */
  lemma TrimEmpty(s: string)
    ensures Trim(s) == "" <==> forall i :: 0 <= i < |s| ==> IsWhitespace(s[i])
  {
    var a := TrimStart(s);
    if !forall i :: 0 <= i < |s| ==> IsWhitespace(s[i]) {
      var k :| 0 <= k < |s| && !IsWhitespace(s[k]);
      assert |s| - |a| <= k;
      assert a[k - (|s| - |a|)] == s[k];
      assert Trim(s) != "";
    }
  }

  // ---- the fields ----

  /** The amount field's value: the empty string, or a number (the text a
      number input holds, or a loaded record's amount). A typed `0` is a
      non-empty string and so is `Entered(0)`; a loaded amount of 0 is
      falsy and becomes `Blank`. */
  datatype AmountField = Blank | Entered(value: int)

  /** `formData`; `kind` is its `type` field. */
  datatype ExpenseFields = ExpenseFields(
    title: string,
    amount: AmountField,
    category: string,
    date: string,
    kind: string)

  /** The empty form: no title or amount, category Food, type expense, and
      the first day of the selected month. */
  function Defaults(month: string): (f: ExpenseFields)
    ensures f.title == "" && f.amount == Blank
    ensures f.category == "Food" && f.kind == "expense"
    ensures |month| == 7 ==> MonthOf(f.date) == month
  {
    ExpenseFields("", Blank, "Food", FirstDay(month), "expense")
  }

  /** A record loaded into the form: each falsy field falls back to its
      default. */
  function FromRecord(e: Expense, month: string): (f: ExpenseFields)
    ensures f.title == e.title
    ensures f.amount == if e.amount != 0 then Entered(e.amount) else Defaults(month).amount
    ensures f.category == if e.category != "" then e.category else Defaults(month).category
    ensures f.date == if e.date != "" then e.date else Defaults(month).date
    ensures f.kind == if e.kind != "" then e.kind else Defaults(month).kind
  {
    ExpenseFields(
      e.title,
      if e.amount != 0 then Entered(e.amount) else Blank,
      OrElse(e.category, "Food"),
      OrElse(e.date, FirstDay(month)),
      OrElse(e.kind, "expense"))
  }

  /** What the effect puts in the form whenever the edited record or the
      month changes. */
  function Populate(editing: Option<Expense>, month: string): ExpenseFields
  {
    match editing
    case Some(e) => FromRecord(e, month)
    case None => Defaults(month)
  }

  /** One input event: the named field and its new value. */
  datatype FieldChange =
    | SetTitle(title: string)
    | SetAmount(amount: AmountField)
    | SetCategory(category: string)
    | SetDate(date: string)
    | SetKind(kind: string)

  /** `handleChange`: `{ ...prev, [name]: value }`. */
  function ApplyChange(f: ExpenseFields, ch: FieldChange): ExpenseFields
  {
    match ch
    case SetTitle(v) => f.(title := v)
    case SetAmount(v) => f.(amount := v)
    case SetCategory(v) => f.(category := v)
    case SetDate(v) => f.(date := v)
    case SetKind(v) => f.(kind := v)
  }

  /** The named field takes the value and every other field keeps its own. */
  lemma ChangeOneField(f: ExpenseFields, ch: FieldChange)
    ensures var g := ApplyChange(f, ch);
      && g.title == (if ch.SetTitle? then ch.title else f.title)
      && g.amount == (if ch.SetAmount? then ch.amount else f.amount)
      && g.category == (if ch.SetCategory? then ch.category else f.category)
      && g.date == (if ch.SetDate? then ch.date else f.date)
      && g.kind == (if ch.SetKind? then ch.kind else f.kind)
  {
  }

  // ---- submitting ----

  /** What `handleSubmit` does with the form: nothing (the alert), or one of
      the two callbacks with the record it builds. */
  datatype Submission = Rejected | Add(record: Expense) | Update(record: Expense)

  /** The guard: a title with something besides white space, and an amount. */
  predicate Complete(f: ExpenseFields)
  {
    Trim(f.title) != "" && f.amount.Entered?
  }

  /** `{ ...formData, amount: parseFloat(formData.amount) }`, carrying `ids`. */
  function Payload(f: ExpenseFields, ids: RecordId): (e: Expense)
    requires f.amount.Entered?
    ensures e.ids == ids && e.amount == f.amount.value
    ensures e.title == f.title && e.category == f.category && e.date == f.date && e.kind == f.kind
  {
    Expense(ids, f.title, f.amount.value, f.category, f.date, f.kind)
  }

  /** `handleSubmit`'s decision. An edit carries `_id` and `id` both set to
      the edited record's identifier; an add carries neither. */
  function Submit(f: ExpenseFields, editing: Option<Expense>): (s: Submission)
    ensures s.Rejected? <==> !Complete(f)
    ensures s.Add? <==> Complete(f) && editing.None?
    ensures s.Update? <==> Complete(f) && editing.Some?
    ensures s.Add? ==> s.record == Payload(f, RecordId("", ""))
    ensures s.Update? ==>
      var k := IdOf(editing.value.ids);
      s.record == Payload(f, RecordId(k, k))
  {
    if !Complete(f) then Rejected
    else match editing
      case None => Add(Payload(f, RecordId("", "")))
      case Some(e) =>
        var k := IdOf(e.ids);
        Update(Payload(f, RecordId(k, k)))
  }

  /** The empty form is never submitted. */
  lemma DefaultsRejected(month: string, editing: Option<Expense>)
    ensures Submit(Defaults(month), editing) == Rejected
  {
  }

  /** An edit is sent under the identifier of the record being edited,
      whatever the form holds. */
  lemma UpdateKeepsIdentity(f: ExpenseFields, e: Expense)
    requires Complete(f)
    ensures Submit(f, Some(e)).Update?
    ensures ExpenseId(Submit(f, Some(e)).record) == ExpenseId(e)
  {
  }

  /** Loading a complete record and submitting it unchanged sends the record
      back, its identifier copied into both `_id` and `id`. */
  lemma EditRoundTrip(e: Expense, month: string)
    requires Trim(e.title) != "" && e.amount != 0
    requires e.category != "" && e.date != "" && e.kind != ""
    ensures var k := IdOf(e.ids);
      Submit(FromRecord(e, month), Some(e)) == Update(e.(ids := RecordId(k, k)))
  {
  }

  /** A record whose amount is 0 loads with an empty amount, so it cannot be
      saved again until an amount is typed. */
  lemma ZeroAmountBlocksEdit(e: Expense, month: string)
    requires e.amount == 0
    ensures Submit(FromRecord(e, month), Some(e)) == Rejected
  {
  }

  // ---- the component ----

  class ExpenseFormState {
    var formData: ExpenseFields
    /** The `editingExpense` and `selectedMonth` props. */
    var editing: Option<Expense>
    var selectedMonth: string

    /** Mounting: the effect runs once with the initial props. */
    constructor (editing: Option<Expense>, month: string)
      ensures this.editing == editing && selectedMonth == month
      ensures formData == Populate(editing, month)
    {
      this.editing := editing;
      selectedMonth := month;
      formData := Populate(editing, month);
    }

    /** New props: the effect repopulates the form, discarding what was
        typed. */
    method Sync(editing: Option<Expense>, month: string)
      modifies this
      ensures this.editing == editing && selectedMonth == month
      ensures formData == Populate(editing, month)
    {
      this.editing := editing;
      selectedMonth := month;
      formData := Populate(editing, month);
    }

    method HandleChange(ch: FieldChange)
      modifies this`formData
      ensures formData == ApplyChange(old(formData), ch)
    {
      formData := ApplyChange(formData, ch);
    }

    /** `handleSubmit`: `s` is what it hands to a callback (nothing when
        rejected) and `callbackOk` whether that callback returned without
        throwing. Only a successful add clears the form. */
    method HandleSubmit(callbackOk: bool) returns (s: Submission)
      modifies this`formData
      ensures s == Submit(old(formData), editing)
      ensures formData == if s.Add? && callbackOk then Defaults(selectedMonth) else old(formData)
    {
      s := Submit(formData, editing);
      if s.Add? && callbackOk {
        formData := Defaults(selectedMonth);
      }
    }
  }
}
