/** The top-level view state of the budget client: the loaded expense list,
    the record being edited, the selected month, the salary of each month
    seen so far, the loading flag and the error banner.

    Each handler awaits one or more backend calls; here their outcomes are
    parameters, and a handler runs to completion in one method call. A call
    that throws is `Err(message)`; a handler that rethrows returns
    `ok == false`. */
module BudgetApp {
  import opened Records
  import opened Seqs

  const LoadFailure := "Failed to load data. Please check if the backend server is running."
  const AddFailure := "Failed to add expense"
  const UpdateFailure := "Failed to update expense"
  const DeleteFailure := "Failed to delete expense"
  const SalaryFailure := "Failed to update salary"

  // ---- the list transforms ----

  /** Whether a record falls in `month`, by the `YYYY-MM` prefix of its date. */
  function InMonth(month: string): Expense -> bool
  {
    (e: Expense) => MonthOf(e.date) == month
  }

  /** `monthlyExpenses`: the records of the selected month, in list order. */
  function MonthlyExpenses(expenses: seq<Expense>, month: string): (r: seq<Expense>)
    ensures |r| <= |expenses|
    ensures forall i :: 0 <= i < |r| ==> MonthOf(r[i].date) == month && r[i] in expenses
    ensures forall i :: 0 <= i < |expenses| && MonthOf(expenses[i].date) == month ==> expenses[i] in r
  {
    Filter(expenses, InMonth(month))
  }

  /** The record `addExpense` sends: the input, with today's date filled in
      when it has none. Only the date may change, and a non-empty `today`
      leaves no record undated. */
  function Dated(input: Expense, today: string): (e: Expense)
    ensures e.(date := input.date) == input
    ensures input.date != "" ==> e.date == input.date
    ensures today != "" ==> e.date != ""
  {
    if input.date != "" then input else input.(date := today)
  }

  /** The `map` in `updateExpense`: every record whose id is the updated
      record's id becomes the updated record; the rest stay where they are. */
  function ReplaceById(expenses: seq<Expense>, updated: Expense): (r: seq<Expense>)
    ensures |r| == |expenses|
    ensures forall i :: 0 <= i < |r| ==> ExpenseId(r[i]) == ExpenseId(expenses[i])
    ensures forall i :: 0 <= i < |r| ==>
      r[i] == if ExpenseId(expenses[i]) == ExpenseId(updated) then updated else expenses[i]
  {
    if expenses == [] then []
    else
      var n := |expenses| - 1;
      var last := expenses[n];
      ReplaceById(expenses[..n], updated) + [if ExpenseId(last) == ExpenseId(updated) then updated else last]
  }

  /** Records other than the one with `id`. */
  function IdIsNot(id: string): Expense -> bool
  {
    (e: Expense) => ExpenseId(e) != id
  }

  /** Records with `id`. */
  function IdIs(id: string): Expense -> bool
  {
    (e: Expense) => ExpenseId(e) == id
  }

  /** The `filter` in `deleteExpense`. */
  function RemoveById(expenses: seq<Expense>, id: string): (r: seq<Expense>)
    ensures forall i :: 0 <= i < |r| ==> ExpenseId(r[i]) != id && r[i] in expenses
    ensures forall i :: 0 <= i < |expenses| && ExpenseId(expenses[i]) != id ==> expenses[i] in r
  {
    Filter(expenses, IdIsNot(id))
  }

  /** `salaries[month] || 0`: the salary the summary is given. Stored
      salaries are numbers already coerced by `|| 0`, so a missing month is
      the only case that falls back. */
  function SalaryFor(salaries: map<string, int>, month: string): (s: int)
    ensures month !in salaries ==> s == 0
    ensures month in salaries ==> s == salaries[month]
  {
    if month in salaries then salaries[month] else 0
  }

  // ---- what the transforms promise ----

  /** A record created in the shown month appears at the end of the shown
      list; one created in another month does not change it. */
  lemma MonthlyAppend(expenses: seq<Expense>, month: string, x: Expense)
    ensures MonthlyExpenses(expenses + [x], month)
         == MonthlyExpenses(expenses, month) + (if MonthOf(x.date) == month then [x] else [])
  {
    FilterAppend(expenses, [x], InMonth(month));
    assert [x][..0] == [];
  }

  /** A list already restricted to the month passes the filter unchanged,
      so filtering the loaded list again is harmless. */
  lemma MonthlyOfMonthOnly(expenses: seq<Expense>, month: string)
    requires forall i :: 0 <= i < |expenses| ==> MonthOf(expenses[i].date) == month
    ensures MonthlyExpenses(expenses, month) == expenses
  {
    FilterKeepsAll(expenses, InMonth(month));
  }

  /** Filtering twice is filtering once. */
  lemma MonthlyIdempotent(expenses: seq<Expense>, month: string)
    ensures MonthlyExpenses(MonthlyExpenses(expenses, month), month) == MonthlyExpenses(expenses, month)
  {
    MonthlyOfMonthOnly(MonthlyExpenses(expenses, month), month);
  }

  /** Applying the same update twice is applying it once. */
  lemma {:induction false} ReplaceIdempotent(expenses: seq<Expense>, updated: Expense)
    ensures ReplaceById(ReplaceById(expenses, updated), updated) == ReplaceById(expenses, updated)
  {
    var once := ReplaceById(expenses, updated);
    var twice := ReplaceById(once, updated);
    assert |twice| == |once|;
    forall i | 0 <= i < |once|
      ensures twice[i] == once[i]
    {
      assert ExpenseId(once[i]) == ExpenseId(expenses[i]);
    }
  }

  /** An update whose id is not in the list changes nothing. */
  lemma ReplaceAbsent(expenses: seq<Expense>, updated: Expense)
    requires forall i :: 0 <= i < |expenses| ==> ExpenseId(expenses[i]) != ExpenseId(updated)
    ensures ReplaceById(expenses, updated) == expenses
  {
    var r := ReplaceById(expenses, updated);
    assert |r| == |expenses|;
    forall i | 0 <= i < |r|
      ensures r[i] == expenses[i]
    {
    }
  }

  /** Deleting splits the list: what stays and what goes add up to it. */
  lemma {:induction false} RemoveCount(expenses: seq<Expense>, id: string)
    ensures |RemoveById(expenses, id)| + |Filter(expenses, IdIs(id))| == |expenses|
  {
    if expenses != [] {
      RemoveCount(expenses[..|expenses| - 1], id);
    }
  }

  /** Deleting keeps the surviving records in their order: deleting from a
      concatenation is deleting from each part. */
  lemma RemoveAppend(a: seq<Expense>, b: seq<Expense>, id: string)
    ensures RemoveById(a + b, id) == RemoveById(a, id) + RemoveById(b, id)
  {
    FilterAppend(a, b, IdIsNot(id));
  }

  /** Adding a record with a fresh id and then deleting that id gives back
      the list. */
  lemma AddThenDelete(expenses: seq<Expense>, x: Expense)
    requires forall i :: 0 <= i < |expenses| ==> ExpenseId(expenses[i]) != ExpenseId(x)
    ensures RemoveById(expenses + [x], ExpenseId(x)) == expenses
  {
    RemoveAppend(expenses, [x], ExpenseId(x));
    FilterKeepsAll(expenses, IdIsNot(ExpenseId(x)));
    assert [x][..0] == [];
  }

  /** Storing one month's salary leaves every other month's as it was. */
  lemma SalaryUpdate(salaries: map<string, int>, month: string, amount: Option<int>, other: string)
    ensures SalaryFor(salaries[month := OrZero(amount)], other)
         == if other == month then OrZero(amount) else SalaryFor(salaries, other)
  {
  }

  // ---- the state ----

  class AppState {
    var expenses: seq<Expense>
    var editing: Option<Expense>
    var selectedMonth: string
    var salaries: map<string, int>
    var loading: bool
    /** The error banner; `None` hides it. */
    var error: Option<string>

    /** A shown banner always has text. */
    ghost predicate Valid()
      reads this
    {
      error.Some? ==> error.value != ""
    }

    /** The initial state; `month` is the current month, the first seven
        characters of the clock's ISO timestamp. */
    constructor (month: string)
      ensures Valid()
      ensures expenses == [] && editing == None && selectedMonth == month
      ensures salaries == map[] && loading && error == None
    {
      expenses := [];
      editing := None;
      selectedMonth := month;
      salaries := map[];
      loading := true;
      error := None;
    }

    /** `loadData`: `fetched` is the month's expense list or the failure of
        that call; `salary` is the fetched salary's `amount` (the salary
        call never fails: a missing salary reads as amount 0). */
    method LoadData(fetched: Result<seq<Expense>>, salary: Option<int>)
      requires Valid()
      modifies this
      ensures Valid() && !loading
      ensures editing == old(editing) && selectedMonth == old(selectedMonth)
      ensures fetched.Ok? ==>
        expenses == fetched.value && salaries == old(salaries)[selectedMonth := OrZero(salary)] && error == None
      ensures fetched.Err? ==>
        expenses == old(expenses) && salaries == old(salaries) && error == Some(LoadFailure)
    {
      loading := true;
      error := None;
      if fetched.Ok? {
        expenses := fetched.value;
        salaries := salaries[selectedMonth := OrZero(salary)];
      } else {
        error := Some(LoadFailure);
      }
      loading := false;
    }

    /** Choosing another month reloads for it. */
    method SelectMonth(month: string, fetched: Result<seq<Expense>>, salary: Option<int>)
      requires Valid()
      modifies this
      ensures Valid() && !loading && selectedMonth == month && editing == old(editing)
      ensures fetched.Ok? ==>
        expenses == fetched.value && salaries == old(salaries)[month := OrZero(salary)] && error == None
      ensures fetched.Err? ==>
        expenses == old(expenses) && salaries == old(salaries) && error == Some(LoadFailure)
    {
      selectedMonth := month;
      LoadData(fetched, salary);
    }

    /** `addExpense`: `sent` is the record posted, `created` the backend's
        answer; a record created outside the shown month triggers a reload,
        whose outcomes are `reload` and `reloadSalary`. */
    method AddExpense(input: Expense, today: string, created: Result<Expense>,
                      reload: Result<seq<Expense>>, reloadSalary: Option<int>)
      returns (sent: Expense, ok: bool)
      requires Valid()
      modifies this
      ensures Valid()
      ensures sent == Dated(input, today) && ok == created.Ok?
      ensures editing == old(editing) && selectedMonth == old(selectedMonth)
      ensures created.Err? ==>
        && expenses == old(expenses) && salaries == old(salaries) && loading == old(loading)
        && error == Some(OrElse(created.message, AddFailure))
      ensures created.Ok? && MonthOf(created.value.date) == selectedMonth ==>
        && expenses == old(expenses) + [created.value]
        && salaries == old(salaries) && loading == old(loading) && error == None
      ensures created.Ok? && MonthOf(created.value.date) != selectedMonth ==>
        && !loading
        && (reload.Ok? ==> expenses == reload.value
                           && salaries == old(salaries)[selectedMonth := OrZero(reloadSalary)]
                           && error == None)
        && (reload.Err? ==> expenses == old(expenses) && salaries == old(salaries)
                            && error == Some(LoadFailure))
    {
      error := None;
      sent := Dated(input, today);
      if created.Ok? {
        ok := true;
        if MonthOf(created.value.date) == selectedMonth {
          expenses := expenses + [created.value];
        } else {
          LoadData(reload, reloadSalary);
        }
      } else {
        ok := false;
        error := Some(OrElse(created.message, AddFailure));
      }
    }

    /** `updateExpense`: the request goes to the input's id; the list is
        then rewritten with the record the backend returned. */
    method UpdateExpense(input: Expense, response: Result<Expense>) returns (target: string, ok: bool)
      requires Valid()
      modifies this
      ensures Valid()
      ensures target == ExpenseId(input) && ok == response.Ok?
      ensures salaries == old(salaries) && selectedMonth == old(selectedMonth) && loading == old(loading)
      ensures response.Ok? ==>
        expenses == ReplaceById(old(expenses), response.value) && editing == None && error == None
      ensures response.Err? ==>
        && expenses == old(expenses) && editing == old(editing)
        && error == Some(OrElse(response.message, UpdateFailure))
    {
      error := None;
      target := ExpenseId(input);
      if response.Ok? {
        ok := true;
        expenses := ReplaceById(expenses, response.value);
        editing := None;
      } else {
        ok := false;
        error := Some(OrElse(response.message, UpdateFailure));
      }
    }

    /** `deleteExpense`: on success the records with `id` go, and the edit
        is cancelled exactly when it was editing that id. */
    method DeleteExpense(id: string, response: Result<()>) returns (ok: bool)
      requires Valid()
      modifies this
      ensures Valid()
      ensures ok == response.Ok?
      ensures salaries == old(salaries) && selectedMonth == old(selectedMonth) && loading == old(loading)
      ensures response.Ok? ==>
        && expenses == RemoveById(old(expenses), id) && error == None
        && editing == (if old(editing).Some? && ExpenseId(old(editing).value) == id then None else old(editing))
      ensures response.Err? ==>
        && expenses == old(expenses) && editing == old(editing)
        && error == Some(OrElse(response.message, DeleteFailure))
    {
      error := None;
      if response.Ok? {
        ok := true;
        expenses := RemoveById(expenses, id);
        if editing.Some? && ExpenseId(editing.value) == id {
          editing := None;
        }
      } else {
        ok := false;
        error := Some(OrElse(response.message, DeleteFailure));
      }
    }

    method StartEdit(e: Expense)
      modifies this`editing
      ensures editing == Some(e)
    {
      editing := Some(e);
    }

    method CancelEdit()
      modifies this`editing
      ensures editing == None
    {
      editing := None;
    }

    /** `updateSalary`: on success `month` holds `amount || 0` and no other
        month changes. */
    method UpdateSalary(month: string, amount: Option<int>, response: Result<()>) returns (ok: bool)
      requires Valid()
      modifies this
      ensures Valid()
      ensures ok == response.Ok?
      ensures expenses == old(expenses) && editing == old(editing)
      ensures selectedMonth == old(selectedMonth) && loading == old(loading)
      ensures response.Ok? ==> salaries == old(salaries)[month := OrZero(amount)] && error == None
      ensures response.Err? ==>
        salaries == old(salaries) && error == Some(OrElse(response.message, SalaryFailure))
    {
      error := None;
      if response.Ok? {
        ok := true;
        salaries := salaries[month := OrZero(amount)];
      } else {
        ok := false;
        error := Some(OrElse(response.message, SalaryFailure));
      }
    }

    /** The banner's close button. */
    method DismissError()
      modifies this`error
      ensures error == None
    {
      error := None;
    }
  }
}
