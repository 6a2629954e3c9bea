/** The predefined-expenses panel: recurring templates, the form that creates
    or edits one, and the buttons that ask the backend to turn the active
    templates into expenses for one month or for every month from the
    selected one on.

    What the backend then does (which day a template lands on, skipping
    inactive templates, duplicates) is not part of this panel; the model
    covers the requests the panel sends and the state it keeps. */
module Predefined {
  import opened Records
  import opened Seqs

  /** A stored template. `dayOfMonth` and `isActive` may be absent
      (`None`); `kind` is the `type` field. */
  datatype Template = Template(
    ids: RecordId,
    title: string,
    amount: int,
    category: string,
    kind: string,
    dayOfMonth: Option<int>,
    isActive: Option<bool>,
    description: string)

  /** The form's fields. `amount` is `None` while it holds the initial
      empty string; after any edit it is a number. */
  datatype TemplateFields = TemplateFields(
    title: string,
    amount: Option<int>,
    category: string,
    kind: string,
    dayOfMonth: int,
    isActive: bool,
    description: string)

  /** The empty form, which `resetForm` restores. */
  function DefaultFields(): (f: TemplateFields)
    ensures f.title == "" && f.amount == None && f.description == ""
    ensures f.category == "Food" && f.kind == "expense"
    ensures f.dayOfMonth == 1 && f.isActive
  {
    TemplateFields("", None, "Food", "expense", 1, true, "")
  }

  /** `dayOfMonth || 1`. */
  function DayOrFirst(d: Option<int>): (day: int)
    ensures day != 0
    ensures d.Some? && d.value != 0 ==> day == d.value
    ensures d.None? || d.value == 0 ==> day == 1
  {
    if OrZero(d) != 0 then OrZero(d) else 1
  }

  /** `isActive !== undefined ? isActive : true`. */
  function ActiveOrTrue(a: Option<bool>): (active: bool)
    ensures a.Some? ==> active == a.value
    ensures a.None? ==> active
  {
    match a
    case Some(b) => b
    case None => true
  }

  /** `handleEdit`'s form: title, amount, category and type as stored; the
      day, the active flag and the description fall back when absent. */
  function EditFields(t: Template): (f: TemplateFields)
    ensures f.title == t.title && f.amount == Some(t.amount)
    ensures f.category == t.category && f.kind == t.kind
    ensures f.dayOfMonth == DayOrFirst(t.dayOfMonth)
    ensures f.isActive == ActiveOrTrue(t.isActive)
    ensures f.description == t.description
  {
    TemplateFields(t.title, Some(t.amount), t.category, t.kind,
                   DayOrFirst(t.dayOfMonth), ActiveOrTrue(t.isActive), t.description)
  }

  /** `expense.isActive`: only a stored `true` counts as active. */
  predicate IsActive(t: Template)
  {
    t.isActive == Some(true)
  }

  /** `activeExpenses`. */
  function ActiveTemplates(ts: seq<Template>): (r: seq<Template>)
    ensures forall i :: 0 <= i < |r| ==> IsActive(r[i]) && r[i] in ts
    ensures forall i :: 0 <= i < |ts| && IsActive(ts[i]) ==> ts[i] in r
  {
    Filter(ts, IsActive)
  }

  /** A template stored without `isActive` is listed as inactive, yet the
      edit form shows it as active, so saving it unchanged activates it. */
  lemma UnsetActiveEditsAsActive(t: Template)
    requires t.isActive == None
    ensures !IsActive(t) && EditFields(t).isActive
  {
  }

  /** A template stored with day 0 or no day edits as day 1. */
  lemma MissingDayEditsAsFirst(t: Template)
    requires t.dayOfMonth.None? || t.dayOfMonth == Some(0)
    ensures EditFields(t).dayOfMonth == 1
  {
  }

  // ---- input events ----

  /** One input event of the form. The number inputs carry what
      `parseFloat` made of the text (`None` for `NaN`), the checkbox its
      `checked` state, the text inputs and selects their raw value. */
  datatype TemplateChange =
    | TitleInput(text: string)
    | AmountInput(parsed: Option<int>)
    | KindSelect(kind: string)
    | CategorySelect(category: string)
    | DayInput(parsed: Option<int>)
    | DescriptionInput(text: string)
    | ActiveCheckbox(checked: bool)

  /** `handleChange`: a checkbox stores `checked`, a number input
      `parseFloat(value) || 0`, any other input its raw value. */
  function ApplyTemplateChange(f: TemplateFields, ch: TemplateChange): TemplateFields
  {
    match ch
    case TitleInput(v) => f.(title := v)
    case AmountInput(p) => f.(amount := Some(OrZero(p)))
    case KindSelect(v) => f.(kind := v)
    case CategorySelect(v) => f.(category := v)
    case DayInput(p) => f.(dayOfMonth := OrZero(p))
    case DescriptionInput(v) => f.(description := v)
    case ActiveCheckbox(b) => f.(isActive := b)
  }

  /** Each field takes the value of its own event, coerced for the number
      inputs (text that does not parse is stored as 0), `checked` for the
      checkbox and the raw value otherwise, and keeps its old value under
      any other event. */
  lemma ChangeCoerces(f: TemplateFields, ch: TemplateChange)
    ensures var g := ApplyTemplateChange(f, ch);
      && g.title == (if ch.TitleInput? then ch.text else f.title)
      && g.amount == (if ch.AmountInput? then Some(OrZero(ch.parsed)) else f.amount)
      && g.kind == (if ch.KindSelect? then ch.kind else f.kind)
      && g.category == (if ch.CategorySelect? then ch.category else f.category)
      && g.dayOfMonth == (if ch.DayInput? then OrZero(ch.parsed) else f.dayOfMonth)
      && g.description == (if ch.DescriptionInput? then ch.text else f.description)
      && g.isActive == (if ch.ActiveCheckbox? then ch.checked else f.isActive)
    ensures ch.AmountInput? ==> ApplyTemplateChange(f, ch).amount.Some?
    ensures ch.AmountInput? && ch.parsed.None? ==> ApplyTemplateChange(f, ch).amount == Some(0)
  {
  }

  // ---- requests ----

  /** Saving: update the edited template under its identifier, or create a
      new one. The create body's `parseFloat(formData.amount)` leaves a
      number as it is and turns the initial empty string into `NaN`, which
      is the `None` the field already holds. */
  datatype SaveRequest = CreateTemplate(body: TemplateFields) | UpdateTemplate(id: string, body: TemplateFields)

  function SaveRequestFor(editing: Option<Template>, f: TemplateFields): (r: SaveRequest)
    ensures r.body == f
    ensures r.UpdateTemplate? <==> editing.Some?
    ensures r.UpdateTemplate? ==> r.id == IdOf(editing.value.ids)
  {
    match editing
    case Some(t) => UpdateTemplate(IdOf(t.ids), f)
    case None => CreateTemplate(f)
  }

  /** `{ isPredefined: true }`. */
  datatype ApplyOptions = ApplyOptions(isPredefined: bool)

  /** The `endMonth` argument of the apply-to-all call: absent (`null`), a
      month, or, as the panel's call passes it, the options object. */
  datatype EndMonthArg = NoEnd | EndAt(month: string) | OptionsAsEnd(options: ApplyOptions)

  /** The bodies of the two apply calls. `ids` is `None` for "every active
      template" and names the templates otherwise. */
  datatype ApplyRequest =
    | ApplyMonth(month: string, ids: Option<seq<string>>, options: ApplyOptions)
    | ApplyAll(startMonth: string, endMonth: EndMonthArg, ids: Option<seq<string>>)

  /** The apply-to-month call: `month`, the chosen ids, and the flag that
      marks the created expenses as predefined. */
  function ApplyMonthRequest(month: string, ids: Option<seq<string>>): (r: ApplyRequest)
    ensures r.ApplyMonth? && r.month == month && r.ids == ids
    ensures r.options.isPredefined
  {
    ApplyMonth(month, ids, ApplyOptions(true))
  }

  /** The apply-to-all call as the panel makes it: the options object lands
      in the `endMonth` position of `applyToAll(startMonth, endMonth,
      predefinedExpenseIds)`. */
  function ApplyAllRequestAsWritten(startMonth: string): ApplyRequest
  {
    ApplyAll(startMonth, OptionsAsEnd(ApplyOptions(true)), None)
  }

  /** The request as written names no end month, yet is not the open-ended
      request either: the backend gets an object where a month or `null`
      belongs. */
  lemma ApplyAllAsWrittenMisplacesOptions(startMonth: string)
    ensures ApplyAllRequestAsWritten(startMonth).endMonth.OptionsAsEnd?
    ensures ApplyAllRequestAsWritten(startMonth) != ApplyAllRequestFor(startMonth)
  {
  }

  /** The apply-to-all call the confirmation text describes: every active
      template, every month from `startMonth` on, no end month. */
  function ApplyAllRequestFor(startMonth: string): (r: ApplyRequest)
    ensures r.ApplyAll? && r.startMonth == startMonth
    ensures r.endMonth == NoEnd && r.ids == None
  {
    ApplyAll(startMonth, NoEnd, None)
  }

  // ---- the buttons ----

  /** The two header apply buttons are rendered only when some template is
      active. */
  predicate ApplyButtonsShown(ts: seq<Template>)
  {
    |ActiveTemplates(ts)| > 0
  }

  /** A rendered header apply button is enabled unless an apply is running. */
  predicate HeaderApplyEnabled(ts: seq<Template>, applying: bool)
  {
    ApplyButtonsShown(ts) && !applying
  }

  /** A template's own apply button. */
  predicate ItemApplyEnabled(t: Template, applying: bool)
  {
    !applying && IsActive(t)
  }

  /** The header buttons appear exactly when some template is active. */
  lemma ButtonsShownIffSomeActive(ts: seq<Template>)
    ensures ApplyButtonsShown(ts) <==> exists i :: 0 <= i < |ts| && IsActive(ts[i])
  {
    if exists i :: 0 <= i < |ts| && IsActive(ts[i]) {
      var i :| 0 <= i < |ts| && IsActive(ts[i]);
      assert ts[i] in ActiveTemplates(ts);
    }
    if ApplyButtonsShown(ts) {
      var r := ActiveTemplates(ts);
      assert IsActive(r[0]) && r[0] in ts;
    }
  }

  /** While an apply is running no apply button can be pressed, and an
      inactive template's never can. */
  lemma NoApplyWhileApplying(ts: seq<Template>, t: Template, applying: bool)
    ensures applying ==> !HeaderApplyEnabled(ts, applying) && !ItemApplyEnabled(t, applying)
    ensures !IsActive(t) ==> !ItemApplyEnabled(t, applying)
  {
  }

  // ---- the component ----

  class PredefinedPanel {
    var templates: seq<Template>
    var loading: bool
    var showForm: bool
    var editing: Option<Template>
    var form: TemplateFields
    /** Set while an apply call is in flight. */
    var applying: bool

    constructor ()
      ensures templates == [] && loading && !showForm && editing == None
      ensures form == DefaultFields() && !applying
    {
      templates := [];
      loading := true;
      showForm := false;
      editing := None;
      form := DefaultFields();
      applying := false;
    }

    /** `loadPredefinedExpenses`: a failed fetch keeps the list. */
    method Load(fetched: Result<seq<Template>>)
      modifies this`templates, this`loading
      ensures !loading
      ensures templates == if fetched.Ok? then fetched.value else old(templates)
    {
      loading := true;
      if fetched.Ok? {
        templates := fetched.value;
      }
      loading := false;
    }

    /** The header's add/cancel button. */
    method ToggleForm()
      modifies this`showForm
      ensures showForm == !old(showForm)
    {
      showForm := !showForm;
    }

    method ResetForm()
      modifies this`form, this`editing, this`showForm
      ensures form == DefaultFields() && editing == None && !showForm
    {
      form := DefaultFields();
      editing := None;
      showForm := false;
    }

    method HandleEdit(t: Template)
      modifies this`form, this`editing, this`showForm
      ensures editing == Some(t) && form == EditFields(t) && showForm
    {
      editing := Some(t);
      form := EditFields(t);
      showForm := true;
    }

    method HandleChange(ch: TemplateChange)
      modifies this`form
      ensures form == ApplyTemplateChange(old(form), ch)
    {
      form := ApplyTemplateChange(form, ch);
    }

    /** `handleSubmit`: `saved` is the outcome of the save call, `reload`
        that of the list fetch which follows a successful save. A failed
        save leaves everything as it was. */
    method HandleSubmit(saved: Result<()>, reload: Result<seq<Template>>) returns (req: SaveRequest)
      modifies this
      ensures req == SaveRequestFor(old(editing), old(form))
      ensures applying == old(applying)
      ensures saved.Ok? ==>
        && form == DefaultFields() && editing == None && !showForm && !loading
        && templates == (if reload.Ok? then reload.value else old(templates))
      ensures saved.Err? ==>
        && form == old(form) && editing == old(editing) && showForm == old(showForm)
        && loading == old(loading) && templates == old(templates)
    {
      req := SaveRequestFor(editing, form);
      if saved.Ok? {
        Load(reload);
        ResetForm();
      }
    }

    /** `handleDelete`: nothing is sent unless the user confirms. */
    method HandleDelete(id: string, confirmed: bool, deleted: Result<()>, reload: Result<seq<Template>>)
      returns (sent: bool)
      modifies this`templates, this`loading
      ensures sent == confirmed
      ensures confirmed && deleted.Ok? ==>
        !loading && templates == (if reload.Ok? then reload.value else old(templates))
      ensures !(confirmed && deleted.Ok?) ==> templates == old(templates) && loading == old(loading)
    {
      sent := confirmed;
      if confirmed && deleted.Ok? {
        Load(reload);
      }
    }

    /** The first half of `handleApplyToMonth`, up to the await: the busy
        flag goes up and the request is sent. `ids` is `None` from the header
        button and the template's own identifier from its item button. */
    method BeginApplyToMonth(month: string, ids: Option<seq<string>>) returns (req: ApplyRequest)
      modifies this`applying
      ensures applying
      ensures req == ApplyMonthRequest(month, ids)
    {
      applying := true;
      req := ApplyMonthRequest(month, ids);
    }

    /** The first half of `handleApplyToAll`: without confirmation nothing
        is sent and nothing changes. */
    method BeginApplyToAll(startMonth: string, confirmed: bool) returns (req: Option<ApplyRequest>)
      modifies this`applying
      ensures confirmed ==> applying && req == Some(ApplyAllRequestFor(startMonth))
      ensures !confirmed ==> applying == old(applying) && req == None
    {
      if confirmed {
        applying := true;
        req := Some(ApplyAllRequestFor(startMonth));
      } else {
        req := None;
      }
    }

    /** The `finally` of both apply handlers: whether the call succeeded or
        failed, the busy flag comes down. */
    method FinishApply()
      modifies this`applying
      ensures !applying
    {
      applying := false;
    }
  }
}
