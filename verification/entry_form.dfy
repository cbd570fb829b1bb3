/**
 * The add/edit transaction sheet (src/components/transactions/add-transaction-sheet.tsx):
 * the form schema, the values loaded when the sheet opens, the rule that keeps the
 * category consistent with the type, how an auto-categorize suggestion is applied, and
 * the choice between adding and updating on submit.
 */
module EntryForm {
  import opened Wrappers
  import opened Dates
  import opened Types
  import TransactionsContext

  /**
   * The form's current values. `amount` is what `z.coerce.number()` makes of the input:
   * `None` stands for an empty field or NaN.
   */
  datatype FormValues = FormValues(
    kind: Kind,
    amount: Option<real>,
    date: Stamp,
    category: string,
    description: string,
    comments: Option<string>)

  /** The schema's complaints. */
  datatype Issue = AmountNotPositive | CategoryInvalid | DescriptionRequired

  /**
   * `formSchema`: the amount must be a number greater than zero, the category one of the
   * known categories (of either type), and the description at least one character long;
   * every failing field is reported. A valid form gives the draft `onSubmit` sends.
   */
  function Validate(v: FormValues): Result<Draft, set<Issue>>
  {
    var issues :=
      (if v.amount.None? || v.amount.value <= 0.0 then {AmountNotPositive} else {})
      + (if v.category in Categories then {} else {CategoryInvalid})
      + (if |v.description| >= 1 then {} else {DescriptionRequired});
    if issues == {} then Ok(Draft(v.kind, v.amount.value, v.date, v.category, v.description, v.comments))
    else Err(issues)
  }

  /** What the schema accepts, what it reports, and that an accepted form is copied unchanged. */
  lemma ValidateSpec(v: FormValues)
    ensures Validate(v).Ok? <==>
      v.amount.Some? && v.amount.value > 0.0 && v.category in Categories && v.description != ""
    ensures Validate(v).Ok? ==>
      Validate(v).value == Draft(v.kind, v.amount.value, v.date, v.category, v.description, v.comments)
    ensures Validate(v).Err? ==>
      && (AmountNotPositive in Validate(v).error <==> v.amount.None? || v.amount.value <= 0.0)
      && (CategoryInvalid in Validate(v).error <==> v.category !in Categories)
      && (DescriptionRequired in Validate(v).error <==> v.description == "")
  {
    if v.description == "" {
      assert DescriptionRequired in Validate(v).error;
    }
  }

  /** The schema checks the category against the combined list only: an expense category on an income passes. */
  lemma SchemaIgnoresCategoryKind(now: Stamp)
    ensures Validate(FormValues(Income, Some(10.0), now, "Alimentacion", "Cena", None)).Ok?
  {
    assert "Alimentacion" in Categories;
  }

  // ---------------------------------------------------------------- values loaded on open

  /** The values of a new transaction: an expense in "Alimentacion" dated now, nothing else filled in. */
  function NewValues(now: Stamp): FormValues
  {
    FormValues(Expense, None, now, "Alimentacion", "", Some(""))
  }

  /** `{ ...tx, date: new Date(tx.date), amount: Math.abs(tx.amount) }`. */
  function EditValues(t: Transaction): FormValues
  {
    FormValues(t.kind, Some(if t.amount < 0.0 then -t.amount else t.amount), t.date, t.category,
               t.description, t.comments)
  }

  /**
   * A loaded record passes the schema exactly when its amount is non-zero (a negative one
   * is made positive), its category is known and its description non-empty; saving it then
   * changes only the sign of a negative amount.
   */
  lemma EditedRecordValidates(t: Transaction)
    ensures Validate(EditValues(t)).Ok? <==>
      t.amount != 0.0 && t.category in Categories && t.description != ""
    ensures Validate(EditValues(t)).Ok? ==>
      var d := Validate(EditValues(t)).value;
      && d.amount > 0.0 && (d.amount == t.amount || d.amount == -t.amount)
      && d.kind == t.kind && d.date == t.date && d.category == t.category
      && d.description == t.description && d.comments == t.comments
  {
    ValidateSpec(EditValues(t));
  }

  /** A new form does not pass the schema until an amount and a description are entered. */
  lemma NewValuesNeedInput(now: Stamp)
    ensures Validate(NewValues(now)).Err?
    ensures Validate(NewValues(now)).error == {AmountNotPositive, DescriptionRequired}
  {
    assert "Alimentacion" in Categories;
  }

  // ---------------------------------------------------------------- the sheet

  /** The sheet's form state, with the visibility its parent holds. */
  class EntrySheet {
    var values: FormValues
    var descriptionError: bool
    var open: bool

    /** A mounted sheet, closed, with the values of a new transaction and no errors. */
    constructor(now: Stamp)
      ensures values == NewValues(now) && !descriptionError && !open
    {
      values := NewValues(now);
      descriptionError := false;
      open := false;
    }

    /**
     * The reset effect. With a (non-empty) id, the stored record with that id is loaded
     * with its amount made non-negative, and nothing happens when there is none; without
     * one, the form is cleared for a new transaction. A reset also clears the errors.
     * `transactionId` is `""` for `null`.
     */
    method ResetOnOpen(transactionId: string, store: TransactionsContext.Store, now: Stamp)
      modifies this
      ensures transactionId == "" ==> values == NewValues(now) && !descriptionError
      ensures transactionId != "" ==>
        match TransactionsContext.FindById(store.transactions, transactionId)
        case Some(t) => values == EditValues(t) && !descriptionError
        case None => values == old(values) && descriptionError == old(descriptionError)
      ensures open == old(open)
    {
      if transactionId != "" {
        var tx := store.GetTransactionById(transactionId);
        if tx.Some? {
          values := EditValues(tx.value);
          descriptionError := false;
        }
      } else {
        values := NewValues(now);
        descriptionError := false;
      }
    }

    /**
     * The type-watching effect: a category that is not in the current type's list becomes
     * that list's first entry ("Sueldo" or "Alimentacion"); one that is stays.
     */
    method ReconcileCategory()
      modifies this
      ensures values.category in CategoriesOf(values.kind)
      ensures old(values.category) in CategoriesOf(old(values.kind)) ==> values == old(values)
      ensures old(values.category) !in CategoriesOf(old(values.kind)) ==>
        values == old(values).(category := CategoriesOf(values.kind)[0])
      ensures descriptionError == old(descriptionError) && open == old(open)
    {
      if values.kind == Income && values.category !in IncomeCategories {
        values := values.(category := IncomeCategories[0]);
      } else if values.kind == Expense && values.category !in ExpenseCategories {
        values := values.(category := ExpenseCategories[0]);
      }
    }

    /**
     * Choosing a type, followed by the effect it triggers. The effect watches the type, so
     * it runs only when the type actually changes; choosing the current type changes
     * nothing, even a category outside that type's list.
     */
    method ChangeType(k: Kind)
      modifies this
      ensures values.kind == k
      ensures k == old(values.kind) ==> values == old(values)
      ensures k != old(values.kind) ==> values.category in CategoriesOf(k)
      ensures k != old(values.kind) && old(values.category) in CategoriesOf(k) ==> values == old(values).(kind := k)
      ensures k != old(values.kind) && old(values.category) !in CategoriesOf(k) ==>
        values == old(values).(kind := k, category := CategoriesOf(k)[0])
      ensures descriptionError == old(descriptionError) && open == old(open)
    {
      if k != values.kind {
        values := values.(kind := k);
        ReconcileCategory();
      }
    }

    /**
     * `handleAutoCategorize`, with the reply of the categoriser as `suggestion` (`None`
     * when it fails or returns no category). An empty description flags an error and no
     * request is made (`asked` is false). A suggested income category switches the form
     * to income with that category, an expense category to expense; anything else changes
     * nothing.
     */
    method AutoCategorize(suggestion: Option<string>) returns (asked: bool)
      modifies this
      ensures asked <==> old(values.description) != ""
      ensures !asked ==> descriptionError && values == old(values)
      ensures asked ==> descriptionError == old(descriptionError)
      ensures asked && suggestion.Some? && suggestion.value in IncomeCategories ==>
        values == old(values).(kind := Income, category := suggestion.value)
      ensures asked && suggestion.Some? && suggestion.value in ExpenseCategories ==>
        values == old(values).(kind := Expense, category := suggestion.value)
      ensures asked && (suggestion.None? || suggestion.value !in Categories) ==> values == old(values)
      ensures values.category in CategoriesOf(values.kind) || values == old(values)
      ensures open == old(open)
    {
      if values.description == "" {
        descriptionError := true;
        return false;
      }
      asked := true;
      if suggestion.Some? && suggestion.value != "" {
        var c := suggestion.value;
        if c in IncomeCategories {
          values := values.(kind := Income, category := c);
        } else if c in ExpenseCategories {
          values := values.(kind := Expense, category := c);
        }
      }
    }

    /**
     * `form.handleSubmit(onSubmit)`: a form the schema rejects writes nothing; a valid one
     * is sent as an update of `transactionId` when that is set, otherwise as a new record,
     * and the sheet closes. Either way the schema's verdict replaces the description error:
     * it is shown exactly when the description is empty.
     */
    method Submit(transactionId: string, store: TransactionsContext.Store) returns (submitted: bool)
      modifies this, store
      ensures submitted <==> Validate(old(values)).Ok?
      ensures !submitted ==>
        store.writes == old(store.writes) && store.pushed == old(store.pushed) && open == old(open)
      ensures submitted && transactionId != "" ==>
        && store.writes == old(store.writes)
             + [TransactionsContext.UpdateAt("finanzas/" + transactionId, Validate(old(values)).value)]
        && store.pushed == old(store.pushed)
      ensures submitted && transactionId == "" ==>
        && store.writes == old(store.writes)
             + [TransactionsContext.SetAt("finanzas/" + store.keys(old(store.pushed)), Validate(old(values)).value)]
        && store.pushed == old(store.pushed) + 1
      ensures submitted ==> !open
      ensures descriptionError <==> old(values).description == ""
      ensures values == old(values) && store.transactions == old(store.transactions)
    {
      var checked := Validate(values);
      descriptionError := values.description == "";
      if checked.Err? {
        return false;
      }
      submitted := true;
      if transactionId != "" {
        store.UpdateTransaction(WithId(transactionId, checked.value));
      } else {
        store.AddTransaction(checked.value);
      }
      open := false;
    }
  }
}
