/**
 * The add/edit transaction form (components/transactions/TransactionForm.tsx): its validation
 * schema, its default values, and what a valid submission does to the store. The amount field
 * holds what `parseFloat` reads from the typed text (None for NaN), in cents; whether
 * `Date.parse` accepts a date text is the parameter `dateParses`.
 */
module TransactionForm {
  import opened Types
  import opened Strings
  import opened Utils
  import opened FinanceContext

  datatype EntryType = Expense | Income

  datatype FormValues = FormValues(description: string, amount: Option<int>, date: string,
                                   categoryId: string, entryType: EntryType)

  /** The schema's messages, in field order. */
  datatype FieldError = DescriptionRequired | AmountNotNonZero | DateInvalid

  /**
   * The schema: a description of at least 2 UTF-16 code units, an amount that reads as a non-zero
   * number, a date `Date.parse` accepts. Every value of `categoryId` is a string, so the category
   * check never fails, not even for the empty default.
   */
  function Validate(v: FormValues, dateParses: string -> bool): (errors: seq<FieldError>)
    ensures errors == [] <==> Utf16Length(v.description) >= 2 && v.amount.Some? && v.amount.value != 0 && dateParses(v.date)
    ensures DescriptionRequired in errors <==> Utf16Length(v.description) < 2
    ensures AmountNotNonZero in errors <==> !(v.amount.Some? && v.amount.value != 0)
    ensures DateInvalid in errors <==> !dateParses(v.date)
  {
    (if Utf16Length(v.description) < 2 then [DescriptionRequired] else [])
    + (if v.amount.Some? && v.amount.value != 0 then [] else [AmountNotNonZero])
    + (if dateParses(v.date) then [] else [DateInvalid])
  }

  /**
   * The default values: those of the transaction being edited, with |amount| and the type taken
   * from its sign (`|| ''` fallbacks, and today's date for an empty date), or an empty expense
   * dated `today` for a new one.
   */
  function Defaults(editing: Option<Transaction>, today: string): FormValues {
    match editing
    case Some(t) =>
      FormValues(t.description, Some(Abs(t.amount)), if t.date != "" then t.date else today, t.categoryId,
                 if t.amount < 0 then Expense else Income)
    case None => FormValues("", None, today, "", Expense)
  }

  datatype Submission = AddTransaction(input: TransactionInput) | UpdateTransaction(transaction: Transaction)

  /**
   * `handleSubmit(onSubmit)`: nothing when validation fails; otherwise the amount negated for an
   * expense, sent as an update under the edited transaction's id or as a new transaction.
   */
  function Submit(v: FormValues, editing: Option<Transaction>, dateParses: string -> bool): (r: Option<Submission>)
    ensures r.Some? <==> Validate(v, dateParses) == []
  {
    if Validate(v, dateParses) != [] then None
    else
      var amount := v.amount.value;
      var adjustedAmount := if v.entryType == Expense then -amount else amount;
      match editing
      case Some(t) => Some(UpdateTransaction(Transaction(t.id, adjustedAmount, v.date, v.description, v.categoryId)))
      case None => Some(AddTransaction(TransactionInput(adjustedAmount, v.date, v.description, v.categoryId)))
  }

  /** The amount a submission stores. */
  function SubmittedAmount(s: Submission): int {
    match s
    case AddTransaction(i) => i.amount
    case UpdateTransaction(t) => t.amount
  }

  // ---- properties ----

  /**
   * Opening a transaction for editing and saving it unchanged writes back exactly that
   * transaction: the type and |amount| split of the defaults is undone by the sign adjustment.
   */
  lemma {:induction false} EditRoundTrip(t: Transaction, today: string, dateParses: string -> bool)
    requires Utf16Length(t.description) >= 2 && t.amount != 0 && t.date != "" && dateParses(t.date)
    ensures Submit(Defaults(Some(t), today), Some(t), dateParses) == Some(UpdateTransaction(t))
  {
  }

  /**
   * The length rule counts code units: a description of one character beyond U+FFFF (an emoji)
   * passes it, one other single character does not.
   */
  lemma {:induction false} DescriptionLengthInUnits(v: FormValues, dateParses: string -> bool)
    requires |v.description| == 1
    ensures DescriptionRequired in Validate(v, dateParses) <==> v.description[0] as int < 0x10000
  {
    assert v.description[1..] == [];
  }

  /** A blank new form cannot be submitted: it lacks a description and an amount. */
  lemma {:induction false} BlankFormRejected(today: string, dateParses: string -> bool)
    ensures DescriptionRequired in Validate(Defaults(None, today), dateParses)
    ensures AmountNotNonZero in Validate(Defaults(None, today), dateParses)
    ensures Submit(Defaults(None, today), None, dateParses) == None
  {
  }

  /**
   * A submitted amount is never zero; for a positive typed amount it is negative exactly for an
   * expense, while a negative typed amount flips the meaning of the type.
   */
  lemma {:induction false} SubmittedSign(v: FormValues, editing: Option<Transaction>, dateParses: string -> bool)
    requires Submit(v, editing, dateParses).Some?
    ensures SubmittedAmount(Submit(v, editing, dateParses).value) != 0
    ensures v.amount.value > 0 ==> (SubmittedAmount(Submit(v, editing, dateParses).value) < 0 <==> v.entryType == Expense)
    ensures v.amount.value < 0 ==> (SubmittedAmount(Submit(v, editing, dateParses).value) > 0 <==> v.entryType == Expense)
  {
  }

  /** `onSubmit` against the store; `newId` stands for the id `addTransaction` generates. */
  method SubmitForm(store: FinanceStore, v: FormValues, editing: Option<Transaction>,
                    dateParses: string -> bool, newId: string)
    requires store.Valid()
    modifies store
    ensures store.Valid()
    ensures Submit(v, editing, dateParses).None? ==> store.transactions == old(store.transactions)
    ensures Submit(v, editing, dateParses).Some? && Submit(v, editing, dateParses).value.AddTransaction? ==>
              var i := Submit(v, editing, dateParses).value.input;
              store.transactions == old(store.transactions)
                                    + [Transaction(newId, i.amount, i.date, i.description, i.categoryId)]
    ensures Submit(v, editing, dateParses).Some? && Submit(v, editing, dateParses).value.UpdateTransaction? ==>
              store.transactions
                == Replace(old(store.transactions), Submit(v, editing, dateParses).value.transaction, TransactionId)
    ensures store.budgets == old(store.budgets) && store.currentMonth == old(store.currentMonth)
  {
    var submission := Submit(v, editing, dateParses);
    if submission.Some? {
      match submission.value
      case AddTransaction(i) => store.AddTransaction(i, newId);
      case UpdateTransaction(t) => store.UpdateTransaction(t);
    }
  }
}
