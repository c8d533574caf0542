/** The dialog that edits an existing expense: it shares the amount filter
    and the validation with the add form, starts from the expense's own
    values, and closes only once the update has gone through. */
module EditExpenseForm {
  import opened Prelude
  import opened Calendar
  import opened ExpenseContext
  import opened AddExpenseForm

  /** The record `handleSubmit` hands to `onUpdate`: the original expense
      with the form's fields in place of its own. */
  function Edited(original: Expense, amount: string, category: Option<Category>,
                  description: string, note: string, date: Instant): (r: Expense)
    requires FieldsValid(amount, category, description)
    ensures r.id == original.id
    ensures r.amount > 0.0 && r.category == category.value
    ensures r.description == Trim(description) && r.description != []
    ensures r.date == date && r.note == NoteOf(note)
  {
    original.(amount := ParseNumber(amount).value, category := category.value,
              description := Trim(description), note := NoteOf(note), date := date)
  }

  /** Submitting the expense's own values unchanged gives back an expense
      equal to the original, as long as its text fields are already trimmed
      and its amount's text reads back as the amount. */
  lemma EditedUnchanged(original: Expense, amountText: string)
    requires FieldsValid(amountText, Some(original.category), original.description)
    requires ParseNumber(amountText) == Some(original.amount)
    requires Trim(original.description) == original.description
    requires original.note.None? || (original.note.value != [] && Trim(original.note.value) == original.note.value)
    ensures Edited(original, amountText, Some(original.category), original.description,
                   if original.note.Some? then original.note.value else [], original.date) == original
  {
    if original.note.Some? {
      var n := original.note.value;
      assert NoteOf(n) == Some(n);
    } else {
      TrimEmptyIff([]);
    }
  }

  /** The edit dialog's state. */
  class Form {
    const original: Expense
    var amount: string
    var category: Option<Category>
    var description: string
    var note: string
    var date: Instant
    var errors: map<string, string>
    var isSubmitting: bool

    /** The initial state: the expense's own values; `amountText` is
        `expense.amount.toString()` and a missing note is the empty text. */
    constructor (expense: Expense, amountText: string)
      ensures original == expense && amount == amountText
      ensures category == Some(expense.category) && description == expense.description
      ensures note == (if expense.note.Some? then expense.note.value else [])
      ensures date == expense.date && errors == map[] && !isSubmitting
    {
      original := expense;
      amount := amountText;
      category := Some(expense.category);
      description := expense.description;
      note := if expense.note.Some? then expense.note.value else [];
      date := expense.date;
      errors := map[];
      isSubmitting := false;
    }

    /** The amount field's `onChange`. */
    method SetAmount(input: string)
      modifies this
      ensures amount == FormatAmountAsWritten(input)
      ensures AmountChars(amount) && Occurrences(amount, '.') <= 1
      ensures errors == old(errors) - {"amount"}
      ensures category == old(category) && description == old(description)
      ensures note == old(note) && date == old(date) && isSubmitting == old(isSubmitting)
    {
      FormatAmountAsWrittenShape(input);
      amount := FormatAmountAsWritten(input);
      errors := errors - {"amount"};
    }

    /** The category select's `onValueChange`. */
    method SetCategory(c: Category)
      modifies this
      ensures category == Some(c) && errors == old(errors) - {"category"}
      ensures amount == old(amount) && description == old(description)
      ensures note == old(note) && date == old(date) && isSubmitting == old(isSubmitting)
    {
      category := Some(c);
      errors := errors - {"category"};
    }

    /** The description field's `onChange`. */
    method SetDescription(text: string)
      modifies this
      ensures description == text && errors == old(errors) - {"description"}
      ensures amount == old(amount) && category == old(category)
      ensures note == old(note) && date == old(date) && isSubmitting == old(isSubmitting)
    {
      description := text;
      errors := errors - {"description"};
    }

    /** The note field's `onChange`. */
    method SetNote(text: string)
      modifies this
      ensures note == text
      ensures amount == old(amount) && category == old(category) && description == old(description)
      ensures date == old(date) && errors == old(errors) && isSubmitting == old(isSubmitting)
    {
      note := text;
    }

    /** The date picker's `onSelect`: a cleared selection keeps the date. */
    method SelectDate(selected: Option<Instant>)
      modifies this
      ensures date == if selected.Some? then selected.value else old(date)
      ensures amount == old(amount) && category == old(category) && description == old(description)
      ensures note == old(note) && errors == old(errors) && isSubmitting == old(isSubmitting)
    {
      if selected.Some? {
        date := selected.value;
      }
    }

    /** `handleSubmit`. An invalid form only records its errors. A valid one
        awaits `onUpdate` with the edited expense (returned as `sent`;
        `response` is whether that promise resolves or rejects) and calls
        `onClose` exactly when it resolves; a rejection is swallowed and the
        dialog stays open. The fields are never reset. */
    method HandleSubmit(response: Response<()>) returns (sent: Option<Expense>, closed: bool)
      modifies this
      ensures amount == old(amount) && category == old(category) && description == old(description)
      ensures note == old(note) && date == old(date)
      ensures !FieldsValid(old(amount), old(category), old(description)) ==>
                sent.None? && !closed && isSubmitting == old(isSubmitting)
                && ReportsErrors(errors, old(amount), old(category), old(description))
      ensures FieldsValid(old(amount), old(category), old(description)) ==>
                sent == Some(Edited(original, old(amount), old(category), old(description), old(note), old(date)))
                && (closed <==> response.Success?) && errors == map[] && !isSubmitting
    {
      var found := ValidateFields(amount, category, description);
      errors := found;
      if found != map[] {
        sent := None;
        closed := false;
        return;
      }
      isSubmitting := true;
      sent := Some(Edited(original, amount, category, description, note, date));
      closed := response.Success?;
      isSubmitting := false;
    }
  }
}
