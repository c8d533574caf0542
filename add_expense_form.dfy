/** The form that adds an expense: the amount field's input filter, the
    text-to-number conversion its validation relies on, the validation of
    the three required fields, and the form's state across a submission. */
module AddExpenseForm {
  import opened Prelude
  import opened Calendar
  import opened ExpenseContext

  /** What the amount filter keeps: `\d` and the decimal point. */
  predicate AmountChar(c: char)
  {
    IsDigit(c) || c == '.'
  }

  predicate AmountChars(s: string)
  {
    forall i :: 0 <= i < |s| ==> AmountChar(s[i])
  }

  predicate DigitsOnly(s: string)
  {
    forall i :: 0 <= i < |s| ==> IsDigit(s[i])
  }

  /** The digits after the first decimal point (none without one). */
  function Fraction(s: string): string
  {
    var parts := Split(s, '.');
    if |parts| >= 2 then parts[1] else []
  }

  /** What the amount field is meant to hold: digits with at most one
      decimal point and at most two digits after it. */
  predicate Canonical(s: string)
  {
    AmountChars(s) && Occurrences(s, '.') <= 1 && |Fraction(s)| <= 2
  }

  /** `value.replace(/[^\d.]/g, '')`. */
  function Cleaned(value: string): (r: string)
    ensures AmountChars(r)
    ensures IsSubsequence(r, value)
    ensures forall i :: 0 <= i < |value| && AmountChar(value[i]) ==> value[i] in r
  {
    FilterIsSubsequence(value, AmountChar);
    Filter(value, AmountChar)
  }

  /** `formatAmount` as the two expense forms write it. When the cleaned text
      has two or more decimal points, every piece after the first is joined
      back without truncation, so "1.2.34" becomes "1.234". */
  function FormatAmountAsWritten(value: string): string
  {
    var cleaned := Cleaned(value);
    var parts := Split(cleaned, '.');
    if |parts| > 2 then parts[0] + "." + Join(parts[1..], "")
    else if |parts| == 2 && |parts[1]| > 2 then parts[0] + "." + parts[1][..2]
    else cleaned
  }

  /** `formatAmount` with the two-digit limit applied after the pieces are
      joined as well: the field then always holds a canonical amount. */
  function FormatAmount(value: string): (r: string)
    ensures Canonical(r)
  {
    var cleaned := Cleaned(value);
    var parts := Split(cleaned, '.');
    PartsAreDigits(cleaned);
    if |parts| > 2 then
      var joined := Join(parts[1..], "");
      JoinDigits(parts[1..]);
      var fraction := if |joined| > 2 then joined[..2] else joined;
      DottedShape(parts[0], fraction);
      parts[0] + "." + fraction
    else if |parts| == 2 && |parts[1]| > 2 then
      DottedShape(parts[0], parts[1][..2]);
      parts[0] + "." + parts[1][..2]
    else
      SplitLength(cleaned, '.');
      cleaned
  }

  /** Every piece of a cleaned amount between decimal points is digits. */
  lemma PartsAreDigits(s: string)
    requires AmountChars(s)
    ensures forall k :: 0 <= k < |Split(s, '.')| ==> DigitsOnly(Split(s, '.')[k])
  {
    SplitChars(s, '.', AmountChar);
    var parts := Split(s, '.');
    forall k | 0 <= k < |parts| ensures DigitsOnly(parts[k]) {
      forall j | 0 <= j < |parts[k]| ensures IsDigit(parts[k][j]) {
        assert AmountChar(parts[k][j]);
        assert parts[k][j] in parts[k];
      }
    }
  }

  lemma JoinDigits(parts: seq<string>)
    requires forall k :: 0 <= k < |parts| ==> DigitsOnly(parts[k])
    ensures DigitsOnly(Join(parts, ""))
  {
    JoinChars(parts, "", IsDigit);
  }

  /** Digits, one decimal point, digits: the fraction is the second run. */
  lemma DottedShape(a: string, b: string)
    requires DigitsOnly(a) && DigitsOnly(b)
    ensures AmountChars(a + "." + b)
    ensures Occurrences(a + "." + b, '.') == 1
    ensures Split(a + "." + b, '.') == [a, b]
    ensures Fraction(a + "." + b) == b
  {
    assert '.' !in a by {
      forall i | 0 <= i < |a| ensures a[i] != '.' {
        assert IsDigit(a[i]);
      }
    }
    assert '.' !in b by {
      forall i | 0 <= i < |b| ensures b[i] != '.' {
        assert IsDigit(b[i]);
      }
    }
    OccurrencesNone(a, '.');
    OccurrencesNone(b, '.');
    OccurrencesAppend(a + ".", b, '.');
    OccurrencesAppend(a, ".", '.');
    SplitAtFirst(a, b, '.');
    SplitWithout(b, '.');
    assert a + "." + b == a + ['.'] + b;
  }

  /** The filter as written keeps only digits and decimal points, leaves at
      most one decimal point, and keeps at most two digits after it whenever
      the cleaned text had at most one point. */
  lemma FormatAmountAsWrittenShape(value: string)
    ensures AmountChars(FormatAmountAsWritten(value))
    ensures Occurrences(FormatAmountAsWritten(value), '.') <= 1
    ensures Occurrences(Cleaned(value), '.') <= 1 ==> Canonical(FormatAmountAsWritten(value))
  {
    var cleaned := Cleaned(value);
    var parts := Split(cleaned, '.');
    PartsAreDigits(cleaned);
    SplitLength(cleaned, '.');
    if |parts| > 2 {
      JoinDigits(parts[1..]);
      DottedShape(parts[0], Join(parts[1..], ""));
    } else if |parts| == 2 && |parts[1]| > 2 {
      DottedShape(parts[0], parts[1][..2]);
    }
  }

  /** Text made only of digits and points passes the character filter whole. */
  lemma CleanedKeepsAmountChars(s: string)
    requires AmountChars(s)
    ensures Cleaned(s) == s
  {
    FilterAll(s, AmountChar);
  }

  /** A canonical amount passes through either filter unchanged. */
  lemma {:induction false} FormatAmountKeepsCanonical(s: string)
    requires Canonical(s)
    ensures FormatAmount(s) == s
    ensures FormatAmountAsWritten(s) == s
  {
    CleanedKeepsAmountChars(s);
    SplitLength(s, '.');
  }

  /** The corrected filter is idempotent: typing nothing new changes nothing. */
  lemma FormatAmountIdempotent(value: string)
    ensures FormatAmount(FormatAmount(value)) == FormatAmount(value)
  {
    FormatAmountKeepsCanonical(FormatAmount(value));
  }

  /** Three runs of digits separated by two decimal points. */
  lemma SplitThree(a: string, b: string, c: string)
    requires DigitsOnly(a) && DigitsOnly(b) && DigitsOnly(c)
    ensures Split(a + "." + b + "." + c, '.') == [a, b, c]
  {
    DottedShape(b, c);
    DottedShape(a, b);
    assert a + "." + b + "." + c == a + ['.'] + (b + "." + c);
    SplitAtFirst(a, b + "." + c, '.');
  }

  /** Three runs of digits with two points pass the character filter whole. */
  lemma CleanedThreeRuns(a: string, b: string, c: string)
    requires DigitsOnly(a) && DigitsOnly(b) && DigitsOnly(c)
    ensures Cleaned(a + "." + b + "." + c) == a + "." + b + "." + c
  {
    var s := a + "." + b + "." + c;
    forall i | 0 <= i < |s| ensures AmountChar(s[i]) {
      if i < |a| {
        assert s[i] == a[i];
      } else if |a| < i < |a| + 1 + |b| {
        assert s[i] == b[i - |a| - 1];
      } else if i > |a| + 1 + |b| {
        assert s[i] == c[i - |a| - |b| - 2];
      }
    }
    CleanedKeepsAmountChars(s);
  }

  /** Where the filter as written goes wrong: with two decimal points in the
      text, everything after the first point is kept, however long. */
  lemma FormatAmountAsWrittenJoinsAllDecimals(a: string, b: string, c: string)
    requires DigitsOnly(a) && DigitsOnly(b) && DigitsOnly(c)
    ensures FormatAmountAsWritten(a + "." + b + "." + c) == a + "." + (b + c)
    ensures |Fraction(FormatAmountAsWritten(a + "." + b + "." + c))| == |b| + |c|
  {
    assert FormatAmountAsWritten(a + "." + b + "." + c) == a + "." + (b + c) by {
      ThreeRunsSplit(a, b, c);
      JoinTwo(b, c);
    }
    assert Fraction(a + "." + (b + c)) == b + c by {
      assert DigitsOnly(b + c);
      DottedShape(a, b + c);
    }
  }

  lemma JoinTwo(b: string, c: string)
    ensures Join([b, c], "") == b + c
  {
    assert [b, c][1..] == [c];
  }

  /** The corrected filter keeps the first two digits after the first point. */
  lemma FormatAmountTruncatesJoinedDecimals(a: string, b: string, c: string)
    requires DigitsOnly(a) && DigitsOnly(b) && DigitsOnly(c) && |b| + |c| > 2
    ensures FormatAmount(a + "." + b + "." + c) == a + "." + (b + c)[..2]
  {
    ThreeRunsSplit(a, b, c);
    JoinTwo(b, c);
  }

  lemma ThreeRunsSplit(a: string, b: string, c: string)
    requires DigitsOnly(a) && DigitsOnly(b) && DigitsOnly(c)
    ensures Cleaned(a + "." + b + "." + c) == a + "." + b + "." + c
    ensures Split(a + "." + b + "." + c, '.') == [a, b, c]
    ensures Split(a + "." + b + "." + c, '.')[1..] == [b, c]
  {
    CleanedThreeRuns(a, b, c);
    SplitThree(a, b, c);
  }

  /** For instance "1.2.34", what typing a second point into "12.34" gives:
      the filter as written lets it through as "1.234", three digits after the
      point, and a second pass cuts that to "1.23", so it is not idempotent;
      the corrected filter gives "1.23" at once. */
  lemma FormatAmountAsWrittenNotIdempotent()
    ensures FormatAmountAsWritten("1.2.34") == "1.234"
    ensures !Canonical("1.234")
    ensures FormatAmountAsWritten("1.234") == "1.23"
    ensures FormatAmount("1.2.34") == "1.23"
  {
    AsWrittenTwoPoints();
    CorrectedTwoPoints();
    ThreeDecimals();
  }

  lemma AsWrittenTwoPoints()
    ensures FormatAmountAsWritten("1.2.34") == "1.234"
  {
    assert "1" + "." + "2" + "." + "34" == "1.2.34";
    assert "1" + "." + ("2" + "34") == "1.234";
    FormatAmountAsWrittenJoinsAllDecimals("1", "2", "34");
  }

  lemma CorrectedTwoPoints()
    ensures FormatAmount("1.2.34") == "1.23"
  {
    assert "1" + "." + "2" + "." + "34" == "1.2.34";
    assert ("2" + "34")[..2] == "23";
    assert "1" + "." + "23" == "1.23";
    FormatAmountTruncatesJoinedDecimals("1", "2", "34");
  }

  lemma ThreeDecimals()
    ensures !Canonical("1.234")
    ensures FormatAmountAsWritten("1.234") == "1.23"
  {
    assert "1" + "." + "234" == "1.234";
    assert "1" + "." + "234"[..2] == "1.23";
    LongFractionCut("1", "234");
  }

  /** One point and more than two digits after it: not canonical, and
      either filter keeps two of the digits. */
  lemma LongFractionCut(a: string, b: string)
    requires DigitsOnly(a) && DigitsOnly(b) && |b| > 2
    ensures !Canonical(a + "." + b)
    ensures FormatAmountAsWritten(a + "." + b) == a + "." + b[..2]
  {
    DottedShape(a, b);
    CleanedKeepsAmountChars(a + "." + b);
  }

  function DigitValue(c: char): nat
    requires IsDigit(c)
  {
    c as int - '0' as int
  }

  /** The value of a run of decimal digits ("" is 0). */
  function DigitsValue(ds: string): nat
    requires DigitsOnly(ds)
  {
    if ds == [] then 0 else DigitsValue(ds[..|ds| - 1]) * 10 + DigitValue(ds[|ds| - 1])
  }

  function Pow10(n: nat): (p: nat)
    ensures p >= 1
  {
    if n == 0 then 1 else 10 * Pow10(n - 1)
  }

  predicate HasNonZeroDigit(s: string)
  {
    exists i :: 0 <= i < |s| && '1' <= s[i] <= '9'
  }

  /** `Number(s)` on text made of digits and decimal points; `None` stands for
      `NaN`. The empty text is 0, a lone point and two or more points are
      `NaN`, and a missing integer or fraction part counts as 0 ("5." and
      ".5"). Any other character is taken as `NaN`. */
  function ParseNumber(s: string): Option<real>
  {
    if !AmountChars(s) then None
    else
      var parts := Split(s, '.');
      PartsAreDigits(s);
      if |parts| == 1 then Some(DigitsValue(parts[0]) as real)
      else if |parts| == 2 && s != "." then
        Some(DigitsValue(parts[0]) as real
             + DigitsValue(parts[1]) as real / Pow10(|parts[1]|) as real)
      else None
  }

  lemma {:induction false} DigitsValuePositive(ds: string)
    requires DigitsOnly(ds)
    ensures DigitsValue(ds) > 0 <==> HasNonZeroDigit(ds)
  {
    if ds != [] {
      var p := ds[..|ds| - 1];
      DigitsValuePositive(p);
      if HasNonZeroDigit(p) {
        var i :| 0 <= i < |p| && '1' <= p[i] <= '9';
        assert ds[i] == p[i];
      }
      if HasNonZeroDigit(ds) {
        var i :| 0 <= i < |ds| && '1' <= ds[i] <= '9';
        if i < |p| {
          assert p[i] == ds[i];
        }
      }
    }
  }

  lemma QuotientPositive(a: real, b: real)
    requires a >= 0.0 && b > 0.0
    ensures a / b >= 0.0
    ensures a / b > 0.0 <==> a > 0.0
  {
    var q := a / b;
    assert q * b == a;
    if q == 0.0 {
      assert q * b == 0.0;
    }
  }

  /** On a canonical amount other than a lone point the conversion yields a
      number that is never negative and that is positive exactly when some
      digit is not zero; a lone point is `NaN`. */
  lemma {:induction false} ParseCanonical(s: string)
    requires AmountChars(s) && Occurrences(s, '.') <= 1
    ensures s == "." <==> ParseNumber(s).None?
    ensures ParseNumber(s).Some? ==> ParseNumber(s).value >= 0.0
    ensures ParseNumber(s).Some? ==> (ParseNumber(s).value > 0.0 <==> HasNonZeroDigit(s))
  {
    var parts := Split(s, '.');
    PartsAreDigits(s);
    SplitLength(s, '.');
    JoinSplit(s, '.');
    if |parts| == 1 {
      assert s == parts[0];
      DigitsValuePositive(s);
    } else {
      assert |parts| == 2;
      DottedShape(parts[0], parts[1]);
      assert s == parts[0] + "." + parts[1];
      DigitsValuePositive(parts[0]);
      DigitsValuePositive(parts[1]);
      QuotientPositive(DigitsValue(parts[1]) as real, Pow10(|parts[1]|) as real);
      NonZeroDigitDotted(parts[0], parts[1]);
      if s == "." {
        assert parts[0] + "." + parts[1] == ".";
        assert |parts[0]| == 0 && |parts[1]| == 0;
      }
    }
  }

  lemma NonZeroDigitDotted(a: string, b: string)
    ensures HasNonZeroDigit(a + "." + b) <==> HasNonZeroDigit(a) || HasNonZeroDigit(b)
  {
    var s := a + "." + b;
    if HasNonZeroDigit(a) {
      var i :| 0 <= i < |a| && '1' <= a[i] <= '9';
      assert s[i] == a[i];
    }
    if HasNonZeroDigit(b) {
      var i :| 0 <= i < |b| && '1' <= b[i] <= '9';
      assert s[|a| + 1 + i] == b[i];
    }
    if HasNonZeroDigit(s) {
      var i :| 0 <= i < |s| && '1' <= s[i] <= '9';
      if i < |a| {
        assert a[i] == s[i];
      } else if i > |a| {
        assert b[i - |a| - 1] == s[i];
      }
    }
  }

  const AmountError := "Please enter a valid amount greater than 0"
  const CategoryError := "Please select a category"
  const DescriptionError := "Please enter a description"

  /** The amount test of `validateForm`: not empty, not `NaN`, above 0. */
  predicate AmountValid(amount: string)
  {
    amount != [] && ParseNumber(amount).Some? && ParseNumber(amount).value > 0.0
  }

  /** For what the amount filter lets into the field (digits and at most one
      decimal point), the amount test passes exactly when a digit other than
      0 has been typed. */
  lemma CanonicalAmountValid(s: string)
    requires AmountChars(s) && Occurrences(s, '.') <= 1
    ensures AmountValid(s) <==> HasNonZeroDigit(s)
  {
    ParseCanonical(s);
  }

  /** `errors` is the map `validateForm` builds for these field values: one
      entry per failed test, holding that test's message, and nothing else. */
  predicate ReportsErrors(errors: map<string, string>, amount: string,
                          category: Option<Category>, description: string)
  {
    && errors.Keys <= {"amount", "category", "description"}
    && ("amount" in errors <==> !AmountValid(amount))
    && ("category" in errors <==> category.None?)
    && ("description" in errors <==> Trim(description) == [])
    && ("amount" in errors ==> errors["amount"] == AmountError)
    && ("category" in errors ==> errors["category"] == CategoryError)
    && ("description" in errors ==> errors["description"] == DescriptionError)
  }

  /** The three fields are all acceptable. */
  predicate FieldsValid(amount: string, category: Option<Category>, description: string)
  {
    AmountValid(amount) && category.Some? && Trim(description) != []
  }

  /** The tests of `validateForm`, adding an entry per failed test; the form
      may be submitted exactly when the map stays empty. */
  method ValidateFields(amount: string, category: Option<Category>, description: string)
    returns (errors: map<string, string>)
    ensures ReportsErrors(errors, amount, category, description)
    ensures errors == map[] <==> FieldsValid(amount, category, description)
  {
    errors := map[];
    if !AmountValid(amount) {
      errors := errors["amount" := AmountError];
    }
    if category.None? {
      errors := errors["category" := CategoryError];
    }
    if Trim(description) == [] {
      errors := errors["description" := DescriptionError];
    }
    if errors != map[] {
      assert exists k :: k in errors;
    }
  }

  /** `note.trim() || undefined`. */
  function NoteOf(note: string): (r: Option<string>)
    ensures r.None? <==> forall i :: 0 <= i < |note| ==> IsSpace(note[i])
    ensures r.Some? ==> r.value == Trim(note)
  {
    TrimEmptyIff(note);
    if Trim(note) == [] then None else Some(Trim(note))
  }

  /** The record a valid form hands to `addExpense`. */
  function Submitted(amount: string, category: Option<Category>, description: string,
                     note: string, date: Instant): (r: NewExpense)
    requires FieldsValid(amount, category, description)
    ensures r.amount > 0.0 && r.category == category.value
    ensures r.description == Trim(description) && r.description != []
    ensures r.date == date && r.note == NoteOf(note)
  {
    NewExpense(ParseNumber(amount).value, category.value, Trim(description), date, NoteOf(note))
  }

  /** The default date: local midnight on June 1st 2025. */
  const DefaultDate: Instant := Midnight(June1st2025)

  /** The add-expense form's state. */
  class Form {
    var amount: string
    var category: Option<Category>
    var description: string
    var note: string
    var date: Instant
    var errors: map<string, string>
    var isSubmitting: bool

    /** The form's state after a reset, which is also its initial state. */
    predicate Cleared()
      reads this
    {
      amount == [] && category.None? && description == [] && note == []
      && date == DefaultDate && errors == map[]
    }

    constructor ()
      ensures Cleared() && !isSubmitting
    {
      amount := [];
      category := None;
      description := [];
      note := [];
      date := DefaultDate;
      errors := map[];
      isSubmitting := false;
    }

    /** The amount field's `onChange`: the typed text passes through the
        filter and an amount error is cleared. */
    method SetAmount(input: string)
      modifies this
      ensures amount == FormatAmountAsWritten(input)
      ensures AmountChars(amount) && Occurrences(amount, '.') <= 1
      ensures errors == old(errors) - {"amount"}
      ensures category == old(category) && description == old(description)
      ensures note == old(note) && date == old(date) && isSubmitting == old(isSubmitting)
    {
      FormatAmountAsWrittenShape(input);
      amount := FormatAmountAsWritten(input);
      errors := errors - {"amount"};
    }

    /** The category select's `onValueChange`. */
    method SetCategory(c: Category)
      modifies this
      ensures category == Some(c) && errors == old(errors) - {"category"}
      ensures amount == old(amount) && description == old(description)
      ensures note == old(note) && date == old(date) && isSubmitting == old(isSubmitting)
    {
      category := Some(c);
      errors := errors - {"category"};
    }

    /** The description field's `onChange`. */
    method SetDescription(text: string)
      modifies this
      ensures description == text && errors == old(errors) - {"description"}
      ensures amount == old(amount) && category == old(category)
      ensures note == old(note) && date == old(date) && isSubmitting == old(isSubmitting)
    {
      description := text;
      errors := errors - {"description"};
    }

    /** The note field's `onChange`. */
    method SetNote(text: string)
      modifies this
      ensures note == text
      ensures amount == old(amount) && category == old(category) && description == old(description)
      ensures date == old(date) && errors == old(errors) && isSubmitting == old(isSubmitting)
    {
      note := text;
    }

    /** The date picker's `onSelect`: a cleared selection keeps the date. */
    method SelectDate(selected: Option<Instant>)
      modifies this
      ensures date == if selected.Some? then selected.value else old(date)
      ensures amount == old(amount) && category == old(category) && description == old(description)
      ensures note == old(note) && errors == old(errors) && isSubmitting == old(isSubmitting)
    {
      if selected.Some? {
        date := selected.value;
      }
    }

    /** `handleSubmit`. An invalid form only records its errors. A valid one
        hands its record to `addExpense` (returned here as `issued`) and,
        since that call is not awaited, resets whatever becomes of it. */
    method HandleSubmit() returns (issued: Option<NewExpense>)
      modifies this
      ensures !FieldsValid(old(amount), old(category), old(description)) ==>
                issued.None? && ReportsErrors(errors, old(amount), old(category), old(description))
                && amount == old(amount) && category == old(category)
                && description == old(description) && note == old(note) && date == old(date)
                && isSubmitting == old(isSubmitting)
      ensures FieldsValid(old(amount), old(category), old(description)) ==>
                issued == Some(Submitted(old(amount), old(category), old(description), old(note), old(date)))
                && Cleared() && !isSubmitting
    {
      var a, c, d := amount, category, description;
      var found := ValidateFields(a, c, d);
      errors := found;
      if found != map[] {
        issued := None;
        return;
      }
      isSubmitting := true;
      issued := Some(Submitted(a, c, d, note, date));
      amount := [];
      category := None;
      description := [];
      note := [];
      date := DefaultDate;
      errors := map[];
      isSubmitting := false;
    }
  }
}
