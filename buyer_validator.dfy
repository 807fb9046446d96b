/**
 * The buyer app's form validators (src/utils/validator.ts). Each regular
 * expression is restated as a predicate over character classes, written the
 * way the expression reads; where the expression has a choice of how to split
 * the input, a deterministic checker is given beside it and proved to accept
 * exactly the same strings. `new Date(text).getTime()` is the parameter
 * `parse`, with `None` for an invalid date (NaN).
 */
module BuyerValidator {
  import opened Wrappers
  import opened Text
  import opened Lists

  /** `/^1[3-9]\d{9}$/` */
  predicate ValidatePhone(phone: string) {
    |phone| == 11 && phone[0] == '1' && '3' <= phone[1] <= '9' && AllDigits(phone[2..])
  }

  /** `/^\d{6}$/` */
  predicate ValidateVerifyCode(code: string) {
    |code| == 6 && AllDigits(code)
  }

  /**
   * A phone number passes exactly when it is eleven digits, the first `1` and
   * the second neither `0`, `1` nor `2`.
   */
  lemma PhoneMeans(phone: string)
    ensures ValidatePhone(phone) <==>
              |phone| == 11 && AllDigits(phone) && phone[0] == '1' && phone[1] != '0' && phone[1] != '1' && phone[1] != '2'
  {
    if |phone| == 11 {
      assert forall i :: 2 <= i < 11 ==> phone[2..][i - 2] == phone[i];
    }
  }

  /** `1`, then `d`, then nine digits is a phone number exactly when `d` is 3 to 9. */
  lemma PhoneSecondDigit(d: char, rest: string)
    requires |rest| == 9 && AllDigits(rest)
    ensures ValidatePhone(['1', d] + rest) <==> '3' <= d <= '9'
  {
    assert (['1', d] + rest)[2..] == rest;
  }

  /** A number zero-padded to six places is a verification code exactly when it is below a million. */
  lemma VerifyCodeOfNumber(n: nat)
    ensures ValidateVerifyCode(PadStart(NatToString(n), 6, '0')) <==> n < 1000000
  {
    ZeroPaddedRoundTrip(n, 6);
    MillionIsPow10();
    if n < 1000000 {
      NatToStringLength(n, 6);
    } else {
      NatToStringLongEnough(n, 6);
    }
  }

  lemma MillionIsPow10()
    ensures Pow10(6) == 1000000
  {
    assert Pow10(1) == 10;
    assert Pow10(2) == 100;
    assert Pow10(3) == 1000;
    assert Pow10(4) == 10000;
    assert Pow10(5) == 100000;
  }

  // ---------------------------------------------------------------------------
  // Amounts and positive integers
  // ---------------------------------------------------------------------------

  /** `0|[1-9]\d*`: a natural number without leading zeros. */
  predicate IntegerPart(t: string) {
    t == "0" || (|t| >= 1 && '1' <= t[0] <= '9' && AllDigits(t))
  }

  /** `(\.\d{1,2})?` */
  predicate FractionPart(f: string) {
    f == [] || (2 <= |f| <= 3 && f[0] == '.' && AllDigits(f[1..]))
  }

  /** `/^(0|[1-9]\d*)(\.\d{1,2})?$/`: some split of the text into an integer part and a fraction. */
  predicate AmountPattern(s: string) {
    exists k :: 0 <= k <= |s| && IntegerPart(s[..k]) && FractionPart(s[k..])
  }

  function IsDot(c: char): bool { c == '.' }

  /**
   * `validateAmount` on the text `String(amount)`: the integer part runs up to
   * the first dot. Accepts exactly the strings the pattern accepts.
   */
  function ValidateAmount(s: string): (ok: bool)
    ensures ok <==> AmountPattern(s)
  {
    var k := FindIndex(s, IsDot);
    var split := if k < 0 then |s| else k;
    if IntegerPart(s[..split]) && FractionPart(s[split..]) then true
    else
      OnlySplitAtFirstDot(s, split);
      false
  }

  /**
   * The pattern can only split a text at its first dot (or at its end, when it
   * has none): an integer part holds no dot, and a fraction starts with one.
   */
  lemma OnlySplitAtFirstDot(s: string, split: int)
    requires 0 <= split <= |s| && (split < |s| ==> IsDot(s[split]))
    requires forall m :: 0 <= m < split ==> !IsDot(s[m])
    ensures AmountPattern(s) ==> IntegerPart(s[..split]) && FractionPart(s[split..])
  {
    if j :| 0 <= j <= |s| && IntegerPart(s[..j]) && FractionPart(s[j..]) {
      assert forall m :: 0 <= m < j ==> s[..j][m] == s[m];
      assert j < |s| ==> s[j..][0] == s[j];
    }
  }

  /** `String(n)` of a non-negative integer is a valid amount; of a negative one it is not. */
  lemma AmountOfInteger(n: int)
    ensures ValidateAmount(IntToString(n)) <==> n >= 0
  {
    var s := IntToString(n);
    if n >= 0 {
      assert FindIndex(s, IsDot) == -1 by {
        assert forall j :: 0 <= j < |s| ==> IsDigit(s[j]);
      }
      assert s[..|s|] == s;
    } else {
      assert s[0] == '-' && !IsDot(s[0]);
      var k := FindIndex(s, IsDot);
      var split := if k < 0 then |s| else k;
      assert s[..split][0] == '-';
    }
  }

  /** A leading zero before more digits, a dot without digits and three decimals are all refused. */
  lemma AmountRejects()
    ensures !AmountPattern("01") && !AmountPattern("1.") && !AmountPattern("1.234")
    ensures AmountPattern("0") && AmountPattern("12.5") && AmountPattern("0.05")
  {
    AmountRejectsLeadingZero();
    assert "1."[1..] == "." && "1.234"[1..] == ".234";
    AmountRejectsFraction("1.");
    AmountRejectsFraction("1.234");
    AmountAcceptsExamples();
  }

  lemma AmountRejectsLeadingZero()
    ensures !AmountPattern("01")
  {
    assert !ValidateAmount("01") by {
      assert FindIndex("01", IsDot) == -1;
      assert "01"[..2] == "01";
    }
  }

  /** After a leading `1`, a fraction the pattern refuses makes the whole text fail. */
  lemma AmountRejectsFraction(s: string)
    requires |s| >= 2 && s[0] == '1' && s[1] == '.' && !FractionPart(s[1..])
    ensures !AmountPattern(s)
  {
    assert !IsDot(s[0]) && IsDot(s[1]);
    assert FindIndex(s, IsDot) == 1;
  }

  lemma AmountAcceptsExamples()
    ensures AmountPattern("0") && AmountPattern("12.5") && AmountPattern("0.05")
  {
    assert "0"[..1] == "0" && "0"[1..] == [];
    assert "12.5"[..2] == "12" && "12.5"[2..] == ".5" && ".5"[1..] == "5";
    assert "0.05"[..1] == "0" && "0.05"[1..] == ".05" && ".05"[1..] == "05";
  }

  /** `/^[1-9]\d*$/` */
  predicate ValidatePositiveInteger(s: string) {
    |s| >= 1 && '1' <= s[0] <= '9' && AllDigits(s)
  }

  /** On `String(n)` of an integer, the positive-integer check holds exactly for n > 0. */
  lemma PositiveIntegerOfInteger(n: int)
    ensures ValidatePositiveInteger(IntToString(n)) <==> n > 0
  {
  }

  // ---------------------------------------------------------------------------
  // Required text and length
  // ---------------------------------------------------------------------------

  /** `value.trim().length > 0` */
  predicate ValidateRequired(value: string) {
    |Trim(value)| > 0
  }

  /** Required text is text with a character other than white space. */
  lemma RequiredIffNonBlank(value: string)
    ensures ValidateRequired(value) <==> exists i :: 0 <= i < |value| && !IsJsWhitespace(value[i])
  {
  }

  /** `min <= value.trim().length <= max` */
  predicate ValidateLength(value: string, min: int, max: int) {
    min <= |Trim(value)| <= max
  }

  /** `validateRequired` is `validateLength` from one up to the text's own length. */
  lemma RequiredIsLengthFromOne(value: string)
    ensures ValidateRequired(value) <==> ValidateLength(value, 1, |value|)
  {
  }

  /** With a minimum of at least one, a text of valid length is required text; with a minimum of zero, blank text passes. */
  lemma LengthAndRequired(value: string, min: int, max: int)
    ensures min >= 1 && ValidateLength(value, min, max) ==> ValidateRequired(value)
    ensures min <= 0 <= max && !ValidateRequired(value) ==> ValidateLength(value, min, max)
  {
  }

  /** Widening the bounds never rejects a text the narrower bounds accept. */
  lemma LengthMonotone(value: string, min: int, max: int, min2: int, max2: int)
    requires min2 <= min && max <= max2
    ensures ValidateLength(value, min, max) ==> ValidateLength(value, min2, max2)
  {
  }

  // ---------------------------------------------------------------------------
  // Dates
  // ---------------------------------------------------------------------------

  /** `\d{4}-\d{2}-\d{2}` at the start of `s` */
  predicate DatePrefix(s: string) {
    |s| >= 10 && AllDigits(s[..4]) && s[4] == '-' && AllDigits(s[5..7]) && s[7] == '-' && AllDigits(s[8..10])
  }

  /** `/^\d{4}-\d{2}-\d{2}$/` */
  predicate DateShape(s: string) {
    |s| == 10 && DatePrefix(s)
  }

  /** `/^\d{4}-\d{2}-\d{2}\s\d{2}:\d{2}$/` */
  predicate DateTimeShape(s: string) {
    |s| == 16 && DatePrefix(s) && IsJsWhitespace(s[10]) && AllDigits(s[11..13]) && s[13] == ':' && AllDigits(s[14..16])
  }

  /** `validateDate`: the shape, then a date the parser accepts. */
  predicate ValidateDate(date: string, parse: string -> Option<int>) {
    DateShape(date) && parse(date).Some?
  }

  /** `validateDateTime`: the shape, then the first space turned into `T` and parsed. */
  predicate ValidateDateTime(datetime: string, parse: string -> Option<int>) {
    DateTimeShape(datetime) && parse(ReplaceFirst(datetime, " ", "T")).Some?
  }

  /** `validateTimeOrder`: both parse and the end is strictly later (NaN compares false). */
  predicate ValidateTimeOrder(startTime: string, endTime: string, parse: string -> Option<int>) {
    parse(startTime).Some? && parse(endTime).Some? && parse(endTime).value > parse(startTime).value
  }

  /** Outside the separator, a date-time of the right shape holds no space. */
  lemma OnlySeparatorMayBeSpace(s: string, j: int)
    requires DateTimeShape(s) && 0 <= j < |s| && j != 10
    ensures s[j] != ' '
  {
    if j < 4 { assert s[..4][j] == s[j]; }
    else if 5 <= j < 7 { assert s[5..7][j - 5] == s[j]; }
    else if 8 <= j < 10 { assert s[8..10][j - 8] == s[j]; }
    else if 11 <= j < 13 { assert s[11..13][j - 11] == s[j]; }
    else if 14 <= j { assert s[14..16][j - 14] == s[j]; }
  }

  /**
   * What `validateDateTime` hands to the date parser: with a space between date
   * and time, that space becomes `T`; with any other white space (a tab, say)
   * the text is passed on unchanged.
   */
  lemma DateTimeSeparator(s: string)
    requires DateTimeShape(s)
    ensures s[10] == ' ' ==> ReplaceFirst(s, " ", "T") == s[..10] + "T" + s[11..]
    ensures s[10] != ' ' ==> ReplaceFirst(s, " ", "T") == s
  {
    forall j | 0 <= j < |s| && j != 10 ensures !OccursAt(s, " ", j) {
      OnlySeparatorMayBeSpace(s, j);
    }
    if s[10] == ' ' {
      assert OccursAt(s, " ", 10) by { assert s[10..11] == [s[10]]; }
      ContainsIff(s, " ");
    } else {
      ContainsIff(s, " ");
    }
  }

  /** The time order is strict: no two times are each before the other, and none is before itself. */
  lemma TimeOrderStrict(a: string, b: string, parse: string -> Option<int>)
    ensures !(ValidateTimeOrder(a, b, parse) && ValidateTimeOrder(b, a, parse))
    ensures !ValidateTimeOrder(a, a, parse)
  {
  }

  // ---------------------------------------------------------------------------
  // Files
  // ---------------------------------------------------------------------------

  /** `fileSize <= maxSize` */
  predicate ValidateFileSize(fileSize: int, maxSize: int) {
    fileSize <= maxSize
  }

  /** `allowedTypes.includes(fileType)` */
  predicate ValidateFileType(fileType: string, allowedTypes: seq<string>) {
    fileType in allowedTypes
  }

  // ---------------------------------------------------------------------------
  // The purchase form
  // ---------------------------------------------------------------------------

  /** The fields `validatePurchaseForm` looks at; quantity and budget are whole numbers here. */
  datatype PurchaseForm = PurchaseForm(
    categoryId: string,
    partName: string,
    quantity: int,
    budget: int,
    expectedArrivalTime: string,
    quoteDeadline: string)

  datatype ValidationResult = ValidationResult(valid: bool, message: string)

  const CategoryMessage := "请选择配件分类"
  const PartNameMessage := "请输入配件名称"
  const QuantityMessage := "请输入有效的数量"
  const BudgetMessage := "请输入有效的预算金额"
  const ArrivalMessage := "请选择期望到货时间"
  const DeadlineMessage := "请选择报价截止时间"
  const OrderMessage := "报价截止时间必须早于期望到货时间"

  /** One check of the form: whether it passes, and the message shown when it does not. */
  datatype Check = Check(passes: bool, message: string)

  /** The form's checks, in the order they are made. */
  function FormChecks(form: PurchaseForm, parse: string -> Option<int>): (checks: seq<Check>)
    ensures |checks| == 7
  {
    [ Check(form.categoryId != "", CategoryMessage),
      Check(ValidateRequired(form.partName), PartNameMessage),
      Check(ValidatePositiveInteger(IntToString(form.quantity)), QuantityMessage),
      Check(ValidateAmount(IntToString(form.budget)) && form.budget > 0, BudgetMessage),
      Check(ValidateDateTime(form.expectedArrivalTime, parse), ArrivalMessage),
      Check(ValidateDateTime(form.quoteDeadline, parse), DeadlineMessage),
      Check(ValidateTimeOrder(form.quoteDeadline, form.expectedArrivalTime, parse), OrderMessage) ]
  }

  /** The result of running checks in order and stopping at the first that fails. */
  function FirstFailure(checks: seq<Check>): (r: ValidationResult)
    ensures r.valid <==> forall i :: 0 <= i < |checks| ==> checks[i].passes
    ensures r.valid ==> r.message == ""
    ensures !r.valid ==> exists i :: 0 <= i < |checks| && !checks[i].passes && r.message == checks[i].message &&
                                     forall j :: 0 <= j < i ==> checks[j].passes
  {
    if checks == [] then ValidationResult(true, "")
    else if !checks[0].passes then ValidationResult(false, checks[0].message)
    else
      var r := FirstFailure(checks[1..]);
      assert !r.valid ==> exists i :: 0 <= i < |checks| && !checks[i].passes && r.message == checks[i].message &&
                                      forall j :: 0 <= j < i ==> checks[j].passes by {
        if !r.valid {
          var i :| 0 <= i < |checks[1..]| && !checks[1..][i].passes && r.message == checks[1..][i].message &&
                   forall j :: 0 <= j < i ==> checks[1..][j].passes;
          assert forall j :: 0 <= j < i + 1 ==> checks[j].passes by {
            forall j | 0 <= j < i + 1 ensures checks[j].passes {
              if j > 0 {
                assert checks[j] == checks[1..][j - 1];
              }
            }
          }
        }
      }
      r
  }

  /**
   * `validatePurchaseForm`: the category, the part name, the quantity, the
   * budget, the arrival time, the quote deadline and their order, checked in
   * that order; the first failure's message is returned.
   */
  function ValidatePurchaseForm(form: PurchaseForm, parse: string -> Option<int>): (r: ValidationResult)
  {
    if form.categoryId == "" then ValidationResult(false, CategoryMessage)
    else if !ValidateRequired(form.partName) then ValidationResult(false, PartNameMessage)
    else if !ValidatePositiveInteger(IntToString(form.quantity)) then ValidationResult(false, QuantityMessage)
    else if !ValidateAmount(IntToString(form.budget)) || form.budget <= 0 then ValidationResult(false, BudgetMessage)
    else if !ValidateDateTime(form.expectedArrivalTime, parse) then ValidationResult(false, ArrivalMessage)
    else if !ValidateDateTime(form.quoteDeadline, parse) then ValidationResult(false, DeadlineMessage)
    else if !ValidateTimeOrder(form.quoteDeadline, form.expectedArrivalTime, parse) then ValidationResult(false, OrderMessage)
    else ValidationResult(true, "")
  }

  /** Seven checks run in order: the chain of early returns. */
  lemma SevenChecks(c: seq<Check>)
    requires |c| == 7
    ensures FirstFailure(c) ==
              if !c[0].passes then ValidationResult(false, c[0].message)
              else if !c[1].passes then ValidationResult(false, c[1].message)
              else if !c[2].passes then ValidationResult(false, c[2].message)
              else if !c[3].passes then ValidationResult(false, c[3].message)
              else if !c[4].passes then ValidationResult(false, c[4].message)
              else if !c[5].passes then ValidationResult(false, c[5].message)
              else if !c[6].passes then ValidationResult(false, c[6].message)
              else ValidationResult(true, "")
  {
    var c1, c2, c3 := c[1..], c[2..], c[3..];
    var c4, c5, c6 := c[4..], c[5..], c[6..];
    assert c2 == c1[1..] && c3 == c2[1..] && c4 == c3[1..] && c5 == c4[1..] && c6 == c5[1..] && c6[1..] == [];
    assert c1[0] == c[1] && c2[0] == c[2] && c3[0] == c[3] && c4[0] == c[4] && c5[0] == c[5] && c6[0] == c[6];
    FirstFailureStep(c);
    FirstFailureStep(c1);
    FirstFailureStep(c2);
    FirstFailureStep(c3);
    FirstFailureStep(c4);
    FirstFailureStep(c5);
    FirstFailureStep(c6);
    assert FirstFailure(c6[1..]) == ValidationResult(true, "");
  }

  /** One step of the chain: the first check decides unless it passes. */
  lemma FirstFailureStep(checks: seq<Check>)
    requires checks != []
    ensures FirstFailure(checks) ==
              if !checks[0].passes then ValidationResult(false, checks[0].message) else FirstFailure(checks[1..])
  {
  }

  /** The form's early returns are the checks of `FormChecks`, run in order until one fails. */
  lemma PurchaseFormChecksInOrder(form: PurchaseForm, parse: string -> Option<int>)
    ensures ValidatePurchaseForm(form, parse) == FirstFailure(FormChecks(form, parse))
  {
    SevenChecks(FormChecks(form, parse));
  }

  /**
   * A form passes exactly when it names a category and a part, asks for a
   * positive quantity and budget, has two well-formed times, and its quote
   * deadline parses to an instant strictly before the expected arrival.
   */
  lemma ValidFormMeans(form: PurchaseForm, parse: string -> Option<int>)
    ensures ValidatePurchaseForm(form, parse).valid <==>
              && form.categoryId != "" && ValidateRequired(form.partName)
              && form.quantity > 0 && form.budget > 0
              && ValidateDateTime(form.expectedArrivalTime, parse) && ValidateDateTime(form.quoteDeadline, parse)
              && parse(form.quoteDeadline).Some? && parse(form.expectedArrivalTime).Some?
              && parse(form.quoteDeadline).value < parse(form.expectedArrivalTime).value
  {
    PositiveIntegerOfInteger(form.quantity);
    AmountOfInteger(form.budget);
  }
}
