/**
 * The buyer app's formatters (src/utils/format.ts) on integer inputs. Amounts
 * are integers here (for an integer `toFixed` only appends zeros), dates are
 * given by their calendar fields, and the clock and `Math.random` are
 * parameters.
 */
module Format {
  import opened Wrappers
  import opened Text
  import opened Lists

  // ---------------------------------------------------------------------------
  // Reading back a number that a non-digit follows
  // ---------------------------------------------------------------------------

  /** The number of digits the text starts with. */
  function LeadingDigits(s: string): (n: nat)
    ensures n <= |s| && AllDigits(s[..n])
    ensures n < |s| ==> !IsDigit(s[n])
  {
    if s == [] || !IsDigit(s[0]) then 0
    else
      var n := 1 + LeadingDigits(s[1..]);
      assert s[..n] == [s[0]] + s[1..][..n - 1];
      n
  }

  /** The number written at the start of the text (0 when it starts with no digit). */
  function ReadNumber(s: string): nat {
    DigitsValue(s[..LeadingDigits(s)])
  }

  /** A rendered number followed by a non-digit reads back as that number, and takes exactly its own digits. */
  lemma {:induction false} ReadNumberOf(n: nat, x: string)
    requires x == [] || !IsDigit(x[0])
    ensures LeadingDigits(NatToString(n) + x) == |NatToString(n)|
    ensures ReadNumber(NatToString(n) + x) == n
  {
    var a := NatToString(n);
    LeadingDigitsOf(a, x);
    assert (a + x)[..|a|] == a;
    NatToStringRoundTrip(n);
  }

  lemma {:induction false} LeadingDigitsOf(a: string, x: string)
    requires AllDigits(a) && (x == [] || !IsDigit(x[0]))
    ensures LeadingDigits(a + x) == |a|
  {
    if a == [] {
      assert a + x == x;
    } else {
      assert (a + x)[1..] == a[1..] + x;
      LeadingDigitsOf(a[1..], x);
    }
  }

  // ---------------------------------------------------------------------------
  // formatDuration
  // ---------------------------------------------------------------------------

  /**
   * `formatDuration(hours)`: under a day, the hours; otherwise whole days and,
   * unless the day count is exact, the remaining hours.
   */
  function FormatDuration(hours: int): string {
    if hours < 24 then IntToString(hours) + "小时"
    else
      var days, remainHours := hours / 24, hours % 24;
      if remainHours == 0 then NatToString(days) + "天"
      else NatToString(days) + "天" + NatToString(remainHours) + "小时"
  }

  /** What follows the day count: the day sign and, unless zero, the remaining hours. */
  function AfterDays(remaining: nat): string {
    "天" + (if remaining == 0 then "" else NatToString(remaining) + "小时")
  }

  /**
   * A duration of at least a day is rendered from its days and remaining
   * hours, `days * 24 + remaining == hours` with `remaining < 24`; the
   * remaining hours are shown exactly when they are not zero.
   */
  lemma DurationParts(hours: int)
    requires hours >= 24
    ensures var days, remaining := hours / 24, hours % 24;
            && days >= 1 && 0 <= remaining < 24 && days * 24 + remaining == hours
            && FormatDuration(hours) == NatToString(days) + AfterDays(remaining)
  {
    var d, r := NatToString(hours / 24), hours % 24;
    if r == 0 {
      assert d + "天" == d + ("天" + "");
    } else {
      assert d + "天" + NatToString(r) + "小时" == d + ("天" + (NatToString(r) + "小时"));
    }
  }

  /**
   * How a reader gets the hours back from the text: a signed hour count, or a
   * day count followed by `天` and the remaining hours, if any.
   */
  function ParseDuration(s: string): int {
    if s != [] && s[0] == '-' then -(ReadNumber(s[1..]) as int)
    else
      var rest := s[LeadingDigits(s)..];
      if rest != [] && rest[0] == '天' then ReadNumber(s) * 24 + ReadNumber(rest[1..])
      else ReadNumber(s)
  }

  lemma NegativeDurationRoundTrip(hours: int)
    requires hours < 0
    ensures ParseDuration(FormatDuration(hours)) == hours
  {
    var s, u := FormatDuration(hours), NatToString(-hours) + "小时";
    NegativeDurationText(hours);
    assert s[0] == '-' && s[1..] == u;
    ReadNumberOf(-hours, "小时");
  }

  lemma NegativeDurationText(hours: int)
    requires hours < 0
    ensures FormatDuration(hours) == "-" + (NatToString(-hours) + "小时")
  {
    assert IntToString(hours) == "-" + NatToString(-hours);
  }

  lemma HoursDurationRoundTrip(hours: int)
    requires 0 <= hours < 24
    ensures ParseDuration(FormatDuration(hours)) == hours
  {
    var s, n := FormatDuration(hours), NatToString(hours);
    assert s == n + "小时" && s[0] == n[0];
    ReadNumberOf(hours, "小时");
    assert s[|n|..] == "小时";
  }

  lemma DaysDurationRoundTrip(hours: int)
    requires hours >= 24
    ensures ParseDuration(FormatDuration(hours)) == hours
  {
    DurationParts(hours);
    var s, n, rest := FormatDuration(hours), NatToString(hours / 24), AfterDays(hours % 24);
    assert s == n + rest && s[0] == n[0];
    ReadNumberOf(hours / 24, rest);
    assert s[|n|..] == rest;
    if hours % 24 == 0 {
      assert rest[1..] == "";
    } else {
      assert rest[1..] == NatToString(hours % 24) + "小时";
      ReadNumberOf(hours % 24, "小时");
    }
  }

  /** Every duration text reads back as the hours it was made from. */
  lemma DurationRoundTrip(hours: int)
    ensures ParseDuration(FormatDuration(hours)) == hours
  {
    if hours < 0 {
      NegativeDurationRoundTrip(hours);
    } else if hours < 24 {
      HoursDurationRoundTrip(hours);
    } else {
      DaysDurationRoundTrip(hours);
    }
  }

  /** Different durations read differently. */
  lemma DurationInjective(h1: int, h2: int)
    requires FormatDuration(h1) == FormatDuration(h2)
    ensures h1 == h2
  {
    DurationRoundTrip(h1);
    DurationRoundTrip(h2);
  }

  // ---------------------------------------------------------------------------
  // formatPhoneHidden
  // ---------------------------------------------------------------------------

  /** `n` digits in a row start at `j`. */
  predicate DigitsAt(s: string, j: int, n: nat) {
    0 <= j && j + n <= |s| && AllDigits(s[j..j + n])
  }

  /** The first index from `i` on where `n` digits in a row start, or -1: an unanchored `\d{n}` search. */
  function DigitRun(s: string, n: nat, i: nat): (k: int)
    requires i <= |s|
    ensures k == -1 || (i <= k && DigitsAt(s, k, n))
    ensures k == -1 ==> forall j :: i <= j ==> !DigitsAt(s, j, n)
    decreases |s| - i
  {
    if i + n > |s| then -1
    else if AllDigits(s[i..i + n]) then i
    else DigitRun(s, n, i + 1)
  }

  /**
   * `formatPhoneHidden(phone)`: text of any length but 11 is returned as it is;
   * otherwise the first run of `\d{3}\d{4}\d{4}` has its middle four digits
   * replaced by `****`.
   */
  function FormatPhoneHidden(phone: string): (r: string)
    ensures |r| == |phone|
    ensures |phone| == 11 && AllDigits(phone) ==>
              r[..3] == phone[..3] && r[3..7] == "****" && r[7..] == phone[7..]
    ensures !(|phone| == 11 && AllDigits(phone)) ==> r == phone
  {
    if |phone| != 11 then phone
    else
      var k := DigitRun(phone, 11, 0);
      if k < 0 then
        assert phone[0..11] == phone;
        phone
      else
        assert k == 0 && phone[0..11] == phone;
        phone[..k + 3] + "****" + phone[k + 7..]
  }

  /** Masking a masked number changes nothing: the stars are not digits. */
  lemma PhoneHiddenIdempotent(phone: string)
    ensures FormatPhoneHidden(FormatPhoneHidden(phone)) == FormatPhoneHidden(phone)
  {
    var r := FormatPhoneHidden(phone);
    if |phone| == 11 && AllDigits(phone) {
      assert r[3] == r[3..7][0] == '*';
      assert !AllDigits(r);
    }
  }

  /** Every number the phone validator accepts is shown as its first three and last four digits around `****`. */
  lemma ValidPhoneIsMasked(phone: string)
    requires |phone| == 11 && phone[0] == '1' && AllDigits(phone)
    ensures FormatPhoneHidden(phone) == phone[..3] + "****" + phone[7..]
  {
    var r := FormatPhoneHidden(phone);
    assert r == r[..3] + r[3..7] + r[7..];
  }

  // ---------------------------------------------------------------------------
  // formatOrderNo
  // ---------------------------------------------------------------------------

  predicate NoWhitespace(s: string) {
    forall i :: 0 <= i < |s| ==> !IsJsWhitespace(s[i])
  }

  /**
   * `orderNo.replace(/(.{4})/g, '$1 ')`: scanning from the left, each four
   * characters without a line terminator are followed by a space; where no
   * such four start, one character is passed over.
   */
  function GroupBy4(s: string): string
    decreases |s|
  {
    if |s| >= 4 && forall i :: 0 <= i < 4 ==> !IsLineTerminator(s[i]) then s[..4] + " " + GroupBy4(s[4..])
    else if s == [] then []
    else [s[0]] + GroupBy4(s[1..])
  }

  /** `formatOrderNo(orderNo)` */
  function FormatOrderNo(orderNo: string): string {
    Trim(GroupBy4(orderNo))
  }

  function NotSpace(c: char): bool { c != ' ' }

  lemma {:induction false} GroupBy4Short(s: string)
    requires |s| < 4
    ensures GroupBy4(s) == s
    decreases |s|
  {
    if s != [] {
      GroupBy4Short(s[1..]);
      assert [s[0]] + s[1..] == s;
    }
  }

  /** Without white space, the first four characters always form a group. */
  lemma GroupBy4Head(s: string)
    requires NoWhitespace(s) && |s| >= 4
    ensures GroupBy4(s) == s[..4] + " " + GroupBy4(s[4..])
  {
    forall i | 0 <= i < 4 ensures !IsLineTerminator(s[i]) {
      assert !IsJsWhitespace(s[i]);
    }
  }

  /**
   * Without white space, the grouped text has a space at every fifth position
   * and the input's characters in order everywhere else.
   */
  lemma {:induction false} GroupBy4Layout(s: string)
    requires NoWhitespace(s)
    ensures |GroupBy4(s)| == |s| + |s| / 4
    ensures forall i :: 0 <= i < |GroupBy4(s)| ==>
              GroupBy4(s)[i] == if i % 5 == 4 then ' ' else s[i - i / 5]
    decreases |s|
  {
    var g := GroupBy4(s);
    if |s| < 4 {
      GroupBy4Short(s);
    } else {
      GroupBy4Head(s);
      var rest := s[4..];
      GroupBy4Layout(rest);
      var gr := GroupBy4(rest);
      assert g == s[..4] + " " + gr;
      forall i | 0 <= i < |g|
        ensures g[i] == if i % 5 == 4 then ' ' else s[i - i / 5]
      {
        if i >= 5 {
          var j := i - 5;
          assert g[i] == gr[j];
          assert j % 5 == i % 5 && j / 5 == i / 5 - 1;
          if j % 5 != 4 {
            assert rest[j - j / 5] == s[i - i / 5];
          }
        }
      }
    }
  }

  /** Removing the spaces from the grouped text gives the input back. */
  lemma {:induction false} GroupBy4Spaces(s: string)
    requires NoWhitespace(s)
    ensures Filter(GroupBy4(s), NotSpace) == s
    decreases |s|
  {
    NoWhitespaceNoSpace(s);
    if |s| < 4 {
      GroupBy4Short(s);
      FilterAll(s, NotSpace);
    } else {
      var head, rest := s[..4], s[4..];
      GroupBy4Head(s);
      NoWhitespaceSplit(s, 4);
      GroupBy4Spaces(rest);
      SpaceGroupFiltered(head, GroupBy4(rest), rest);
      assert head + rest == s;
    }
  }

  lemma NoWhitespaceNoSpace(s: string)
    requires NoWhitespace(s)
    ensures forall i :: 0 <= i < |s| ==> NotSpace(s[i])
  {
  }

  lemma NoWhitespaceSplit(s: string, k: int)
    requires NoWhitespace(s) && 0 <= k <= |s|
    ensures NoWhitespace(s[..k]) && NoWhitespace(s[k..])
  {
    assert forall i :: 0 <= i < |s| - k ==> s[k..][i] == s[i + k];
  }

  lemma SpaceGroupFiltered(head: string, g: string, rest: string)
    requires forall i :: 0 <= i < |head| ==> NotSpace(head[i])
    requires Filter(g, NotSpace) == rest
    ensures Filter(head + " " + g, NotSpace) == head + rest
  {
    assert Filter(head + " ", NotSpace) == head by {
      FilterAppend(head, " ", NotSpace);
      FilterAll(head, NotSpace);
      assert Filter(" ", NotSpace) == [] by { assert " "[1..] == []; }
      assert head + [] == head;
    }
    FilterAppend(head + " ", g, NotSpace);
  }

  /** `trim` of text whose ends are not white space changes nothing; a trailing space is removed. */
  lemma TrimFacts(x: string)
    ensures x == [] || !IsJsWhitespace(x[0]) ==> TrimStart(x) == x
    ensures x == [] || !IsJsWhitespace(x[|x| - 1]) ==> TrimEnd(x) == x
    ensures TrimEnd(x + " ") == TrimEnd(x)
  {
    assert (x + " ")[..|x|] == x;
  }

  /** The trimmed grouping drops exactly the trailing space left when the length is a multiple of four. */
  lemma OrderNoTrim(s: string)
    requires NoWhitespace(s) && s != []
    ensures var g := GroupBy4(s);
            && (FormatOrderNo(s) == if |s| % 4 == 0 then g[..|g| - 1] else g)
            && (|s| % 4 == 0 ==> g == g[..|g| - 1] + " ")
  {
    var g := GroupBy4(s);
    assert FormatOrderNo(s) == Trim(g);
    GroupBy4Ends(s);
    TrimEnds(g);
  }

  /** `trim` of text that starts with a visible character: nothing to drop, or one trailing space. */
  lemma TrimEnds(g: string)
    requires g != [] && !IsJsWhitespace(g[0])
    ensures !IsJsWhitespace(g[|g| - 1]) ==> Trim(g) == g
    ensures |g| >= 2 && g[|g| - 1] == ' ' && !IsJsWhitespace(g[|g| - 2]) ==>
              Trim(g) == g[..|g| - 1] && g == g[..|g| - 1] + " "
  {
    TrimFacts(g);
    if |g| >= 2 && g[|g| - 1] == ' ' && !IsJsWhitespace(g[|g| - 2]) {
      var body := g[..|g| - 1];
      assert g == body + " ";
      TrimFacts(body);
    }
  }

  /** The first character of the grouping and its last one or two, as far as trimming looks at them. */
  lemma GroupBy4Ends(s: string)
    requires NoWhitespace(s) && s != []
    ensures var g := GroupBy4(s);
            && |g| >= 1 && !IsJsWhitespace(g[0])
            && (|s| % 4 == 0 ==> |g| >= 2 && g[|g| - 1] == ' ' && !IsJsWhitespace(g[|g| - 2]))
            && (|s| % 4 != 0 ==> !IsJsWhitespace(g[|g| - 1]))
  {
    var g := GroupBy4(s);
    GroupBy4Layout(s);
    assert g[0] == s[0];
    var n := |s|;
    GroupedLastPositions(n);
    if n % 4 == 0 {
      assert g[|g| - 2] == s[n - 1];
    } else {
      assert g[|g| - 1] == s[n - 1];
    }
  }

  /** Where the last character of the input lands in its grouping of length `n + n / 4`. */
  lemma GroupedLastPositions(n: nat)
    requires n >= 1
    ensures var len := n + n / 4;
            && (n % 4 == 0 ==> (len - 1) % 5 == 4 && (len - 2) % 5 != 4 && len - 2 - (len - 2) / 5 == n - 1)
            && (n % 4 != 0 ==> (len - 1) % 5 != 4 && len - 1 - (len - 1) / 5 == n - 1)
  {
    var q, m := n / 4, n % 4;
    var len := n + q;
    assert len == 5 * q + m;
    if m == 0 {
      DivMod5(len - 1, q - 1, 4);
      DivMod5(len - 2, q - 1, 3);
    } else {
      DivMod5(len - 1, q, m - 1);
    }
  }

  /** Quotient and remainder by five, read off a decomposition. */
  lemma DivMod5(x: int, d: int, r: int)
    requires x == 5 * d + r && 0 <= r < 5
    ensures x / 5 == d && x % 5 == r
  {
  }

  /** Removing the spaces from a formatted order number gives it back. */
  lemma OrderNoSpaces(orderNo: string)
    requires NoWhitespace(orderNo)
    ensures Filter(FormatOrderNo(orderNo), NotSpace) == orderNo
  {
    var g := GroupBy4(orderNo);
    GroupBy4Spaces(orderNo);
    if orderNo == [] {
      assert g == [];
      TrimFacts(g);
      assert FormatOrderNo(orderNo) == [];
    } else {
      OrderNoTrim(orderNo);
      if |orderNo| % 4 == 0 {
        var body := g[..|g| - 1];
        assert FormatOrderNo(orderNo) == body && g == body + " ";
        TrailingSpaceFiltered(body);
      } else {
        assert FormatOrderNo(orderNo) == g;
      }
    }
  }

  /** A trailing space disappears when the spaces are removed. */
  lemma TrailingSpaceFiltered(body: string)
    ensures Filter(body + " ", NotSpace) == Filter(body, NotSpace)
  {
    FilterAppend(body, " ", NotSpace);
    assert Filter(" ", NotSpace) == [] by { assert " "[1..] == []; }
    assert Filter(body, NotSpace) + [] == Filter(body, NotSpace);
  }

  /** The grouped layout: a space at every fifth position, the characters in order elsewhere, none at the end. */
  lemma OrderNoLayout(orderNo: string)
    requires NoWhitespace(orderNo)
    ensures var r := FormatOrderNo(orderNo);
            && |r| == (if orderNo == [] then 0 else |orderNo| + (|orderNo| - 1) / 4)
            && (forall i :: 0 <= i < |r| ==> r[i] == if i % 5 == 4 then ' ' else orderNo[i - i / 5])
  {
    var g, r := GroupBy4(orderNo), FormatOrderNo(orderNo);
    GroupBy4Layout(orderNo);
    if orderNo == [] {
      assert g == [];
      TrimFacts(g);
    } else {
      OrderNoTrim(orderNo);
    }
  }

  /**
   * An order number without white space is shown as groups of four separated
   * by one space, with no space at either end; removing the spaces gives the
   * order number back.
   */
  lemma OrderNoGroups(orderNo: string)
    requires NoWhitespace(orderNo)
    ensures var r := FormatOrderNo(orderNo);
            && |r| == (if orderNo == [] then 0 else |orderNo| + (|orderNo| - 1) / 4)
            && (forall i :: 0 <= i < |r| ==> r[i] == if i % 5 == 4 then ' ' else orderNo[i - i / 5])
            && (r != [] ==> r[0] != ' ' && r[|r| - 1] != ' ')
            && Filter(r, NotSpace) == orderNo
  {
    OrderNoLayout(orderNo);
    OrderNoSpaces(orderNo);
  }

  // ---------------------------------------------------------------------------
  // formatAmount and formatAmountWithComma on integer amounts
  // ---------------------------------------------------------------------------

  function NotComma(c: char): bool { c != ',' }

  /**
   * `digits.replace(/\B(?=(\d{3})+(?!\d))/g, ',')` on a string of digits: a
   * comma goes before each inner position that has a multiple of three digits
   * after it.
   */
  function Group3(digits: string): string
    decreases |digits|
  {
    if |digits| <= 3 then digits
    else Group3(digits[..|digits| - 3]) + "," + digits[|digits| - 3..]
  }

  /** Commas exactly at the inner positions a multiple of four from the end. */
  predicate CommasEveryFourth(r: string) {
    forall i :: 0 <= i < |r| ==> (r[i] == ',' <==> 0 < i && (|r| - i) % 4 == 0)
  }

  /** One comma for every full group of three beyond the first digit. */
  lemma {:induction false} Group3Length(digits: string)
    requires digits != []
    ensures |Group3(digits)| == |digits| + (|digits| - 1) / 3
    decreases |digits|
  {
    if |digits| > 3 {
      Group3Length(digits[..|digits| - 3]);
    }
  }

  /**
   * The commas sit exactly at every fourth position counted from the right,
   * never at the front: each is followed by three digits up to the next comma
   * or the end.
   */
  lemma {:induction false} Group3Commas(digits: string)
    requires AllDigits(digits)
    ensures CommasEveryFourth(Group3(digits))
    decreases |digits|
  {
    if |digits| > 3 {
      var head, tail := digits[..|digits| - 3], digits[|digits| - 3..];
      AllDigitsSplit(digits, |digits| - 3);
      Group3Commas(head);
      Group3Length(head);
      CommaGroupLayout(Group3(head), tail);
    } else {
      forall i | 0 <= i < |digits| ensures digits[i] != ',' {
        assert IsDigit(digits[i]);
      }
    }
  }

  lemma AllDigitsSplit(s: string, k: int)
    requires AllDigits(s) && 0 <= k <= |s|
    ensures AllDigits(s[..k]) && AllDigits(s[k..])
  {
    assert forall i :: 0 <= i < |s| - k ==> s[k..][i] == s[i + k];
  }

  /** Appending a comma and three digits to well-placed commas keeps them well placed. */
  lemma CommaGroupLayout(g: string, tail: string)
    requires CommasEveryFourth(g) && |g| >= 1
    requires |tail| == 3 && AllDigits(tail)
    ensures CommasEveryFourth(g + "," + tail)
  {
    var r := g + "," + tail;
    forall i | 0 <= i < |r| ensures r[i] == ',' <==> 0 < i && (|r| - i) % 4 == 0 {
      if i < |g| {
        assert r[i] == g[i];
        assert (|r| - i) % 4 == (|g| - i) % 4;
      } else if i > |g| {
        assert r[i] == tail[i - |g| - 1] && IsDigit(tail[i - |g| - 1]);
      }
    }
  }

  /** Removing the commas gives the digits back. */
  lemma {:induction false} Group3Digits(digits: string)
    requires AllDigits(digits)
    ensures Filter(Group3(digits), NotComma) == digits
    decreases |digits|
  {
    if |digits| <= 3 {
      DigitsHaveNoComma(digits);
    } else {
      var head, tail := digits[..|digits| - 3], digits[|digits| - 3..];
      AllDigitsSplit(digits, |digits| - 3);
      Group3Digits(head);
      assert Group3(digits) == Group3(head) + "," + tail;
      assert head + tail == digits;
      CommaGroupFiltered(Group3(head), head, tail);
    }
  }

  lemma CommaGroupFiltered(g: string, head: string, tail: string)
    requires Filter(g, NotComma) == head && AllDigits(tail)
    ensures Filter(g + "," + tail, NotComma) == head + tail
  {
    assert Filter(g + ",", NotComma) == head by {
      FilterAppend(g, ",", NotComma);
      CommaFiltered();
      assert head + [] == head;
    }
    assert Filter(tail, NotComma) == tail by {
      DigitsHaveNoComma(tail);
    }
    FilterAppend(g + ",", tail, NotComma);
  }

  lemma CommaFiltered()
    ensures Filter(",", NotComma) == []
  {
    assert ","[1..] == [];
  }

  lemma DigitsHaveNoComma(s: string)
    requires AllDigits(s)
    ensures Filter(s, NotComma) == s
  {
    forall i | 0 <= i < |s| ensures NotComma(s[i]) {
      assert IsDigit(s[i]);
    }
    FilterAll(s, NotComma);
  }

  /** `"0".repeat(n)` */
  function Zeros(n: nat): (r: string)
    ensures |r| == n && forall i :: 0 <= i < n ==> r[i] == '0'
  {
    seq(n, i => '0')
  }

  /** `amount.toFixed(decimals)` for an integer amount: no point when no decimals are asked for. */
  function ToFixed(amount: int, decimals: nat): string {
    IntToString(amount) + (if decimals == 0 then "" else "." + Zeros(decimals))
  }

  /** `formatAmount(amount, decimals = 2)` on an integer amount. */
  function FormatAmount(amount: int, decimals: Option<nat>): string {
    ToFixed(amount, decimals.GetOr(2))
  }

  /** The magnitude's digits. */
  function AmountDigits(amount: int): string {
    NatToString(if amount < 0 then -amount else amount)
  }

  function AmountSign(amount: int): string {
    if amount < 0 then "-" else ""
  }

  /** What `toFixed(decimals)` puts after the integer part of an integer. */
  function Fraction(decimals: nat): string {
    if decimals == 0 then "" else "." + Zeros(decimals)
  }

  /**
   * `formatAmountWithComma(amount, decimals = 2)` on an integer amount: the
   * integer part of `toFixed` has its digits grouped by three; the sign is
   * never followed by a comma since `\B` fails between `-` and a digit.
   */
  function FormatAmountWithComma(amount: int, decimals: Option<nat>): string {
    AmountSign(amount) + Group3(AmountDigits(amount)) + Fraction(decimals.GetOr(2))
  }

  lemma AmountPieces(amount: int, decimals: Option<nat>)
    ensures FormatAmount(amount, decimals) == AmountSign(amount) + AmountDigits(amount) + Fraction(decimals.GetOr(2))
  {
  }

  /**
   * Removing the commas gives `formatAmount`'s text: grouping only inserts
   * commas, and they sit every fourth position from the right of the digits.
   */
  lemma AmountWithCommaDigits(amount: int, decimals: Option<nat>)
    ensures Filter(FormatAmountWithComma(amount, decimals), NotComma) == FormatAmount(amount, decimals)
    ensures CommasEveryFourth(Group3(AmountDigits(amount)))
  {
    var sign, digits, fraction := AmountSign(amount), AmountDigits(amount), Fraction(decimals.GetOr(2));
    AmountPieces(amount, decimals);
    assert FormatAmountWithComma(amount, decimals) == sign + Group3(digits) + fraction;
    Group3Digits(digits);
    Group3Commas(digits);
    SignHasNoComma(amount);
    FractionHasNoComma(decimals.GetOr(2));
    CommaFreeAround(sign, Group3(digits), digits, fraction);
  }

  lemma SignHasNoComma(amount: int)
    ensures Filter(AmountSign(amount), NotComma) == AmountSign(amount)
  {
    var sign := AmountSign(amount);
    assert forall i :: 0 <= i < |sign| ==> sign[i] == '-';
    FilterAll(sign, NotComma);
  }

  lemma FractionHasNoComma(decimals: nat)
    ensures Filter(Fraction(decimals), NotComma) == Fraction(decimals)
  {
    var fraction := Fraction(decimals);
    assert forall i :: 0 <= i < |fraction| ==> fraction[i] == '.' || fraction[i] == '0';
    FilterAll(fraction, NotComma);
  }

  lemma CommaFreeAround(sign: string, grouped: string, digits: string, fraction: string)
    requires Filter(sign, NotComma) == sign && Filter(fraction, NotComma) == fraction
    requires Filter(grouped, NotComma) == digits
    ensures Filter(sign + grouped + fraction, NotComma) == sign + digits + fraction
  {
    assert Filter(sign + grouped, NotComma) == sign + digits by {
      FilterAppend(sign, grouped, NotComma);
    }
    FilterAppend(sign + grouped, fraction, NotComma);
  }

  /** With the default two decimals, 1234567 is shown as `1,234,567.00`. */
  lemma AmountWithCommaExample()
    ensures FormatAmountWithComma(1234567, None) == "1,234,567.00"
  {
    SevenDigits();
    GroupedSevenDigits();
    assert Fraction(2) == ".00" by { assert Zeros(2) == "00"; }
  }

  lemma SevenDigits()
    ensures AmountDigits(1234567) == "1234567"
  {
    assert NatToString(1) == "1";
    assert NatToString(12) == "12";
    assert NatToString(123) == "123";
    assert NatToString(1234) == "1234";
    assert NatToString(12345) == "12345";
    assert NatToString(123456) == "123456";
    assert NatToString(1234567) == "1234567";
  }

  lemma GroupedSevenDigits()
    ensures Group3("1234567") == "1,234,567"
  {
    assert "1234567"[..4] == "1234" && "1234567"[4..] == "567";
    assert "1234"[..1] == "1" && "1234"[1..] == "234";
  }

  // ---------------------------------------------------------------------------
  // generateOrderNo
  // ---------------------------------------------------------------------------

  /** `String(n).padStart(2, '0')` */
  function Pad2(n: nat): string {
    PadStart(NatToString(n), 2, '0')
  }

  /** The date and random-number digits that follow the prefix: `${year}${month}${day}${random}`. */
  function DateDigits(year: nat, month: nat, day: nat, random: nat): string {
    NatToString(year) + Pad2(month) + Pad2(day) + PadStart(NatToString(random), 4, '0')
  }

  /**
   * `generateOrderNo(prefix = 'PO')` with the clock's year, month and day and
   * the drawn `Math.floor(Math.random() * 10000)` as parameters.
   */
  function GenerateOrderNo(prefix: Option<string>, year: nat, month: nat, day: nat, random: nat): string {
    prefix.GetOr("PO") + DateDigits(year, month, day, random)
  }

  /** A field of `width` digits read back from a zero-padded rendering. */
  lemma PaddedField(n: nat, width: nat)
    requires 1 <= width && n < Pow10(width)
    ensures |PadStart(NatToString(n), width, '0')| == width
    ensures AllDigits(PadStart(NatToString(n), width, '0'))
    ensures DigitsValue(PadStart(NatToString(n), width, '0')) == n
  {
    NatToStringLength(n, width);
    ZeroPaddedRoundTrip(n, width);
  }

  /** The parts an order number is made of. */
  datatype OrderNoParts = OrderNoParts(prefix: string, year: nat, month: nat, day: nat, random: nat)

  /** Twelve digits read as a four-digit year, two-digit month and day, and a four-digit random number. */
  function ReadDateDigits(t: string): (nat, nat, nat, nat)
    requires |t| == 12 && AllDigits(t)
  {
    (DigitsValue(t[..4]), DigitsValue(t[4..6]), DigitsValue(t[6..8]), DigitsValue(t[8..]))
  }

  /** Reading an order number back: its last twelve characters must be digits; they hold year, month, day and random number. */
  function ReadOrderNo(r: string): Option<OrderNoParts> {
    if |r| < 12 || !AllDigits(r[|r| - 12..]) then None
    else
      var (year, month, day, random) := ReadDateDigits(r[|r| - 12..]);
      Some(OrderNoParts(r[..|r| - 12], year, month, day, random))
  }

  /** A four-digit year is written with exactly four digits, which read back as the year. */
  lemma YearField(year: nat)
    requires 1000 <= year <= 9999
    ensures |NatToString(year)| == 4 && AllDigits(NatToString(year)) && DigitsValue(NatToString(year)) == year
  {
    assert Pow10(4) == 10000 && Pow10(3) == 1000;
    NatToStringLength(year, 4);
    NatToStringLongEnough(year, 3);
    NatToStringRoundTrip(year);
  }

  /** Four fields of widths 4, 2, 2 and 4 laid side by side, and cut apart again. */
  lemma FieldsSideBySide(y: string, m: string, d: string, n: string)
    requires |y| == 4 && |m| == 2 && |d| == 2 && |n| == 4
    requires AllDigits(y) && AllDigits(m) && AllDigits(d) && AllDigits(n)
    ensures |y + m + d + n| == 12 && AllDigits(y + m + d + n)
    ensures (y + m + d + n)[..4] == y && (y + m + d + n)[4..6] == m
    ensures (y + m + d + n)[6..8] == d && (y + m + d + n)[8..] == n
  {
    var t := y + m + d + n;
    assert forall i :: 0 <= i < 12 ==> t[i] == if i < 4 then y[i] else if i < 6 then m[i - 4] else if i < 8 then d[i - 6] else n[i - 8];
  }

  /** Where each field sits among the twelve digits. */
  lemma DateDigitsLayout(year: nat, month: nat, day: nat, random: nat)
    requires 1000 <= year <= 9999 && 1 <= month <= 12 && 1 <= day <= 31 && random < 10000
    ensures |DateDigits(year, month, day, random)| == 12 && AllDigits(DateDigits(year, month, day, random))
    ensures DateDigits(year, month, day, random)[..4] == NatToString(year)
    ensures DateDigits(year, month, day, random)[4..6] == Pad2(month)
    ensures DateDigits(year, month, day, random)[6..8] == Pad2(day)
    ensures DateDigits(year, month, day, random)[8..] == PadStart(NatToString(random), 4, '0')
  {
    assert Pow10(4) == 10000 && Pow10(2) == 100;
    YearField(year);
    PaddedField(month, 2);
    PaddedField(day, 2);
    PaddedField(random, 4);
    FieldsSideBySide(NatToString(year), Pad2(month), Pad2(day), PadStart(NatToString(random), 4, '0'));
  }

  /** Twelve digits cut as year, month, day and random number read back as those numbers. */
  lemma FieldValues(t: string, year: nat, month: nat, day: nat, random: nat)
    requires 1000 <= year <= 9999 && 1 <= month <= 12 && 1 <= day <= 31 && random < 10000
    requires |t| == 12 && AllDigits(t) && t[..4] == NatToString(year) && t[4..6] == Pad2(month)
    requires t[6..8] == Pad2(day) && t[8..] == PadStart(NatToString(random), 4, '0')
    ensures ReadDateDigits(t) == (year, month, day, random)
  {
    assert Pow10(4) == 10000 && Pow10(2) == 100;
    YearField(year);
    PaddedField(month, 2);
    PaddedField(day, 2);
    PaddedField(random, 4);
  }

  /** The twelve digits of a date and random number read back as those numbers. */
  lemma DateDigitsRoundTrip(year: nat, month: nat, day: nat, random: nat)
    requires 1000 <= year <= 9999 && 1 <= month <= 12 && 1 <= day <= 31 && random < 10000
    ensures |DateDigits(year, month, day, random)| == 12 && AllDigits(DateDigits(year, month, day, random))
    ensures ReadDateDigits(DateDigits(year, month, day, random)) == (year, month, day, random)
  {
    DateDigitsLayout(year, month, day, random);
    FieldValues(DateDigits(year, month, day, random), year, month, day, random);
  }

  /** A prefix followed by twelve digits reads back as that prefix and those digits' fields. */
  lemma ReadPrefixed(p: string, t: string)
    requires |t| == 12 && AllDigits(t)
    ensures ReadOrderNo(p + t)
            == Some(OrderNoParts(p, ReadDateDigits(t).0, ReadDateDigits(t).1, ReadDateDigits(t).2, ReadDateDigits(t).3))
  {
    var r := p + t;
    assert r[..|r| - 12] == p && r[|r| - 12..] == t;
  }

  /**
   * For a four-digit year, the order number is the prefix followed by twelve
   * digits, from which year, month, day and the random number read back.
   */
  lemma OrderNoRoundTrip(prefix: Option<string>, year: nat, month: nat, day: nat, random: nat)
    requires 1000 <= year <= 9999 && 1 <= month <= 12 && 1 <= day <= 31 && random < 10000
    ensures |GenerateOrderNo(prefix, year, month, day, random)| == |prefix.GetOr("PO")| + 12
    ensures ReadOrderNo(GenerateOrderNo(prefix, year, month, day, random))
            == Some(OrderNoParts(prefix.GetOr("PO"), year, month, day, random))
  {
    var p, t := prefix.GetOr("PO"), DateDigits(year, month, day, random);
    DateDigitsRoundTrip(year, month, day, random);
    ReadPrefixed(p, t);
  }

  // ---------------------------------------------------------------------------
  // formatDate
  // ---------------------------------------------------------------------------

  /** A valid `Date`'s local calendar fields; `month` counts from 1. */
  datatype DateFields = DateFields(year: int, month: nat, day: nat, hours: nat, minutes: nat, seconds: nat)

  /**
   * Each token's first occurrence replaced by its rendered field, in the order
   * YYYY, MM, DD, HH, mm, ss (each later token is sought in the text the earlier
   * replacements left).
   */
  function FillTokens(f: string, year: string, month: string, day: string, hours: string, minutes: string,
                      seconds: string): string
  {
    var s1 := ReplaceFirst(f, "YYYY", year);
    var s2 := ReplaceFirst(s1, "MM", month);
    var s3 := ReplaceFirst(s2, "DD", day);
    var s4 := ReplaceFirst(s3, "HH", hours);
    var s5 := ReplaceFirst(s4, "mm", minutes);
    ReplaceFirst(s5, "ss", seconds)
  }

  /**
   * `formatDate(date, format = 'YYYY-MM-DD')`: an invalid date (`None`) gives
   * the empty text; otherwise the year as it is written and the other fields
   * zero-padded to two digits fill the format's tokens.
   */
  function FormatDate(date: Option<DateFields>, format: Option<string>): (r: string)
    ensures date.None? ==> r == ""
  {
    match date
    case None => ""
    case Some(d) =>
      FillTokens(format.GetOr("YYYY-MM-DD"), IntToString(d.year), Pad2(d.month), Pad2(d.day), Pad2(d.hours),
                 Pad2(d.minutes), Pad2(d.seconds))
  }

  predicate NoLetters(s: string) {
    forall i :: 0 <= i < |s| ==> !IsAsciiLetter(s[i])
  }

  /** A token starting with a letter first occurs right after a letter-free prefix. */
  lemma FirstTokenAfter(a: string, token: string, b: string)
    requires NoLetters(a) && token != [] && IsAsciiLetter(token[0])
    ensures ReplaceFirst(a + token + b, token, "") == a + b
    ensures forall rep :: ReplaceFirst(a + token + b, token, rep) == a + rep + b
  {
    var s := a + token + b;
    assert s[|a|..|a| + |token|] == token;
    assert OccursAt(s, token, |a|);
    var k := IndexOf(s, token);
    assert k == |a|;
    assert s[..k] == a && s[k + |token|..] == b;
  }

  /** Text without letters holds no token. */
  lemma NoTokenIn(s: string, token: string)
    requires NoLetters(s) && token != [] && IsAsciiLetter(token[0])
    ensures forall rep :: ReplaceFirst(s, token, rep) == s
  {
    forall j | OccursAt(s, token, j) ensures false {
    }
  }

  lemma RenderedHasNoLetters(n: nat)
    ensures NoLetters(NatToString(n)) && NoLetters(Pad2(n))
  {
    var t := NatToString(n);
    DigitsHaveNoLetters(t);
    var r := PadStart(t, 2, '0');
    forall i | 0 <= i < |r| ensures !IsAsciiLetter(r[i]) {
      if i >= |r| - |t| {
        assert r[i] == r[|r| - |t|..][i - (|r| - |t|)] == t[i - (|r| - |t|)];
      }
    }
  }

  lemma DigitsHaveNoLetters(s: string)
    requires AllDigits(s)
    ensures NoLetters(s)
  {
    forall i | 0 <= i < |s| ensures !IsAsciiLetter(s[i]) {
      assert IsDigit(s[i]);
    }
  }

  /** A field below 100 is rendered as two digits, which read back as the field. */
  lemma Pad2RoundTrip(n: nat)
    requires n < 100
    ensures |Pad2(n)| == 2 && AllDigits(Pad2(n)) && DigitsValue(Pad2(n)) == n
  {
    assert Pow10(2) == 100;
    PaddedField(n, 2);
  }

  lemma YearTokenFilled(y: string)
    ensures ReplaceFirst("YYYY-MM-DD", "YYYY", y) == y + "-MM-DD"
  {
    FirstTokenAfter([], "YYYY", "-MM-DD");
    assert [] + "YYYY" + "-MM-DD" == "YYYY-MM-DD";
  }

  lemma MonthTokenFilled(y: string, m: string)
    requires NoLetters(y)
    ensures ReplaceFirst(y + "-MM-DD", "MM", m) == y + "-" + m + "-DD"
  {
    assert NoLetters(y + "-");
    FirstTokenAfter(y + "-", "MM", "-DD");
    assert (y + "-") + "MM" + "-DD" == y + "-MM-DD";
  }

  lemma DayTokenFilled(y: string, m: string, dd: string)
    requires NoLetters(y) && NoLetters(m)
    ensures ReplaceFirst(y + "-" + m + "-DD", "DD", dd) == y + "-" + m + "-" + dd
  {
    var a := y + "-" + m + "-";
    assert NoLetters(a);
    FirstTokenAfter(a, "DD", "");
    assert a + "DD" + "" == y + "-" + m + "-DD";
  }

  /** With letter-free fields, the default format shows the date and no time token is left to fill. */
  lemma DefaultFormatFilled(y: string, m: string, dd: string, h: string, mi: string, s: string)
    requires NoLetters(y) && NoLetters(m) && NoLetters(dd)
    ensures FillTokens("YYYY-MM-DD", y, m, dd, h, mi, s) == y + "-" + m + "-" + dd
  {
    YearTokenFilled(y);
    MonthTokenFilled(y, m);
    DayTokenFilled(y, m, dd);
    var s3 := y + "-" + m + "-" + dd;
    assert NoLetters(s3);
    NoTokenIn(s3, "HH");
    NoTokenIn(s3, "mm");
    NoTokenIn(s3, "ss");
  }

  /**
   * With the default format, a date with a non-negative year is shown as the
   * year, then month and day zero-padded to two digits, separated by `-`.
   */
  lemma DefaultDateFormat(d: DateFields)
    requires d.year >= 0
    ensures FormatDate(Some(d), None) == NatToString(d.year) + "-" + Pad2(d.month) + "-" + Pad2(d.day)
  {
    RenderedHasNoLetters(d.year);
    RenderedHasNoLetters(d.month);
    RenderedHasNoLetters(d.day);
    DefaultFormatFilled(NatToString(d.year), Pad2(d.month), Pad2(d.day), Pad2(d.hours), Pad2(d.minutes),
                        Pad2(d.seconds));
  }

  /** A format without any token is returned as it is. */
  lemma FormatWithoutTokens(d: DateFields, format: string)
    requires NoLetters(format)
    ensures FormatDate(Some(d), Some(format)) == format
  {
    NoTokenIn(format, "YYYY");
    NoTokenIn(format, "MM");
    NoTokenIn(format, "DD");
    NoTokenIn(format, "HH");
    NoTokenIn(format, "mm");
    NoTokenIn(format, "ss");
  }

  // ---------------------------------------------------------------------------
  // formatRelativeTime
  // ---------------------------------------------------------------------------

  /** Milliseconds in a minute, an hour and a day. */
  const MinuteMs := 60000
  const HourMs := 3600000
  const DayMs := 86400000

  /**
   * `formatRelativeTime(date)` with the time elapsed since the date, in
   * milliseconds (`now - date`), as a parameter; an invalid date (`None`)
   * makes every comparison on NaN false.
   */
  function FormatRelativeTime(date: Option<DateFields>, elapsed: int): (r: string)
    ensures date.None? || elapsed < MinuteMs ==> r == "刚刚"
    ensures date.Some? && elapsed >= 8 * DayMs ==> r == FormatDate(date, Some("MM-DD HH:mm"))
    ensures date.Some? && DayMs <= elapsed < 8 * DayMs ==> r == NatToString(elapsed / DayMs) + "天前"
    ensures date.Some? && HourMs <= elapsed < DayMs ==> r == NatToString(elapsed / HourMs) + "小时前"
    ensures date.Some? && MinuteMs <= elapsed < HourMs ==> r == NatToString(elapsed / MinuteMs) + "分钟前"
  {
    if date.None? then "刚刚"
    else
      var seconds := elapsed / 1000;
      var minutes := seconds / 60;
      var hours := minutes / 60;
      var days := hours / 24;
      assert minutes == elapsed / MinuteMs;
      assert hours == elapsed / HourMs;
      assert days == elapsed / DayMs;
      if days > 7 then FormatDate(date, Some("MM-DD HH:mm"))
      else if days > 0 then NatToString(days) + "天前"
      else if hours > 0 then NatToString(hours) + "小时前"
      else if minutes > 0 then NatToString(minutes) + "分钟前"
      else "刚刚"
  }
}
