/**
 * The supplier portal's validators (productor_PC/src/utils/validator.ts).
 * Regular expressions are restated over character classes; the e-mail pattern,
 * which leaves open where the domain's last dot falls, is given both as the
 * pattern (some split of the text) and as a deterministic scan, proved to
 * accept the same strings. A `File` is its name, MIME type and size.
 */
module SupplierValidator {
  import opened Wrappers
  import opened Text
  import opened Lists
  import BuyerValidator

  /** `/^1[3-9]\d{9}$/`, the same expression the buyer app uses. */
  predicate ValidatePhone(phone: string) {
    BuyerValidator.ValidatePhone(phone)
  }

  /** A portal phone number is eleven digits, the first `1`, the second 3 to 9. */
  lemma PhoneMeans(phone: string)
    ensures ValidatePhone(phone) <==>
              |phone| == 11 && AllDigits(phone) && phone[0] == '1' && '3' <= phone[1] <= '9'
  {
    BuyerValidator.PhoneMeans(phone);
  }

  // ---------------------------------------------------------------------------
  // E-mail
  // ---------------------------------------------------------------------------

  /** `[a-zA-Z0-9._%+-]` */
  predicate IsLocalChar(c: char) {
    IsAsciiAlnum(c) || c == '.' || c == '_' || c == '%' || c == '+' || c == '-'
  }

  /** `[a-zA-Z0-9.-]` */
  predicate IsDomainChar(c: char) {
    IsAsciiAlnum(c) || c == '.' || c == '-'
  }

  /**
   * `/^[a-zA-Z0-9._%+-]+@[a-zA-Z0-9.-]+\.[a-zA-Z]{2,}$/` with the `@` at `at`
   * and the dot before the final letters at `dot`.
   */
  predicate EmailSplit(s: string, at: int, dot: int) {
    && 0 < at && at + 1 < dot && dot + 2 < |s|
    && s[at] == '@' && s[dot] == '.'
    && (forall k :: 0 <= k < at ==> IsLocalChar(s[k]))
    && (forall k :: at < k < dot ==> IsDomainChar(s[k]))
    && (forall k :: dot < k < |s| ==> IsAsciiLetter(s[k]))
  }

  /** The e-mail pattern matches: some choice of the `@` and of the last dot fits. */
  ghost predicate EmailPattern(s: string) {
    exists at, dot :: EmailSplit(s, at, dot)
  }

  function IsAt(c: char): bool { c == '@' }

  function IsDot(c: char): bool { c == '.' }

  /**
   * A split that fits the pattern is unique: its `@` is the first `@` of the
   * text (no character class before it allows one) and its dot the last dot
   * (the final letters hold none).
   */
  lemma SplitIsFirstAtLastDot(s: string, at: int, dot: int)
    requires EmailSplit(s, at, dot)
    ensures at == FindIndex(s, IsAt) && dot == LastIndex(s, IsDot)
  {
    var a, d := FindIndex(s, IsAt), LastIndex(s, IsDot);
    assert IsAt(s[at]) && IsDot(s[dot]);
  }

  /**
   * `validateEmail` as one scan: the `@` is the first one, the dot the last
   * one. Accepts exactly what the pattern accepts.
   */
  function ValidateEmail(s: string): (ok: bool)
    ensures ok <==> EmailPattern(s)
  {
    var at, dot := FindIndex(s, IsAt), LastIndex(s, IsDot);
    if EmailSplit(s, at, dot) then true
    else
      assert !EmailPattern(s) by {
        forall a, d | EmailSplit(s, a, d) ensures false {
          SplitIsFirstAtLastDot(s, a, d);
        }
      }
      false
  }

  /** An address accepted here has exactly one `@`, with text on both sides. */
  lemma EmailHasOneAt(s: string)
    requires ValidateEmail(s)
    ensures exists at :: 0 < at < |s| - 1 && s[at] == '@' && forall k :: 0 <= k < |s| && k != at ==> s[k] != '@'
  {
    var at, dot := FindIndex(s, IsAt), LastIndex(s, IsDot);
    assert EmailSplit(s, at, dot);
    forall k | 0 <= k < |s| && k != at
      ensures s[k] != '@'
    {
      if k < at {
        assert IsLocalChar(s[k]);
      } else if k < dot {
        assert IsDomainChar(s[k]);
      } else if k > dot {
        assert IsAsciiLetter(s[k]);
      }
    }
  }

  /** A well-formed address passes. */
  lemma EmailAccepts()
    ensures ValidateEmail("li@ap.cn")
  {
    assert EmailSplit("li@ap.cn", 2, 5);
  }

  /** A one-letter top-level domain fails. */
  lemma EmailRejectsShortDomain()
    ensures !ValidateEmail("li@ap.c")
  {
    forall at, dot | EmailSplit("li@ap.c", at, dot) ensures false {
    }
  }

  /** A second `@` fails. */
  lemma EmailRejectsSecondAt()
    ensures !ValidateEmail("li@a@p.cn")
  {
    var s := "li@a@p.cn";
    assert s[2] == '@' && s[4] == '@' && s[6] == '.';
    forall at, dot | EmailSplit(s, at, dot) ensures false {
    }
  }

  // ---------------------------------------------------------------------------
  // Numbers, tracking numbers, passwords, required values
  // ---------------------------------------------------------------------------

  /** `validateQuantity` on a number that is an integer: `num > 0`. */
  predicate ValidateQuantity(quantity: int) {
    quantity > 0
  }

  /** An integer quantity passes exactly when its decimal text is a positive integer to the buyer app. */
  lemma QuantityAgreesWithPositiveInteger(n: int)
    ensures ValidateQuantity(n) <==> BuyerValidator.ValidatePositiveInteger(IntToString(n))
  {
    BuyerValidator.PositiveIntegerOfInteger(n);
  }

  /** `/^[A-Za-z0-9]{8,30}$/` */
  predicate ValidateTrackingNumber(trackingNo: string) {
    8 <= |trackingNo| <= 30 && forall i :: 0 <= i < |trackingNo| ==> IsAsciiAlnum(trackingNo[i])
  }

  /** A number written out in decimal is a tracking number exactly when it has eight to thirty digits. */
  lemma TrackingNumberOfNumber(n: nat)
    ensures ValidateTrackingNumber(NatToString(n)) <==> Pow10(7) <= n < Pow10(30)
  {
    var t := NatToString(n);
    assert forall i :: 0 <= i < |t| ==> IsAsciiAlnum(t[i]);
    if n < Pow10(7) {
      NatToStringLength(n, 7);
    } else {
      NatToStringLongEnough(n, 7);
    }
    if n < Pow10(30) {
      NatToStringLength(n, 30);
    } else {
      NatToStringLongEnough(n, 30);
    }
  }

  /** A tracking number is never blank. */
  lemma TrackingNumberIsRequired(trackingNo: string)
    requires ValidateTrackingNumber(trackingNo)
    ensures ValidateRequired(Str(trackingNo))
  {
    assert !IsJsWhitespace(trackingNo[0]);
  }

  /** `password.length >= 6` */
  predicate ValidatePassword(password: string) {
    |password| >= 6
  }

  /**
   * The password rule counts every character, blanks included: a text with six
   * characters after trimming passes, and so do six spaces, which the trimmed
   * length check refuses.
   */
  lemma PasswordCountsBlanks(password: string)
    ensures BuyerValidator.ValidateLength(password, 6, |password|) ==> ValidatePassword(password)
    ensures ValidatePassword("      ") && !BuyerValidator.ValidateLength("      ", 6, 6)
  {
    var blanks := "      ";
    assert forall i :: 0 <= i < |blanks| ==> IsJsWhitespace(blanks[i]);
  }

  /** The kinds of value `validateRequired` tells apart; an array by its length. */
  datatype JsValue = Null | Undefined | Str(s: string) | Arr(length: nat) | OtherValue

  /** `validateRequired`: null and undefined fail; text must be non-blank, an array non-empty; anything else passes. */
  predicate ValidateRequired(value: JsValue) {
    match value
    case Null => false
    case Undefined => false
    case Str(s) => |Trim(s)| > 0
    case Arr(n) => n > 0
    case OtherValue => true
  }

  /** On text, the portal's check is the buyer app's. */
  lemma RequiredTextAgrees(s: string)
    ensures ValidateRequired(Str(s)) <==> BuyerValidator.ValidateRequired(s)
  {
  }

  // ---------------------------------------------------------------------------
  // Files
  // ---------------------------------------------------------------------------

  /** A browser `File`: name, MIME type and size in bytes. */
  datatype File = File(name: string, mimeType: string, size: int)

  /** `validateFileSize(file, maxSizeMB = 2)` */
  predicate ValidateFileSize(file: File, maxSizeMB: Option<int>) {
    file.size <= maxSizeMB.GetOr(2) * 1024 * 1024
  }

  /** The default limit is two mebibytes. */
  lemma DefaultFileSize(file: File)
    ensures ValidateFileSize(file, None) <==> file.size <= 2097152
  {
  }

  /** A limit in mebibytes is the buyer app's byte limit times 1048576. */
  lemma FileSizeAgrees(file: File, maxSizeMB: int)
    ensures ValidateFileSize(file, Some(maxSizeMB)) <==> BuyerValidator.ValidateFileSize(file.size, maxSizeMB * 1048576)
  {
  }

  /** `name.split('.').pop()`: the text after the last dot, or the whole name without one. */
  function LastSegment(name: string): (r: string)
    ensures forall i :: 0 <= i < |r| ==> r[i] != '.'
    ensures |r| <= |name| && r == name[|name| - |r|..]
    ensures |r| < |name| ==> name[|name| - |r| - 1] == '.'
  {
    var k := LastIndex(name, IsDot);
    if k < 0 then name
    else
      var r := name[k + 1..];
      assert |name| - |r| == k + 1;
      assert forall i :: 0 <= i < |r| ==> r[i] == name[k + 1 + i] && !IsDot(name[k + 1 + i]);
      r
  }

  /** `type.split('/')[0]`: the text before the first slash, or all of it. */
  function MainType(t: string): (r: string)
    ensures StartsWith(t, r)
  {
    var k := FindIndex(t, (c: char) => c == '/');
    if k < 0 then t else t[..k]
  }

  /** How one allowed entry judges a file with extension `ext` and MIME type `mime` (both lower-cased). */
  predicate EntryMatches(ext: string, mime: string, entry: string) {
    if StartsWith(entry, ".") then ext == Lower(entry[1..])
    else if Contains(entry, "*") then StartsWith(mime, MainType(entry))
    else mime == entry || ext == entry
  }

  /** `allowedTypes.some(...)` */
  function AnyEntryMatches(ext: string, mime: string, allowed: seq<string>): (r: bool)
    ensures r <==> exists k :: 0 <= k < |allowed| && EntryMatches(ext, mime, allowed[k])
  {
    if allowed == [] then false
    else
      assert forall k :: 1 <= k < |allowed| ==> allowed[1..][k - 1] == allowed[k];
      EntryMatches(ext, mime, allowed[0]) || AnyEntryMatches(ext, mime, allowed[1..])
  }

  /**
   * `validateFileType`: the lower-cased extension and MIME type checked against
   * each allowed entry; `.ext` entries compare extensions ignoring case,
   * entries with `*` compare the start of the MIME type, others must equal the
   * MIME type or the extension.
   */
  predicate ValidateFileType(file: File, allowed: seq<string>) {
    AnyEntryMatches(Lower(LastSegment(file.name)), Lower(file.mimeType), allowed)
  }

  /** Lower-casing twice is lower-casing once. */
  lemma LowerIdempotent(s: string)
    ensures Lower(Lower(s)) == Lower(s)
  {
  }

  /**
   * A `.ext` entry accepts a file exactly when the name's text after its last
   * dot equals `ext` ignoring ASCII case, whatever the MIME type.
   */
  lemma ExtensionEntry(file: File, ext: string)
    ensures ValidateFileType(file, ["." + ext]) <==> Lower(LastSegment(file.name)) == Lower(ext)
  {
    assert ("." + ext)[1..] == ext;
    assert StartsWith("." + ext, ".");
  }

  /**
   * With a lower-case MIME type and entries that are neither `.ext` nor
   * wildcards, a type the buyer app's exact list accepts is accepted here.
   */
  lemma PlainEntriesAgree(file: File, allowed: seq<string>)
    requires Lower(file.mimeType) == file.mimeType
    requires forall k :: 0 <= k < |allowed| ==> !StartsWith(allowed[k], ".") && !Contains(allowed[k], "*")
    ensures BuyerValidator.ValidateFileType(file.mimeType, allowed) ==> ValidateFileType(file, allowed)
  {
    if file.mimeType in allowed {
      var k :| 0 <= k < |allowed| && allowed[k] == file.mimeType;
      assert EntryMatches(Lower(LastSegment(file.name)), Lower(file.mimeType), allowed[k]);
    }
  }
}
