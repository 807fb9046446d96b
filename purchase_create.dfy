/**
 * The buyer app's "publish a purchase" page (src/pages/purchase/create/index.tsx):
 * the category list flattened for the picker, the date picker's handler and
 * the validation gate in front of the confirmation dialog. The page's state
 * hooks are the fields of `PurchaseCreatePage`; the toast the page shows is
 * recorded in a field instead of being displayed.
 */
module PurchaseCreate {
  import opened Wrappers
  import opened Text
  import opened PurchaseTypes
  import opened BuyerValidator
  import Format

  // ---------------------------------------------------------------------------
  // flatCategories
  // ---------------------------------------------------------------------------

  /** An entry of the category picker. */
  datatype FlatCategory = FlatCategory(id: string, name: string)

  /** Whether a category has a non-empty children array. */
  predicate HasChildren(cat: PartCategory) {
    cat.children.Some? && |cat.children.value| > 0
  }

  /** The picker label of a child: `${cat.name} / ${child.name}`. */
  function ChildLabel(cat: PartCategory, child: PartCategory): string {
    cat.name + " / " + child.name
  }

  /** What one category adds to the list: one entry per child, or else itself. */
  function Entries(cat: PartCategory): (r: seq<FlatCategory>)
    ensures |r| == if HasChildren(cat) then |cat.children.value| else 1
  {
    if HasChildren(cat) then
      seq(|cat.children.value|, j requires 0 <= j < |cat.children.value| =>
            FlatCategory(cat.children.value[j].id, ChildLabel(cat, cat.children.value[j])))
    else [FlatCategory(cat.id, cat.name)]
  }

  /** The reference list: the categories' entries one after another. */
  function Flatten(cats: seq<PartCategory>): seq<FlatCategory> {
    if cats == [] then [] else Flatten(cats[..|cats| - 1]) + Entries(cats[|cats| - 1])
  }

  /** `flatCategories`: a `reduce` that pushes each category's entries onto one accumulator. */
  method FlatCategories(categories: seq<PartCategory>) returns (acc: seq<FlatCategory>)
    ensures acc == Flatten(categories)
  {
    acc := [];
    var i := 0;
    while i < |categories|
      invariant i <= |categories|
      invariant acc == Flatten(categories[..i])
    {
      var cat := categories[i];
      assert categories[..i + 1][..i] == categories[..i];
      if cat.children.Some? && |cat.children.value| > 0 {
        var children := cat.children.value;
        var j := 0;
        while j < |children|
          invariant j <= |children|
          invariant acc == Flatten(categories[..i]) + Entries(cat)[..j]
        {
          assert Entries(cat)[..j + 1] == Entries(cat)[..j] + [FlatCategory(children[j].id, ChildLabel(cat, children[j]))];
          acc := acc + [FlatCategory(children[j].id, cat.name + " / " + children[j].name)];
          j := j + 1;
        }
        assert Entries(cat)[..j] == Entries(cat);
      } else {
        acc := acc + [FlatCategory(cat.id, cat.name)];
      }
      i := i + 1;
    }
    assert categories[..i] == categories;
  }

  /** The number of entries a category list gives: the sum of max(1, number of children). */
  function EntryCount(cats: seq<PartCategory>): nat {
    if cats == [] then 0
    else EntryCount(cats[..|cats| - 1]) + (if HasChildren(cats[|cats| - 1]) then |cats[|cats| - 1].children.value| else 1)
  }

  lemma {:induction false} FlattenLength(cats: seq<PartCategory>)
    ensures |Flatten(cats)| == EntryCount(cats)
  {
    if cats != [] {
      FlattenLength(cats[..|cats| - 1]);
    }
  }

  /** The list follows the input's order: the entries of a concatenation are the concatenation of the entries. */
  lemma {:induction false} FlattenAppend(a: seq<PartCategory>, b: seq<PartCategory>)
    ensures Flatten(a + b) == Flatten(a) + Flatten(b)
    decreases |b|
  {
    if b == [] {
      assert a + b == a;
    } else {
      var init, last := b[..|b| - 1], b[|b| - 1];
      assert (a + b)[..|a + b| - 1] == a + init && (a + b)[|a + b| - 1] == last;
      assert Flatten(a + b) == Flatten(a + init) + Entries(last);
      FlattenAppend(a, init);
      assert Flatten(b) == Flatten(init) + Entries(last);
      var fa, fi, fl := Flatten(a), Flatten(init), Entries(last);
      assert (fa + fi) + fl == fa + (fi + fl);
    }
  }

  /**
   * Where an entry comes from: either a category without children, as it is,
   * or a direct child of a category that has children, labelled with both
   * names. Nothing below a child is ever listed.
   */
  predicate FromCategory(cats: seq<PartCategory>, e: FlatCategory) {
    exists i :: 0 <= i < |cats| && FromOne(cats[i], e)
  }

  predicate FromOne(cat: PartCategory, e: FlatCategory) {
    if HasChildren(cat) then
      exists j :: 0 <= j < |cat.children.value| && e == FlatCategory(cat.children.value[j].id, ChildLabel(cat, cat.children.value[j]))
    else e == FlatCategory(cat.id, cat.name)
  }

  lemma EntriesFromOne(cat: PartCategory, k: int)
    requires 0 <= k < |Entries(cat)|
    ensures FromOne(cat, Entries(cat)[k])
  {
  }

  lemma {:induction false} FlattenEntriesOrigin(cats: seq<PartCategory>)
    ensures forall k :: 0 <= k < |Flatten(cats)| ==> FromCategory(cats, Flatten(cats)[k])
  {
    if cats != [] {
      var init, last := cats[..|cats| - 1], cats[|cats| - 1];
      FlattenEntriesOrigin(init);
      forall k | 0 <= k < |Flatten(cats)|
        ensures FromCategory(cats, Flatten(cats)[k])
      {
        if k < |Flatten(init)| {
          var i :| 0 <= i < |init| && FromOne(init[i], Flatten(init)[k]);
          assert cats[i] == init[i];
        } else {
          EntriesFromOne(last, k - |Flatten(init)|);
          assert FromOne(cats[|cats| - 1], Flatten(cats)[k]);
        }
      }
    }
  }

  /** A category with children contributes its children in order, labelled "parent / child". */
  lemma ChildrenInOrder(cat: PartCategory)
    requires HasChildren(cat)
    ensures Flatten([cat]) == Entries(cat)
    ensures forall j :: 0 <= j < |cat.children.value| ==>
              Flatten([cat])[j] == FlatCategory(cat.children.value[j].id, cat.name + " / " + cat.children.value[j].name)
  {
    assert [cat][..0] == [];
  }

  /** A category without children, or with an empty array, contributes itself. */
  lemma LeafListsItself(cat: PartCategory)
    requires cat.children.None? || cat.children.value == []
    ensures Flatten([cat]) == [FlatCategory(cat.id, cat.name)]
  {
    assert [cat][..0] == [];
  }

  // ---------------------------------------------------------------------------
  // The form, the date picker and the submit gate
  // ---------------------------------------------------------------------------

  /** `FormData`: every field is the text of an input. */
  datatype FormData = FormData(
    categoryId: string,
    categoryName: string,
    brandId: string,
    brandName: string,
    partName: string,
    specification: string,
    quantity: string,
    budget: string,
    description: string,
    expectedArrivalTime: string,
    quoteDeadline: string)

  /** `initialFormData` */
  const InitialForm := FormData("", "", "", "", "", "", "", "", "", "", "")

  /** Which date the open picker sets. */
  datatype DatePicker = Arrival | Deadline

  /** The time stored for a picked date: `${date} 12:00`. */
  function AtNoon(date: string): (r: string)
    ensures StartsWith(r, date) && r[|date|..] == " 12:00"
  {
    date + " 12:00"
  }

  /**
   * `parseInt(s) || 0`: leading white space skipped, an optional sign, then
   * the decimal digits up to the first other character; no digits is `NaN`,
   * which becomes 0.
   */
  function ParseIntOrZero(s: string): int {
    var t := TrimStart(s);
    var negative := t != [] && t[0] == '-';
    var rest := if t != [] && (t[0] == '-' || t[0] == '+') then t[1..] else t;
    if Format.LeadingDigits(rest) == 0 then 0
    else if negative then -(Format.ReadNumber(rest) as int)
    else Format.ReadNumber(rest)
  }

  /** Reading back the text of an integer gives the integer. */
  lemma ParseIntRoundTrip(n: int)
    ensures ParseIntOrZero(IntToString(n)) == n
  {
    var m: nat := if n < 0 then -n else n;
    var a, s := NatToString(m), IntToString(n);
    Format.ReadNumberOf(m, []);
    assert a + [] == a;
    NoLeadingBlank(s);
    if n < 0 {
      assert s == "-" + a && s[1..] == a;
    } else {
      assert s == a && IsDigit(a[0]);
    }
  }

  /** The text of an integer starts with a sign or a digit, so `parseInt` skips nothing. */
  lemma NoLeadingBlank(s: string)
    requires s != [] && (s[0] == '-' || IsDigit(s[0]))
    ensures TrimStart(s) == s
  {
    assert !IsJsWhitespace(s[0]);
  }

  /** A text whose first non-blank characters are not an optionally signed digit reads as 0. */
  lemma NonNumericReadsZero(s: string)
    requires var t := TrimStart(s);
             var rest := if t != [] && (t[0] == '-' || t[0] == '+') then t[1..] else t;
             rest == [] || !IsDigit(rest[0])
    ensures ParseIntOrZero(s) == 0
  {
  }

  /** The fields `handleSubmit` hands to `validatePurchaseForm`; the budget comes already parsed. */
  function SubmittedForm(form: FormData, budget: int): (r: PurchaseForm)
    ensures r.quantity == ParseIntOrZero(form.quantity) && r.budget == budget
    ensures r.categoryId == form.categoryId && r.partName == form.partName
    ensures r.expectedArrivalTime == form.expectedArrivalTime && r.quoteDeadline == form.quoteDeadline
  {
    PurchaseForm(form.categoryId, form.partName, ParseIntOrZero(form.quantity), budget,
                 form.expectedArrivalTime, form.quoteDeadline)
  }

  /** What `handleSubmit` asks `validatePurchaseForm` about the form. */
  function Gate(form: FormData, budget: int, parse: string -> Option<int>): ValidationResult {
    ValidatePurchaseForm(SubmittedForm(form, budget), parse)
  }

  /** A quantity that does not read as a positive integer never passes the gate. */
  lemma NonPositiveQuantityRejected(form: FormData, budget: int, parse: string -> Option<int>)
    requires ParseIntOrZero(form.quantity) <= 0
    ensures !Gate(form, budget, parse).valid
  {
    ValidFormMeans(SubmittedForm(form, budget), parse);
  }

  class PurchaseCreatePage {
    var formData: FormData
    var showDatePicker: Option<DatePicker>
    var showConfirmModal: bool
    var toast: Option<string>

    constructor ()
      ensures formData == InitialForm && showDatePicker.None? && !showConfirmModal && toast.None?
    {
      formData, showDatePicker, showConfirmModal, toast := InitialForm, None, false, None;
    }

    /** Tapping a date field opens the picker for it. */
    method OpenDatePicker(kind: DatePicker)
      modifies this
      ensures showDatePicker == Some(kind)
      ensures formData == old(formData) && showConfirmModal == old(showConfirmModal) && toast == old(toast)
    {
      showDatePicker := Some(kind);
    }

    /**
     * `handleDateSelect`: the picked date at noon goes to the expected arrival
     * when the arrival picker is open, and to the quote deadline otherwise
     * (also when no picker is recorded as open); the picker then closes.
     */
    method HandleDateSelect(date: string)
      modifies this
      ensures old(showDatePicker) == Some(Arrival) ==> formData == old(formData).(expectedArrivalTime := AtNoon(date))
      ensures old(showDatePicker) != Some(Arrival) ==> formData == old(formData).(quoteDeadline := AtNoon(date))
      ensures showDatePicker.None?
      ensures showConfirmModal == old(showConfirmModal) && toast == old(toast)
    {
      var timeStr := date + " 12:00";
      if showDatePicker == Some(Arrival) {
        formData := formData.(expectedArrivalTime := timeStr);
      } else {
        formData := formData.(quoteDeadline := timeStr);
      }
      showDatePicker := None;
    }

    /**
     * `handleSubmit`: the form is validated with the quantity read by
     * `parseInt(...) || 0`; a failure shows its message and leaves the dialog
     * as it was, a pass opens the confirmation dialog.
     */
    method HandleSubmit(budget: int, parse: string -> Option<int>)
      modifies this
      ensures Gate(old(formData), budget, parse).valid ==> showConfirmModal && toast == old(toast)
      ensures !Gate(old(formData), budget, parse).valid ==>
                showConfirmModal == old(showConfirmModal) && toast == Some(Gate(old(formData), budget, parse).message)
      ensures formData == old(formData) && showDatePicker == old(showDatePicker)
    {
      var validation := Gate(formData, budget, parse);
      if validation.valid {
        showConfirmModal := true;
      } else {
        toast := Some(validation.message);
      }
    }
  }

  /**
   * Picking the arrival date and then the deadline on a fresh page fills both
   * fields at noon and leaves every other field empty; submitting without a
   * category then shows the category message and no dialog.
   */
  method PickDatesThenSubmit(arrival: string, deadline: string, budget: int, parse: string -> Option<int>)
    returns (form: FormData, dialogOpen: bool, message: Option<string>)
    ensures form == InitialForm.(expectedArrivalTime := AtNoon(arrival), quoteDeadline := AtNoon(deadline))
    ensures !dialogOpen && message == Some(CategoryMessage)
  {
    var page := new PurchaseCreatePage();
    page.OpenDatePicker(Arrival);
    page.HandleDateSelect(arrival);
    page.OpenDatePicker(Deadline);
    page.HandleDateSelect(deadline);
    page.HandleSubmit(budget, parse);
    form, dialogOpen, message := page.formData, page.showConfirmModal, page.toast;
  }
}
