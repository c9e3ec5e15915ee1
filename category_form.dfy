/** The category editor: a name and a main category, initialised from the
    category being edited, a select whose options come from the numeric
    `MainCategoryType` enum object, and a submit that needs a name. */
module CategoryForm {
  import opened Common
  import opened CategoryTypes

  const NameRequiredAlert: string := "Vui lòng nhập tên danh mục"

  // ---------------------------------------------------------------------
  // The enum object and the option list
  // ---------------------------------------------------------------------

  /** A property value of the compiled enum object: a numeric enum maps each
      name to its number and each number back to its name. */
  datatype EnumValue = NumberValue(n: nat) | NameValue(name: string)

  datatype EnumEntry = EnumEntry(key: string, value: EnumValue)

  /** `Object.entries(MainCategoryType)`: the integer keys first in ascending
      order, then the names in declaration order. */
  function EnumObjectEntries(): (es: seq<EnumEntry>)
    ensures |es| == 2 * |MainCategoryMembers|
  {
    seq(|MainCategoryMembers|, k requires 0 <= k < |MainCategoryMembers| =>
      EnumEntry(NatToString(k), NameValue(MainCategoryName(MainCategoryMembers[k]))))
    + seq(|MainCategoryMembers|, k requires 0 <= k < |MainCategoryMembers| =>
      EnumEntry(MainCategoryName(MainCategoryMembers[k]), NumberValue(k)))
  }

  /** `!isNaN(Number(key))` for the keys of the enum object: exactly the
      decimal numerals. */
  predicate IsNumericKey(key: string)
  {
    IsDigits(key)
  }

  /** `String(value)`. */
  function ValueText(v: EnumValue): string
  {
    match v
    case NumberValue(n) => NatToString(n)
    case NameValue(s) => s
  }

  /** A select option: the text shown and the value it carries. */
  datatype SelectOption = SelectOption(text: string, value: string)

  /** The `filter` on non-numeric keys, then the `map` to options. */
  function OptionsOf(es: seq<EnumEntry>): seq<SelectOption>
  {
    if |es| == 0 then []
    else
      OptionsOf(es[..|es| - 1])
      + (if IsNumericKey(es[|es| - 1].key) then [] else [SelectOption(es[|es| - 1].key, ValueText(es[|es| - 1].value))])
  }

  function MainCategoryOptions(): seq<SelectOption>
  {
    OptionsOf(EnumObjectEntries())
  }

  /** The option list the form intends: one per enum member, in declaration
      order, showing its name and carrying its number. */
  function MemberOptions(): (os: seq<SelectOption>)
    ensures |os| == |MainCategoryMembers|
    ensures forall k :: 0 <= k < |os| ==> os[k] == SelectOption(MainCategoryName(MainCategoryMembers[k]), NatToString(k))
  {
    seq(|MainCategoryMembers|, k requires 0 <= k < |MainCategoryMembers| =>
      SelectOption(MainCategoryName(MainCategoryMembers[k]), NatToString(k)))
  }

  lemma OptionsOfConcat(a: seq<EnumEntry>, b: seq<EnumEntry>)
    ensures OptionsOf(a + b) == OptionsOf(a) + OptionsOf(b)
  {
    if |b| > 0 {
      OptionsOfConcat(a, b[..|b| - 1]);
      assert (a + b)[..|a + b| - 1] == a + b[..|b| - 1];
    } else {
      assert a + b == a;
    }
  }

  lemma {:induction false} NumericKeysGiveNoOptions(es: seq<EnumEntry>)
    requires forall k :: 0 <= k < |es| ==> IsNumericKey(es[k].key)
    ensures OptionsOf(es) == []
  {
    if |es| > 0 {
      NumericKeysGiveNoOptions(es[..|es| - 1]);
    }
  }

  lemma {:induction false} NameKeysGiveOneOptionEach(es: seq<EnumEntry>)
    requires forall k :: 0 <= k < |es| ==> !IsNumericKey(es[k].key)
    ensures |OptionsOf(es)| == |es|
    ensures forall k :: 0 <= k < |es| ==> OptionsOf(es)[k] == SelectOption(es[k].key, ValueText(es[k].value))
  {
    if |es| > 0 {
      NameKeysGiveOneOptionEach(es[..|es| - 1]);
    }
  }

  /** No member's name is a numeral. */
  lemma NamesAreNotNumeric(m: MainCategoryType)
    ensures !IsNumericKey(MainCategoryName(m))
  {
    assert !IsDigit(MainCategoryName(m)[0]);
  }

  /** Filtering out the numeric keys leaves exactly one option per member:
      the reverse mappings of the numeric enum never reach the list. */
  lemma OptionsAreTheMembers()
    ensures MainCategoryOptions() == MemberOptions()
  {
    var n := |MainCategoryMembers|;
    var es := EnumObjectEntries();
    assert es == es[..n] + es[n..];
    OptionsOfConcat(es[..n], es[n..]);
    NumericKeysGiveNoOptions(es[..n]);
    forall k | 0 <= k < n
      ensures !IsNumericKey(es[n..][k].key)
    {
      NamesAreNotNumeric(MainCategoryMembers[k]);
    }
    NameKeysGiveOneOptionEach(es[n..]);
  }

  lemma MainCategoryNameInjective(a: MainCategoryType, b: MainCategoryType)
    ensures MainCategoryName(a) == MainCategoryName(b) ==> a == b
  {
    if a != b {
      assert MainCategoryName(a)[..2] != MainCategoryName(b)[..2] || MainCategoryName(a)[2..] != MainCategoryName(b)[2..];
    }
  }

  /** Every member has exactly one option; choosing it stores the member's
      number, because `Number(String(n)) == n`. */
  lemma OptionForMember(m: MainCategoryType)
    ensures exists k :: 0 <= k < |MainCategoryOptions()| && MainCategoryOptions()[k].text == MainCategoryName(m)
    ensures forall k :: 0 <= k < |MainCategoryOptions()| && MainCategoryOptions()[k].text == MainCategoryName(m) ==>
      k == MainCategoryValue(m) && IsDigits(MainCategoryOptions()[k].value) && DigitsValue(MainCategoryOptions()[k].value) == MainCategoryValue(m)
  {
    OptionsAreTheMembers();
    var os := MainCategoryOptions();
    assert os[MainCategoryValue(m)].text == MainCategoryName(m);
    forall k | 0 <= k < |os| && os[k].text == MainCategoryName(m)
      ensures k == MainCategoryValue(m) && DigitsValue(os[k].value) == MainCategoryValue(m)
    {
      MainCategoryNameInjective(MainCategoryMembers[k], m);
      NatToStringRoundTrip(k);
    }
  }

  // ---------------------------------------------------------------------
  // The form state
  // ---------------------------------------------------------------------

  /** What `onSubmit` receives. */
  datatype CategorySubmission = CategorySubmission(name: string, mainCategory: int)

  class CategoryFormState {
    var name: string
    var mainCategory: int

    /** The initial state: the edited category's name when it has one, and
        its main category even when that is 0; a new category starts on
        `AoNam`. */
    constructor (initialData: Option<Category>)
      ensures initialData.Some? && initialData.value.name != "" ==> name == initialData.value.name
      ensures initialData.None? || initialData.value.name == "" ==> name == ""
      ensures initialData.Some? ==> mainCategory == initialData.value.mainCategory
      ensures initialData.None? ==> mainCategory == MainCategoryValue(AoNam)
    {
      name := if initialData.Some? && initialData.value.name != "" then initialData.value.name else "";
      mainCategory := if initialData.Some? then initialData.value.mainCategory else MainCategoryValue(AoNam);
    }

    method EditName(value: string)
      modifies this`name
      ensures name == value
    {
      name := value;
    }

    /** The select's change handler: `Number(value)` of an option value. */
    method SelectMainCategory(value: string)
      requires IsDigits(value)
      modifies this`mainCategory
      ensures mainCategory == DigitsValue(value)
    {
      mainCategory := DigitsValue(value);
    }

    /** `handleSubmit`: an empty name alerts and sends nothing; otherwise
        exactly the name and main category are passed on. */
    method Submit() returns (submitted: Option<CategorySubmission>, alertText: Option<string>)
      ensures submitted.Some? <==> name != ""
      ensures submitted.Some? ==> submitted.value == CategorySubmission(name, mainCategory) && alertText.None?
      ensures submitted.None? ==> alertText == Some(NameRequiredAlert)
    {
      if name == "" {
        return None, Some(NameRequiredAlert);
      }
      return Some(CategorySubmission(name, mainCategory)), None;
    }
  }

  /** Scenario: editing a category whose main category is `AoNam` (0) keeps
      0, and choosing the `UuDai` option then submits 7. */
  method EditScenario(c: Category) returns (initial: int, submitted: Option<CategorySubmission>)
    requires c.name != "" && c.mainCategory == 0
    ensures initial == 0
    ensures submitted == Some(CategorySubmission(c.name, MainCategoryValue(UuDai)))
  {
    var form := new CategoryFormState(Some(c));
    initial := form.mainCategory;
    OptionsAreTheMembers();
    var option := MainCategoryOptions()[MainCategoryValue(UuDai)];
    NatToStringRoundTrip(MainCategoryValue(UuDai));
    form.SelectMainCategory(option.value);
    var alertText;
    submitted, alertText := form.Submit();
  }
}
