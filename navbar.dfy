/** The site navigation bar: categories grouped under the eight main-menu
    labels, one open dropdown at a time, and the login flag and cart badge
    that follow the authentication state. */
module Navbar {
  import opened Common
  import opened CategoryTypes

  /** `mainCategoryMap`, in the order its keys are enumerated. */
  const MainCategoryLabels: seq<(string, MainCategoryType)> := [
    ("HÀNG MỚI", HangMoi),
    ("ÁO NAM", AoNam),
    ("QUẦN NAM", QuanNam),
    ("GIÀY DÉP", GiayDep),
    ("PHỤ KIỆN", PhuKien),
    ("QUÀ TẶNG", QuaTang),
    ("X-TECH", XTech),
    ("ƯU ĐÃI", UuDai)
  ]

  /** The labels alone. */
  function Labels(): (ls: seq<string>)
    ensures |ls| == |MainCategoryLabels|
    ensures forall k :: 0 <= k < |ls| ==> ls[k] == MainCategoryLabels[k].0
  {
    seq(|MainCategoryLabels|, k requires 0 <= k < |MainCategoryLabels| => MainCategoryLabels[k].0)
  }

  /** No two labels share an enum member, and no two entries share a label. */
  lemma LabelMapIsInjective()
    ensures forall i, j :: 0 <= i < j < |MainCategoryLabels| ==>
      MainCategoryLabels[i].1 != MainCategoryLabels[j].1 && MainCategoryLabels[i].0 != MainCategoryLabels[j].0
  {
  }

  /** The first entry of `entries` whose enum value is `v`: the `find` over
      the keys. */
  function FindLabel(entries: seq<(string, MainCategoryType)>, v: int): (r: Option<string>)
    ensures r.None? <==> forall k :: 0 <= k < |entries| ==> MainCategoryValue(entries[k].1) != v
    ensures r.Some? ==> exists k :: 0 <= k < |entries| && entries[k].0 == r.value && MainCategoryValue(entries[k].1) == v
                                    && forall j :: 0 <= j < k ==> MainCategoryValue(entries[j].1) != v
  {
    if |entries| == 0 then None
    else if MainCategoryValue(entries[0].1) == v then Some(entries[0].0)
    else
      var r := FindLabel(entries[1..], v);
      assert r.Some? ==> exists k :: 1 <= k < |entries| && entries[k].0 == r.value && MainCategoryValue(entries[k].1) == v
                                     && forall j :: 0 <= j < k ==> MainCategoryValue(entries[j].1) != v by {
        if r.Some? {
          var k :| 0 <= k < |entries[1..]| && entries[1..][k].0 == r.value && MainCategoryValue(entries[1..][k].1) == v
                   && forall j :: 0 <= j < k ==> MainCategoryValue(entries[1..][j].1) != v;
          assert entries[k + 1] == entries[1..][k];
          forall j | 0 <= j < k + 1 ensures MainCategoryValue(entries[j].1) != v {
            if j > 0 {
              assert entries[j] == entries[1..][j - 1];
            }
          }
        }
      }
      r
  }

  /** The label of a category's main-category number, if it has one. */
  function LabelFor(v: int): (r: Option<string>)
    ensures r.None? <==> forall k :: 0 <= k < |MainCategoryLabels| ==> MainCategoryValue(MainCategoryLabels[k].1) != v
    ensures r.Some? ==> exists k :: 0 <= k < |MainCategoryLabels| && MainCategoryLabels[k].0 == r.value && MainCategoryValue(MainCategoryLabels[k].1) == v
  {
    FindLabel(MainCategoryLabels, v)
  }

  /** The position of a member's entry in the label map. */
  function EntryOf(m: MainCategoryType): (k: nat)
    ensures k < |MainCategoryLabels| && MainCategoryLabels[k].1 == m
  {
    match m
    case HangMoi => 0
    case AoNam => 1
    case QuanNam => 2
    case GiayDep => 3
    case PhuKien => 4
    case QuaTang => 5
    case XTech => 6
    case UuDai => 7
  }

  /** Exactly the numbers 0 to 7 have a label. */
  lemma LabelForIsDefinedOnEnumValues(v: int)
    ensures LabelFor(v).Some? <==> 0 <= v < 8
  {
    if 0 <= v < 8 {
      var k := EntryOf(MainCategoryMembers[v]);
      assert MainCategoryValue(MainCategoryLabels[k].1) == v;
    } else {
      forall k | 0 <= k < |MainCategoryLabels|
        ensures MainCategoryValue(MainCategoryLabels[k].1) != v
      {
      }
    }
  }

  /** The lookup sends each member's number back to that member's own entry. */
  lemma LabelForIsInverse(m: MainCategoryType)
    ensures LabelFor(MainCategoryValue(m)) == Some(MainCategoryLabels[EntryOf(m)].0)
  {
    var r := LabelFor(MainCategoryValue(m));
    assert MainCategoryValue(MainCategoryLabels[EntryOf(m)].1) == MainCategoryValue(m);
    var j :| 0 <= j < 8 && MainCategoryLabels[j].0 == r.value && MainCategoryValue(MainCategoryLabels[j].1) == MainCategoryValue(m);
    assert MainCategoryLabels[j].1 == m;
    EntryOfIsPosition(j);
  }

  lemma EntryOfIsPosition(j: nat)
    requires j < |MainCategoryLabels|
    ensures EntryOf(MainCategoryLabels[j].1) == j
  {
  }

  /** The categories shown under `heading`, in the order they arrived. */
  function CategoriesUnder(cs: seq<Category>, heading: string): seq<Category>
  {
    if |cs| == 0 then []
    else
      CategoriesUnder(cs[..|cs| - 1], heading) + (if LabelFor(cs[|cs| - 1].mainCategory) == Some(heading) then [cs[|cs| - 1]] else [])
  }

  /** A category is shown under `heading` exactly when it is in the input and
      its number maps to `heading`; one whose number has no label is shown
      nowhere. */
  lemma {:induction false} CategoriesUnderMembership(cs: seq<Category>, heading: string, c: Category)
    ensures c in CategoriesUnder(cs, heading) <==> c in cs && LabelFor(c.mainCategory) == Some(heading)
  {
    if |cs| > 0 {
      CategoriesUnderMembership(cs[..|cs| - 1], heading, c);
      assert cs == cs[..|cs| - 1] + [cs[|cs| - 1]];
    }
  }

  lemma CategoriesUnderSnoc(cs: seq<Category>, i: nat)
    requires i < |cs|
    ensures forall l ::
      CategoriesUnder(cs[..i + 1], l) == CategoriesUnder(cs[..i], l) + (if LabelFor(cs[i].mainCategory) == Some(l) then [cs[i]] else [])
  {
    assert cs[..i + 1][..i] == cs[..i];
  }

  /** One step of the loop: open the label's group if it is missing, then
      push the category onto it. */
  method AppendToGroup(groups: map<string, seq<Category>>, heading: string, category: Category) returns (r: map<string, seq<Category>>)
    ensures r.Keys == groups.Keys + {heading}
    ensures r[heading] == (if heading in groups then groups[heading] else []) + [category]
    ensures forall l :: l in groups && l != heading ==> r[l] == groups[l]
  {
    r := groups;
    if heading !in r {
      r := r[heading := []];
    }
    r := r[heading := r[heading] + [category]];
  }

  /** `groupedCategories`: the `forEach` that appends each labelled category
      to its label's group. */
  method GroupCategories(allCategories: seq<Category>) returns (groups: map<string, seq<Category>>)
    ensures forall l :: l in groups <==> |CategoriesUnder(allCategories, l)| > 0
    ensures forall l :: l in groups ==> groups[l] == CategoriesUnder(allCategories, l)
  {
    groups := map[];
    var i := 0;
    while i < |allCategories|
      invariant 0 <= i <= |allCategories|
      invariant forall l :: l in groups <==> |CategoriesUnder(allCategories[..i], l)| > 0
      invariant forall l :: l in groups ==> groups[l] == CategoriesUnder(allCategories[..i], l)
    {
      var category := allCategories[i];
      CategoriesUnderSnoc(allCategories, i);
      var mainCategoryLabel := LabelFor(category.mainCategory);
      if mainCategoryLabel.Some? {
        groups := AppendToGroup(groups, mainCategoryLabel.value, category);
      }
      i := i + 1;
    }
    assert allCategories[..i] == allCategories;
  }

  /** A dropdown toggle: the open one closes, any other opens in its place. */
  function Toggle(open: Option<string>, heading: string): (r: Option<string>)
    ensures r.None? <==> open == Some(heading)
    ensures r.Some? ==> r.value == heading
  {
    if open == Some(heading) then None else Some(heading)
  }

  /** Toggling the same label twice restores a closed menu, and toggling a
      second label replaces the first. */
  lemma ToggleProperties(a: string, b: string)
    ensures Toggle(Toggle(None, a), a) == None
    ensures a != b ==> Toggle(Toggle(None, a), b) == Some(b)
  {
  }

  class NavbarState {
    var allCategories: seq<Category>
    var openDropdown: Option<string>
    var expandedMobileMenu: Option<string>
    var isLogin: bool
    var cartCount: int

    constructor ()
      ensures allCategories == [] && openDropdown.None? && expandedMobileMenu.None?
      ensures !isLogin && cartCount == 0
    {
      allCategories := [];
      openDropdown := None;
      expandedMobileMenu := None;
      isLogin := false;
      cartCount := 0;
    }

    /** The category fetch after its await; a failure is only logged. */
    method CompleteCategoriesFetch(result: ApiResult<seq<Category>>)
      modifies this`allCategories
      ensures result.Ok? ==> allCategories == result.value
      ensures result.Err? ==> allCategories == old(allCategories)
    {
      if result.Ok? {
        allCategories := result.value;
      }
    }

    /** The memoised grouping of the current categories. */
    method GroupedCategories() returns (groups: map<string, seq<Category>>)
      ensures forall l :: l in groups <==> |CategoriesUnder(allCategories, l)| > 0
      ensures forall l :: l in groups ==> groups[l] == CategoriesUnder(allCategories, l)
    {
      groups := GroupCategories(allCategories);
    }

    method DesktopNavToggle(heading: string)
      modifies this`openDropdown
      ensures openDropdown == Toggle(old(openDropdown), heading)
    {
      openDropdown := if openDropdown == Some(heading) then None else Some(heading);
    }

    method MobileNavToggle(heading: string)
      modifies this`expandedMobileMenu
      ensures expandedMobileMenu == Toggle(old(expandedMobileMenu), heading)
    {
      expandedMobileMenu := if expandedMobileMenu == Some(heading) then None else Some(heading);
    }

    /** A mouse press outside the bar closes the open dropdown. */
    method OutsideClick()
      modifies this`openDropdown
      ensures openDropdown.None?
    {
      openDropdown := None;
    }

    /** The two effects on a change of authentication: the login flag follows
        it, and a signed-out user's cart count drops to 0 without a request. */
    method AuthChanged(authenticated: bool) returns (requestCount: bool)
      modifies this`isLogin, this`cartCount
      ensures isLogin == authenticated
      ensures requestCount == authenticated
      ensures !authenticated ==> cartCount == 0
      ensures authenticated ==> cartCount == old(cartCount)
    {
      if !authenticated {
        cartCount := 0;
        requestCount := false;
      } else {
        requestCount := true;
      }
      isLogin := authenticated;
    }

    /** The count request after its await: a failure shows 0. */
    method CompleteCartCount(result: ApiResult<int>)
      modifies this`cartCount
      ensures result.Ok? ==> cartCount == result.value
      ensures result.Err? ==> cartCount == 0
    {
      cartCount := if result.Ok? then result.value else 0;
    }
  }

  /** Scenario: a signed-out user sees no cart count; after signing in a
      failed count request still shows 0. */
  method CartCountScenario(n: int) returns (signedOut: int, failed: int, loaded: int)
    ensures signedOut == 0 && failed == 0 && loaded == n
  {
    var nav := new NavbarState();
    var ask := nav.AuthChanged(false);
    signedOut := nav.cartCount;
    ask := nav.AuthChanged(true);
    nav.CompleteCartCount(Err(None));
    failed := nav.cartCount;
    nav.CompleteCartCount(Ok(n));
    loaded := nav.cartCount;
  }
}
