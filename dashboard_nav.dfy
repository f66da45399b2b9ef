/** The dashboard header: the avatar's initials taken from the full name, and
    the navigation items, at most one of which is active for a path. */
module DashboardNav {
  import opened Strings
  import opened Translations
  import LanguageContext

  /** The first character of each piece, where the first character of "" is undefined
      and joins as nothing. */
  function FirstChars(pieces: seq<string>): string {
    if pieces == [] then ""
    else (if pieces[0] == "" then "" else [pieces[0][0]]) + FirstChars(pieces[1..])
  }

  /** The avatar initials: the first character of every space-separated
      piece of the full name, joined and upper-cased. */
  function Initials(fullName: string): string {
    ToUpper(FirstChars(Split(fullName, ' ')))
  }

  /** The positions of the non-empty pieces, in order. */
  function NonEmptyPositions(pieces: seq<string>): (r: seq<nat>)
    ensures |r| <= |pieces|
    ensures forall k :: 0 <= k < |r| ==> r[k] < |pieces| && pieces[r[k]] != ""
    ensures forall k, l :: 0 <= k < l < |r| ==> r[k] < r[l]
  {
    if pieces == [] then []
    else
      var rest := NonEmptyPositions(pieces[1..]);
      var shifted := Shifted(rest);
      assert forall k :: 0 <= k < |shifted| ==> shifted[k] == rest[k] + 1 && pieces[shifted[k]] == pieces[1..][rest[k]];
      assert forall k, l :: 0 <= k < l < |shifted| ==> shifted[k] < shifted[l];
      if pieces[0] == "" then shifted else [0] + shifted
  }

  /** A position is listed exactly when it holds a non-empty piece. */
  lemma {:induction false} NonEmptyPositionsExact(pieces: seq<string>, j: nat)
    ensures j in NonEmptyPositions(pieces) <==> j < |pieces| && pieces[j] != ""
  {
    if j in NonEmptyPositions(pieces) {
      var k :| 0 <= k < |NonEmptyPositions(pieces)| && NonEmptyPositions(pieces)[k] == j;
    }
    if j < |pieces| && pieces[j] != "" && j > 0 {
      assert pieces[1..][j - 1] == pieces[j];
      NonEmptyPositionsExact(pieces[1..], j - 1);
      var rest := NonEmptyPositions(pieces[1..]);
      var k :| 0 <= k < |rest| && rest[k] == j - 1;
      assert Shifted(rest)[k] == j;
    }
  }

  /** Every position one further on. */
  function Shifted(positions: seq<nat>): seq<nat> {
    seq(|positions|, k requires 0 <= k < |positions| => positions[k] + 1)
  }

  /** Each initial is the first character of a non-empty piece, in the
      order of the pieces, and every non-empty piece gives one. */
  lemma {:induction false} FirstCharsInOrder(pieces: seq<string>)
    ensures |FirstChars(pieces)| == |NonEmptyPositions(pieces)|
    ensures forall k :: 0 <= k < |FirstChars(pieces)| ==>
      FirstChars(pieces)[k] == pieces[NonEmptyPositions(pieces)[k]][0]
  {
    if pieces != [] {
      FirstCharsInOrder(pieces[1..]);
      var rest := NonEmptyPositions(pieces[1..]);
      var tail := FirstChars(pieces[1..]);
      var shifted := Shifted(rest);
      forall k | 0 <= k < |tail| ensures tail[k] == pieces[shifted[k]][0] {
        assert pieces[1..][rest[k]] == pieces[rest[k] + 1];
      }
      if pieces[0] == "" {
        assert FirstChars(pieces) == tail;
        assert NonEmptyPositions(pieces) == shifted;
      } else {
        var r := [pieces[0][0]] + tail;
        assert FirstChars(pieces) == r;
        assert NonEmptyPositions(pieces) == [0] + shifted;
        forall k | 0 < k < |r| ensures r[k] == pieces[([0] + shifted)[k]][0] {
          assert r[k] == tail[k - 1];
        }
      }
    }
  }

  /** The initials: one upper-cased character per non-empty piece of the
      name, in order, so never more than the pieces, and none for "". */
  lemma InitialsSpec(fullName: string)
    ensures var pieces := Split(fullName, ' ');
      && |Initials(fullName)| == |NonEmptyPositions(pieces)| <= |pieces|
      && forall k :: 0 <= k < |Initials(fullName)| ==>
           Initials(fullName)[k] == UpperChar(pieces[NonEmptyPositions(pieces)[k]][0])
    ensures Initials("") == ""
  {
    FirstCharsInOrder(Split(fullName, ' '));
  }

  lemma SplitJohnDoe()
    ensures Split("John Doe", ' ') == ["John", "Doe"]
  {
    SplitWithoutSeparator("Doe", ' ');
    SplitAtFirst("John", ' ', "Doe");
    assert "John" + [' '] + "Doe" == "John Doe";
  }

  lemma JohnDoe()
    ensures Initials("John Doe") == "JD"
  {
    SplitJohnDoe();
    assert FirstChars(["John", "Doe"]) == "JD";
  }

  /** A navigation item: its path and the key of its label. */
  datatype NavItem = NavItem(href: string, labelKey: string)

  const NavItems := [
    NavItem("/dashboard", "dashboard"),
    NavItem("/dashboard/health-records", "health_records"),
    NavItem("/dashboard/reports", "reports"),
    NavItem("/dashboard/articles", "articles"),
    NavItem("/dashboard/health-progress", "health_progress"),
    NavItem("/dashboard/health-alerts", "health_alerts"),
    NavItem("/dashboard/chatbot", "chatbot")
  ]

  /** An item is highlighted when the path equals its link exactly. */
  predicate IsActive(pathname: string, item: NavItem) {
    pathname == item.href
  }

  /** The label shown: `t(labelKey)` in the current language. */
  function Label(item: NavItem, lang: Language): string {
    Resolve(item.labelKey, LanguageContext.ContextTable(lang))
  }

  lemma HrefsDistinct()
    ensures forall i, j :: 0 <= i < j < |NavItems| ==> NavItems[i].href != NavItems[j].href
  {
  }

  /** The hrefs are distinct, so no path activates two items. */
  lemma AtMostOneActive(pathname: string)
    ensures forall i, j ::
      (0 <= i < |NavItems| && 0 <= j < |NavItems| && IsActive(pathname, NavItems[i]) && IsActive(pathname, NavItems[j]))
      ==> i == j
  {
    HrefsDistinct();
  }

  /** Activity is exact: a sub-path activates its own item and not the
      dashboard item. */
  lemma ExactPathOnly()
    ensures !IsActive("/dashboard/reports", NavItems[0]) && IsActive("/dashboard/reports", NavItems[2])
  {
  }

  /** Every label key is an undotted key of the provider's tables, so each
      label is that table's string in the current language. */
  lemma LabelsTranslate(lang: Language)
    ensures forall i :: 0 <= i < |NavItems| ==>
      NavItems[i].labelKey in LanguageContext.ContextTable(lang)
      && Label(NavItems[i], lang) == LanguageContext.ContextTable(lang)[NavItems[i].labelKey]
  {
    NavKeysUndotted();
    NavKeysInTables(lang);
    forall i | 0 <= i < |NavItems|
      ensures Label(NavItems[i], lang) == LanguageContext.ContextTable(lang)[NavItems[i].labelKey]
    {
      LanguageContext.TranslatesTableKeys(NavItems[i].labelKey, lang);
    }
  }

  lemma NavKeysUndotted()
    ensures forall i :: 0 <= i < |NavItems| ==> '.' !in NavItems[i].labelKey
  {
  }

  lemma NavKeysInTables(lang: Language)
    ensures forall i :: 0 <= i < |NavItems| ==> NavItems[i].labelKey in LanguageContext.ContextTable(lang)
  {
  }
}
