/**
 * The public preview page: which mode it opens in, when it offers the
 * web2/web3 toggle, which layout it renders, and how it follows the
 * editor's saves through `localStorage`.
 */
module PreviewPage {
  import opened Wrappers
  import opened ProfileTypes
  import ProfileContext
  import DefaultProfile
  import ProfileInvariants
  import KeyedLists

  /** The mode is on display according to the display settings. */
  predicate Shown(showWeb2: bool, showWeb3: bool, mode: ProfileMode) {
    match mode
    case Web2 => showWeb2
    case Web3 => showWeb3
  }

  /**
   * The mode chosen on load: the default view (web2 when it is absent),
   * unless that mode is hidden and the other one is shown.
   */
  function ChooseMode(showWeb2: bool, showWeb3: bool, defaultView: Option<ProfileMode>): (m: ProfileMode)
    ensures var start := defaultView.GetOr(Web2);
            m == (if !Shown(showWeb2, showWeb3, start) && Shown(showWeb2, showWeb3, Other(start))
                  then Other(start) else start)
  {
    var start := defaultView.GetOr(Web2);
    if start == Web2 && !showWeb2 && showWeb3 then Web3
    else if start == Web3 && !showWeb3 && showWeb2 then Web2
    else start
  }

  /** Whenever some mode is shown, the chosen mode is a shown one. */
  lemma ChosenModeIsShown(showWeb2: bool, showWeb3: bool, defaultView: Option<ProfileMode>)
    requires showWeb2 || showWeb3
    ensures Shown(showWeb2, showWeb3, ChooseMode(showWeb2, showWeb3, defaultView))
  {
    var start := defaultView.GetOr(Web2);
    if !Shown(showWeb2, showWeb3, start) {
      assert Shown(showWeb2, showWeb3, Other(start)) by {
        match start
        case Web2 => assert showWeb3;
        case Web3 => assert showWeb2;
      }
    }
  }

  /** The default view is kept exactly when it is shown or the other mode is hidden too. */
  lemma DefaultKeptUnlessHidden(showWeb2: bool, showWeb3: bool, defaultView: Option<ProfileMode>)
    ensures var start := defaultView.GetOr(Web2);
            ChooseMode(showWeb2, showWeb3, defaultView) == start <==>
              Shown(showWeb2, showWeb3, start) || !Shown(showWeb2, showWeb3, Other(start))
  {
    var start := defaultView.GetOr(Web2);
    assert Other(start) != start by {
      match start
      case Web2 =>
      case Web3 =>
    }
  }

  /** `showToggle`: the web2/web3 switch is offered only when both modes are shown. */
  function ShowToggle(ds: DisplaySettings): (r: bool)
    ensures r <==> forall m: ProfileMode :: Shown(ds.showWeb2, ds.showWeb3, m)
  {
    assert Shown(ds.showWeb2, ds.showWeb3, Web2) == ds.showWeb2;
    assert Shown(ds.showWeb2, ds.showWeb3, Web3) == ds.showWeb3;
    ds.showWeb2 && ds.showWeb3
  }

  /** With the toggle on offer, the page opens on the default view. */
  lemma ToggleMeansDefaultView(ds: DisplaySettings)
    requires ShowToggle(ds)
    ensures ChooseMode(ds.showWeb2, ds.showWeb3, Some(ds.defaultView)) == ds.defaultView
  {
    assert Shown(ds.showWeb2, ds.showWeb3, ds.defaultView);
  }

  datatype Layout = LeftSide | RightSide | DefaultLayout

  /**
   * The layout rendered for a `layoutType` value: a missing or empty one
   * means `'default'`, and any unknown name falls to the default layout.
   */
  function LayoutFor(layoutType: Option<string>): (r: Layout)
    ensures r == LeftSide <==> layoutType == Some("left-side")
    ensures r == RightSide <==> layoutType == Some("right-side")
    ensures layoutType.None? || layoutType == Some("") ==> r == DefaultLayout
  {
    var name := if layoutType.None? || layoutType.value == "" then "default" else layoutType.value;
    if name == "left-side" then LeftSide
    else if name == "right-side" then RightSide
    else DefaultLayout
  }

  /** Each element's order is at most the order of every later one. */
  ghost predicate SortedByOrder<T>(s: seq<T>, orderOf: T -> int) {
    forall i, j :: 0 <= i < j < |s| ==> orderOf(s[i]) <= orderOf(s[j])
  }

  /** Put `x` in front of the first element whose order is not below its own. */
  function InsertByOrder<T>(x: T, s: seq<T>, orderOf: T -> int): (r: seq<T>)
    requires SortedByOrder(s, orderOf)
    ensures SortedByOrder(r, orderOf)
    ensures multiset(r) == multiset(s) + multiset{x}
  {
    if s == [] || orderOf(x) <= orderOf(s[0]) then [x] + s
    else
      var rest := InsertByOrder(x, s[1..], orderOf);
      assert s == [s[0]] + s[1..];
      forall k | 0 <= k < |rest|
        ensures orderOf(s[0]) <= orderOf(rest[k])
      {
        assert rest[k] in multiset(rest);
        if rest[k] != x {
          assert rest[k] in multiset(s[1..]);
        }
      }
      [s[0]] + rest
  }

  /** The elements whose order is `k`, in list order. */
  function WithOrder<T>(s: seq<T>, orderOf: T -> int, k: int): (r: seq<T>)
    ensures forall i :: 0 <= i < |r| ==> orderOf(r[i]) == k
  {
    if s == [] then []
    else (if orderOf(s[0]) == k then [s[0]] else []) + WithOrder(s[1..], orderOf, k)
  }

  /**
   * The outcome of a stable sort of `s`: in order, the same elements, and
   * elements of equal order in the relative order they had in `s`.
   */
  ghost predicate StableSortOf<T>(r: seq<T>, s: seq<T>, orderOf: T -> int) {
    && SortedByOrder(r, orderOf)
    && multiset(r) == multiset(s)
    && forall k :: WithOrder(r, orderOf, k) == WithOrder(s, orderOf, k)
  }

  /**
   * `slice().sort((a, b) => a.order - b.order)`: a sort by `order`, stable
   * like the sort built into the language (`SortIsStable`).
   */
  function SortByOrder<T>(s: seq<T>, orderOf: T -> int): (r: seq<T>)
    ensures SortedByOrder(r, orderOf)
    ensures multiset(r) == multiset(s)
  {
    if s == [] then []
    else
      assert s == [s[0]] + s[1..];
      InsertByOrder(s[0], SortByOrder(s[1..], orderOf), orderOf)
  }

  /** `WithOrder` on a list with a known head. */
  lemma WithOrderOfCons<T>(y: T, t: seq<T>, orderOf: T -> int, k: int)
    ensures WithOrder([y] + t, orderOf, k) == (if orderOf(y) == k then [y] else []) + WithOrder(t, orderOf, k)
  {
    assert ([y] + t)[1..] == t;
  }

  /** Inserting `x` puts it ahead of every element of equal order. */
  lemma {:induction false} InsertGoesFirstAmongEquals<T>(x: T, s: seq<T>, orderOf: T -> int, k: int)
    requires SortedByOrder(s, orderOf)
    ensures WithOrder(InsertByOrder(x, s, orderOf), orderOf, k) ==
            (if orderOf(x) == k then [x] else []) + WithOrder(s, orderOf, k)
  {
    var hx := if orderOf(x) == k then [x] else [];
    if s == [] || orderOf(x) <= orderOf(s[0]) {
      WithOrderOfCons(x, s, orderOf, k);
    } else {
      var rest := InsertByOrder(x, s[1..], orderOf);
      var h0 := if orderOf(s[0]) == k then [s[0]] else [];
      assert SortedByOrder(s[1..], orderOf) by {
        forall i, j | 0 <= i < j < |s[1..]| ensures orderOf(s[1..][i]) <= orderOf(s[1..][j]) {
          assert s[1..][i] == s[i + 1] && s[1..][j] == s[j + 1];
        }
      }
      InsertGoesFirstAmongEquals(x, s[1..], orderOf, k);
      WithOrderOfCons(s[0], rest, orderOf, k);
      assert h0 == [] || hx == [];
    }
  }

  /** `SortByOrder` is a stable sort. */
  lemma {:induction false} SortIsStable<T>(s: seq<T>, orderOf: T -> int)
    ensures StableSortOf(SortByOrder(s, orderOf), s, orderOf)
  {
    forall k ensures WithOrder(SortByOrder(s, orderOf), orderOf, k) == WithOrder(s, orderOf, k) {
      SortKeepsEqualOrders(s, orderOf, k);
    }
  }

  /** Sorting keeps the elements of order `k` in their relative order. */
  lemma {:induction false} SortKeepsEqualOrders<T>(s: seq<T>, orderOf: T -> int, k: int)
    ensures WithOrder(SortByOrder(s, orderOf), orderOf, k) == WithOrder(s, orderOf, k)
  {
    if s != [] {
      SortKeepsEqualOrders(s[1..], orderOf, k);
      InsertGoesFirstAmongEquals(s[0], SortByOrder(s[1..], orderOf), orderOf, k);
    }
  }

  /** Sorting a list already in order changes nothing, equal orders included. */
  lemma {:induction false} SortKeepsSortedList<T>(s: seq<T>, orderOf: T -> int)
    requires SortedByOrder(s, orderOf)
    ensures SortByOrder(s, orderOf) == s
  {
    if s != [] {
      SortKeepsSortedList(s[1..], orderOf);
      assert s == [s[0]] + s[1..];
    }
  }

  /** Orders that are list positions are in order, so the page shows the stored order. */
  lemma PositionsAreRenderedInPlace<T>(s: seq<T>, orderOf: T -> int)
    requires KeyedLists.OrdersArePositions(s, orderOf)
    ensures SortByOrder(s, orderOf) == s
  {
    SortKeepsSortedList(s, orderOf);
  }

  /** What the default layout shows for one section. */
  datatype SectionView =
    | TechStackView(title: string, items: seq<TechStackItem>)
    | ContentView(title: string, blocks: seq<ContentBlock>)
    | NothingShown

  /**
   * A section is shown as a tech-stack list (in stored order) or as its
   * content blocks sorted by order, when its type's collection is present,
   * and otherwise as nothing.
   */
  function ViewOf(s: Section): (v: SectionView)
    ensures v.TechStackView? <==> s.kind == TechStack && s.techStack.Some?
    ensures v.ContentView? <==> s.kind == Content && s.contentBlocks.Some?
    ensures v.TechStackView? ==> v.items == s.techStack.value && v.title == s.name
    ensures v.ContentView? ==> v.title == s.name && SortedByOrder(v.blocks, BlockOrder) &&
                               multiset(v.blocks) == multiset(s.contentBlocks.value)
  {
    if s.kind == TechStack && s.techStack.Some? then TechStackView(s.name, s.techStack.value)
    else if s.kind == Content && s.contentBlocks.Some? then ContentView(s.name, SortByOrder(s.contentBlocks.value, BlockOrder))
    else NothingShown
  }

  /**
   * The default layout's section list: every section of the mode viewed
   * once, in a stable order of their `order` fields.
   */
  function SectionViews(sections: seq<Section>): (r: seq<SectionView>)
    ensures |r| == |sections|
    ensures exists sorted :: StableSortOf(sorted, sections, SectionOrder) &&
                             |sorted| == |r| && forall i :: 0 <= i < |r| ==> r[i] == ViewOf(sorted[i])
  {
    var sorted := SortByOrder(sections, SectionOrder);
    SortIsStable(sections, SectionOrder);
    assert |sorted| == |multiset(sorted)| == |sections|;
    seq(|sorted|, i requires 0 <= i < |sorted| => ViewOf(sorted[i]))
  }

  /**
   * In a numbered profile, every section of the mode is shown in list
   * position, as its own view, and its content blocks in stored order too.
   */
  lemma NumberedProfileRendersInPlace(p: Profile, mode: ProfileMode)
    requires ProfileInvariants.Numbered(p) && ProfileInvariants.WellTyped(p)
    ensures |SectionViews(SectionsOf(p, mode))| == |SectionsOf(p, mode)|
    ensures var views := SectionViews(SectionsOf(p, mode));
            forall i :: 0 <= i < |views| ==>
              var s := SectionsOf(p, mode)[i];
              && views[i] == ViewOf(s)
              && views[i] != NothingShown
              && (s.kind == Content ==> views[i].ContentView? && views[i].blocks == s.contentBlocks.value)
  {
    var ss := SectionsOf(p, mode);
    PositionsAreRenderedInPlace(ss, SectionOrder);
    forall i | 0 <= i < |ss|
      ensures ViewOf(ss[i]) != NothingShown
      ensures ss[i].kind == Content ==> ViewOf(ss[i]).ContentView? && ViewOf(ss[i]).blocks == ss[i].contentBlocks.value
    {
      assert ProfileInvariants.SectionTyped(ss[i]);
      if ss[i].kind == Content {
        assert ProfileInvariants.ChildOrdersOk(ss[i]);
        PositionsAreRenderedInPlace(ss[i].contentBlocks.value, BlockOrder);
      }
    }
  }

  /** A section that is well typed always shows something. */
  lemma TypedSectionsAreShown(s: Section)
    requires ProfileInvariants.SectionTyped(s)
    ensures ViewOf(s) != NothingShown
  {
  }

  /** The page's own state: the profile it shows and the mode it shows it in. */
  datatype PreviewState = PreviewState(profile: Profile, mode: ProfileMode)

  /** The state before anything is read: the template in web2. */
  const Initial := PreviewState(DefaultProfile.Template, Web2)

  /**
   * `loadProfile`, run on mount and on every `profile-updated` event: a stored
   * profile that parses replaces the shown one and the mode is chosen afresh.
   */
  function LoadProfile(st: PreviewState, saved: Option<string>, parse: string -> Option<Profile>): (r: PreviewState)
    ensures ProfileContext.Present(saved) && parse(saved.value).Some? ==>
              var p := parse(saved.value).value;
              r.profile == p &&
              r.mode == ChooseMode(p.displaySettings.showWeb2, p.displaySettings.showWeb3, Some(p.displaySettings.defaultView))
    ensures !(ProfileContext.Present(saved) && parse(saved.value).Some?) ==> r == st
  {
    if ProfileContext.Present(saved) then
      match parse(saved.value)
      case None => st
      case Some(p) =>
        var ds := p.displaySettings;
        PreviewState(p, ChooseMode(ds.showWeb2, ds.showWeb3, Some(ds.defaultView)))
    else st
  }

  /** After a load that finds a profile showing some mode, the page is on a shown mode. */
  lemma LoadedModeIsShown(st: PreviewState, saved: Option<string>, parse: string -> Option<Profile>)
    requires ProfileContext.Present(saved) && parse(saved.value).Some?
    requires var ds := parse(saved.value).value.displaySettings; ds.showWeb2 || ds.showWeb3
    ensures var r := LoadProfile(st, saved, parse);
            Shown(r.profile.displaySettings.showWeb2, r.profile.displaySettings.showWeb3, r.mode)
  {
    var ds := parse(saved.value).value.displaySettings;
    ChosenModeIsShown(ds.showWeb2, ds.showWeb3, Some(ds.defaultView));
  }

  /** The key the editor saves under. */
  const StorageKey := "portfolio-profile"

  /**
   * The `storage` event handler: a non-empty new value under the profile key
   * that parses replaces the shown profile; the mode is left as it was.
   */
  function OnStorage(st: PreviewState, key: Option<string>, newValue: Option<string>,
                     parse: string -> Option<Profile>): (r: PreviewState)
    ensures r.mode == st.mode
    ensures key == Some(StorageKey) && ProfileContext.Present(newValue) && parse(newValue.value).Some? ==>
              r.profile == parse(newValue.value).value
    ensures !(key == Some(StorageKey) && ProfileContext.Present(newValue) && parse(newValue.value).Some?) ==>
              r == st
  {
    if key == Some(StorageKey) && ProfileContext.Present(newValue) then
      match parse(newValue.value)
      case None => st
      case Some(p) => st.(profile := p)
    else st
  }

  /**
   * Because the storage handler does not choose the mode again, a save that
   * hides the mode on display leaves the page on that hidden mode.
   */
  lemma StorageEventCanLeaveHiddenMode(st: PreviewState, newValue: string, parse: string -> Option<Profile>)
    requires newValue != "" && parse(newValue).Some?
    requires var ds := parse(newValue).value.displaySettings; !Shown(ds.showWeb2, ds.showWeb3, st.mode)
    ensures var r := OnStorage(st, Some(StorageKey), Some(newValue), parse);
            !Shown(r.profile.displaySettings.showWeb2, r.profile.displaySettings.showWeb3, r.mode)
  {
  }
}
