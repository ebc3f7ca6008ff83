/**
 * Page navigation of the app's effective `main` (a.py:954-1000) and the home
 * page's quick-navigation buttons (a.py:470-494).
 *
 * Streamlit re-runs the script after every interaction; `st.session_state.page`
 * is the only state that survives.  A `Session` holds that field, and `Run`
 * is one pass of the script triggered by at most one click.  A button that
 * sets the page calls `st.rerun()`, which starts the script again with no
 * click pending; `Run` includes that second pass.
 */
module Navigation {
  import opened Options
  import opened Schema

  /** The `pages` dictionary: page id and sidebar button label, in iteration order. */
  const PAGES: seq<(string, string)> := [
    ("home", "Home"),
    ("diabetes", "Diabetes Prediction"),
    ("heart", "Heart Disease Prediction"),
    ("liver", "Liver Disease Prediction"),
    ("kidney", "Kidney Disease Prediction"),
    ("parkinsons", "Parkinsons Disease Prediction"),
    ("profile", "My Health Profile"),
    ("about", "About")
  ]

  /** The page function one pass ends in; `BlankScreen` when the page id matches no branch. */
  datatype Screen =
    | HomeScreen
    | PredictionScreen(condition: Condition)
    | ProfileScreen
    | AboutScreen
    | BlankScreen

  /** The interaction that triggered the pass. */
  datatype Click =
    | NoClick
    | SidebarButton(caption: string)   // a sidebar button, identified by its label
    | HomeButton(key: string)          // a quick-navigation button of the home page, by its widget key

  /** The `if`/`elif` chain over `st.session_state.page`. */
  function Dispatch(page: string): (s: Screen)
    ensures s != BlankScreen ==> PageOf(s) == page
  {
    if page == "home" then HomeScreen
    else if page == "diabetes" then PredictionScreen(Diabetes)
    else if page == "heart" then PredictionScreen(Heart)
    else if page == "liver" then PredictionScreen(Liver)
    else if page == "kidney" then PredictionScreen(Kidney)
    else if page == "parkinsons" then PredictionScreen(Parkinsons)
    else if page == "profile" then ProfileScreen
    else if page == "about" then AboutScreen
    else BlankScreen
  }

  /** The page id that leads to a screen: the reference inverse of `Dispatch`. */
  function PageOf(s: Screen): string
    requires s != BlankScreen
  {
    match s
    case HomeScreen => "home"
    case PredictionScreen(c) => Key(c)
    case ProfileScreen => "profile"
    case AboutScreen => "about"
  }

  predicate IsPageId(page: string) {
    exists i :: 0 <= i < |PAGES| && PAGES[i].0 == page
  }

  /** The id of the first entry labelled `caption`: the button the sidebar loop reacts to. */
  function FirstLabelled(entries: seq<(string, string)>, caption: string): (r: Option<string>)
    ensures r.None? <==> forall i :: 0 <= i < |entries| ==> entries[i].1 != caption
    ensures r.Some? ==> exists i :: 0 <= i < |entries| && entries[i] == (r.value, caption) &&
                          forall j :: 0 <= j < i ==> entries[j].1 != caption
  {
    if entries == [] then None
    else if entries[0].1 == caption then Some(entries[0].0)
    else FirstLabelled(entries[1..], caption)
  }

  /**
   * The page a home quick-navigation button selects: always the page of one
   * of the five conditions.
   */
  function HomeTarget(key: string): (r: Option<string>)
    ensures r.Some? ==> ConditionOfKey(r.value).Some?
  {
    match key
    case "home_diabetes_btn" => Some("diabetes")
    case "home_heart_btn" => Some("heart")
    case "home_liver_btn" => Some("liver")
    case "home_kidney_btn" => Some("kidney")
    case "home_parkinsons_btn" => Some("parkinsons")
    case _ => None
  }

  /**
   * The page after one interaction: a sidebar button wins; otherwise an unset
   * page becomes "home", and a home button counts only while the home page is shown.
   */
  function NextPage(page: Option<string>, click: Click): (r: string)
    ensures r != page.GetOr("home") ==> click != NoClick && IsPageId(r)
  {
    ConditionKeysArePageIds();
    var sidebar := if click.SidebarButton? then FirstLabelled(PAGES, click.caption) else None;
    if sidebar.Some? then sidebar.value
    else
      var current := page.GetOr("home");
      if click.HomeButton? && current == "home" && HomeTarget(click.key).Some? then HomeTarget(click.key).value
      else current
  }

  class Session {
    /** `st.session_state.page`; `None` until the first pass sets it. */
    var page: Option<string>

    ghost predicate Valid()
      reads this
    {
      page.Some? ==> IsPageId(page.value)
    }

    constructor ()
      ensures page == None && Valid()
    {
      page := None;
    }

    /**
     * The sidebar loop: the first `pages` entry whose button was pressed
     * sets `page` to its id and ends the pass (`st.rerun()`).
     */
    method SidebarLoop(click: Click) returns (moved: bool)
      modifies this
      ensures moved <==> click.SidebarButton? && FirstLabelled(PAGES, click.caption).Some?
      ensures page == if moved then FirstLabelled(PAGES, click.caption) else old(page)
    {
      moved := false;
      var i := 0;
      while i < |PAGES| && !moved
        invariant 0 <= i <= |PAGES|
        invariant !moved ==> page == old(page)
        invariant !moved && click.SidebarButton? ==>
                    FirstLabelled(PAGES, click.caption) == FirstLabelled(PAGES[i..], click.caption)
        invariant moved ==> click.SidebarButton? && FirstLabelled(PAGES, click.caption).Some? &&
                            page == FirstLabelled(PAGES, click.caption)
      {
        assert PAGES[i..][1..] == PAGES[i + 1..];
        if click == SidebarButton(PAGES[i].1) {
          page := Some(PAGES[i].0);
          moved := true;
        }
        i := i + 1;
      }
    }

    /** One interaction: the sidebar loop, the default page, the dispatch and any home button. */
    method Run(click: Click) returns (shown: Screen)
      requires Valid()
      modifies this
      ensures Valid()
      ensures page == Some(NextPage(old(page), click))
      ensures shown == Dispatch(page.value)
    {
      var moved := SidebarLoop(click);
      if page == None {
        page := Some("home");
      }
      shown := Dispatch(page.value);
      if !moved && shown == HomeScreen && click.HomeButton? {
        var target := HomeTarget(click.key);
        if target.Some? {
          // st.session_state.page = ...; st.rerun()
          page := target;
          shown := Dispatch(page.value);
        }
      }
      NextPageIsPageId(old(page), click);
    }
  }

  /** Every condition's registry key is also the id of a page. */
  lemma ConditionKeysArePageIds()
    ensures forall c :: IsPageId(Key(c))
  {
    forall c ensures IsPageId(Key(c)) {
      var i := match c case Diabetes => 1 case Heart => 2 case Liver => 3 case Kidney => 4 case Parkinsons => 5;
      assert PAGES[i].0 == Key(c);
    }
  }

  /** Each quick-navigation button's widget key is `home_<page>_btn` for the page it selects. */
  lemma HomeButtonKeysNameTheirPage(key: string)
    ensures HomeTarget(key).Some? ==> key == "home_" + HomeTarget(key).value + "_btn"
  {
  }

  /** Each condition's quick-navigation button, keyed `home_<key>_btn`, is recognised and targets its page. */
  lemma HomeTargetRecognises(c: Condition)
    ensures HomeTarget("home_" + Key(c) + "_btn") == Some(Key(c))
  {
    match c
    case Diabetes => assert "home_" + Key(c) + "_btn" == "home_diabetes_btn";
    case Heart => assert "home_" + Key(c) + "_btn" == "home_heart_btn";
    case Liver => assert "home_" + Key(c) + "_btn" == "home_liver_btn";
    case Kidney => assert "home_" + Key(c) + "_btn" == "home_kidney_btn";
    case Parkinsons => assert "home_" + Key(c) + "_btn" == "home_parkinsons_btn";
  }

  /** On the home page, a condition's quick-navigation button moves the session to that condition's page. */
  lemma HomeButtonSelects(page: Option<string>, c: Condition)
    requires page.GetOr("home") == "home"
    ensures NextPage(page, HomeButton("home_" + Key(c) + "_btn")) == Key(c)
  {
    HomeTargetRecognises(c);
  }

  /** A pass never leaves the session on an id outside the eight pages. */
  lemma NextPageIsPageId(page: Option<string>, click: Click)
    requires page.Some? ==> IsPageId(page.value)
    ensures IsPageId(NextPage(page, click))
  {
    assert PAGES[0].0 == "home";
  }

  /** Each of the eight ids reaches a page function, and nothing else does. */
  lemma DispatchCoversExactlyThePages(page: string)
    ensures Dispatch(page) != BlankScreen <==> IsPageId(page)
  {
    if Dispatch(page) != BlankScreen {
      var i := if page == "home" then 0 else if page == "diabetes" then 1 else if page == "heart" then 2
               else if page == "liver" then 3 else if page == "kidney" then 4
               else if page == "parkinsons" then 5 else if page == "profile" then 6 else 7;
      assert PAGES[i].0 == page;
    }
  }

  /** Each id reaches exactly one page function: `PageOf` undoes `Dispatch` on every page id and every screen. */
  lemma DispatchIsOneToOne(page: string, s: Screen)
    ensures IsPageId(page) ==> Dispatch(page) != BlankScreen && PageOf(Dispatch(page)) == page
    ensures s != BlankScreen ==> Dispatch(PageOf(s)) == s
  {
    DispatchCoversExactlyThePages(page);
  }

  lemma {:induction false} FirstLabelledAt(entries: seq<(string, string)>, i: nat)
    requires i < |entries|
    requires forall j :: 0 <= j < i ==> entries[j].1 != entries[i].1
    ensures FirstLabelled(entries, entries[i].1) == Some(entries[i].0)
  {
    if i > 0 {
      assert entries[1..][i - 1] == entries[i];
      FirstLabelledAt(entries[1..], i - 1);
    }
  }

  /** Pressing the sidebar button of entry i moves the session to that entry's id, from any page. */
  lemma SidebarSelects(page: Option<string>, i: nat)
    requires i < |PAGES|
    ensures NextPage(page, SidebarButton(PAGES[i].1)) == PAGES[i].0
  {
    FirstLabelledAt(PAGES, i);
  }

  /** Without a click the page is kept, and an unset page becomes "home". */
  lemma NoClickKeepsPage(page: Option<string>)
    ensures NextPage(page, NoClick) == page.GetOr("home")
  {
  }

  /** A home button has no effect unless the home page is the one shown. */
  lemma HomeButtonOnlyOnHome(page: string, key: string)
    requires page != "home"
    ensures NextPage(Some(page), HomeButton(key)) == page
  {
  }

  /** A prediction page's id is its condition's registry key. */
  lemma PredictionPagesUseConditionKeys(c: Condition)
    ensures Dispatch(Key(c)) == PredictionScreen(c)
  {
  }
}
