/** The tab strip (src/components/ui/Tabs.tsx): the initial tab, clicks
    (ignored on disabled tabs), the content shown, and `aria-selected`. */
module Tabs {
  import opened Types
  import opened Browser

  /** One tab; `C` is whatever the tab renders. */
  datatype Tab<C> = Tab(id: string, caption: string, content: C, disabled: bool)

  /** `defaultTab || tabs[0]?.id || ''` */
  function InitialTab<C>(tabs: seq<Tab<C>>, defaultTab: Option<string>): (id: string)
    ensures Truthy(defaultTab) ==> id == defaultTab.value
    ensures !Truthy(defaultTab) && tabs != [] ==> id == tabs[0].id
    ensures !Truthy(defaultTab) && tabs == [] ==> id == ""
  {
    if Truthy(defaultTab) then defaultTab.value
    else if tabs != [] && tabs[0].id != "" then tabs[0].id
    else ""
  }

  /** Position of the first tab with this id at or after `start`. */
  function FindFrom<C>(tabs: seq<Tab<C>>, id: string, start: nat): (r: Option<nat>)
    requires start <= |tabs|
    ensures r.Some? ==> start <= r.value < |tabs| && tabs[r.value].id == id
    ensures r.Some? ==> forall k | start <= k < r.value :: tabs[k].id != id
    ensures r.None? ==> forall k | start <= k < |tabs| :: tabs[k].id != id
    decreases |tabs| - start
  {
    if start == |tabs| then None
    else if tabs[start].id == id then Some(start)
    else FindFrom(tabs, id, start + 1)
  }

  /** `tabs.find(tab => tab.id === activeTab)?.content` */
  function ActiveContent<C>(tabs: seq<Tab<C>>, activeTab: string): (c: Option<C>)
    ensures c.None? <==> forall k | 0 <= k < |tabs| :: tabs[k].id != activeTab
    ensures c.Some? ==> exists k | 0 <= k < |tabs| :: tabs[k].id == activeTab && tabs[k].content == c.value
                                  && forall m | 0 <= m < k :: tabs[m].id != activeTab
  {
    match FindFrom(tabs, activeTab, 0)
    case Some(k) => Some(tabs[k].content)
    case None => None
  }

  predicate AriaSelected<C>(activeTab: string, tab: Tab<C>) {
    activeTab == tab.id
  }

  /** Every button whose id is the active one is `aria-selected`, but the panel
      shows the content of the first of them only. */
  lemma SelectedTabShowsFirstMatch<C>(tabs: seq<Tab<C>>, activeTab: string, i: nat)
    requires i < |tabs| && AriaSelected(activeTab, tabs[i])
    ensures exists k | 0 <= k <= i :: AriaSelected(activeTab, tabs[k])
                                   && ActiveContent(tabs, activeTab) == Some(tabs[k].content)
                                   && forall m | 0 <= m < k :: !AriaSelected(activeTab, tabs[m])
  {
    var c := ActiveContent(tabs, activeTab);
    var k :| 0 <= k < |tabs| && tabs[k].id == activeTab && tabs[k].content == c.value
             && forall m | 0 <= m < k :: tabs[m].id != activeTab;
    assert k <= i;
  }

  /** Two tabs sharing an id are both marked selected, yet only the first one's
      content is shown. */
  lemma DuplicateIdsShowFirstContent()
    ensures var tabs := [Tab("a", "One", 1, false), Tab("a", "Two", 2, false)];
            AriaSelected("a", tabs[0]) && AriaSelected("a", tabs[1])
            && ActiveContent(tabs, "a") == Some(1)
  {
    var tabs := [Tab("a", "One", 1, false), Tab("a", "Two", 2, false)];
    assert FindFrom(tabs, "a", 0) == Some(0);
  }

  /** A default naming no tab leaves the panel empty. */
  lemma UnknownDefaultShowsNothing<C>(tabs: seq<Tab<C>>, defaultTab: string)
    requires defaultTab != ""
    requires forall k | 0 <= k < |tabs| :: tabs[k].id != defaultTab
    ensures ActiveContent(tabs, InitialTab(tabs, Some(defaultTab))) == None
  {
  }

  /** Without a default the first tab is open and its content shown, as on
      the home page, whose three tabs are given no default. */
  lemma FirstTabOpensByDefault<C>(tabs: seq<Tab<C>>)
    requires tabs != []
    ensures InitialTab(tabs, None) == tabs[0].id
    ensures ActiveContent(tabs, InitialTab(tabs, None)) == Some(tabs[0].content)
  {
    assert FindFrom(tabs, tabs[0].id, 0) == Some(0);
  }

  class Component<C> {
    const tabs: seq<Tab<C>>
    var activeTab: string

    constructor (tabs: seq<Tab<C>>, defaultTab: Option<string>)
      ensures this.tabs == tabs && activeTab == InitialTab(tabs, defaultTab)
    {
      this.tabs := tabs;
      activeTab := InitialTab(tabs, defaultTab);
    }

    /** `onClick={() => !tab.disabled && handleTabChange(tab.id)}` on the i-th button. */
    method Click(w: Window, i: nat)
      requires i < |tabs|
      modifies this`activeTab, w`trace
      ensures tabs[i].disabled ==> activeTab == old(activeTab) && w.trace == old(w.trace)
      ensures !tabs[i].disabled ==> activeTab == tabs[i].id && w.trace == old(w.trace) + [Called(OnTabChange(tabs[i].id))]
      ensures !tabs[i].disabled ==> AriaSelected(activeTab, tabs[i]) && ActiveContent(tabs, activeTab).Some?
    {
      if !tabs[i].disabled {
        activeTab := tabs[i].id;
        w.Call(OnTabChange(tabs[i].id));
      }
    }

    function Content(): Option<C>
      reads this
    {
      ActiveContent(tabs, activeTab)
    }
  }
}
