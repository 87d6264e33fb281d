/** The tab routing of components/PlantDetailsScreen.tsx: the screen keeps the
    id of the selected tab and hands the content pane a content key looked
    up in a fixed table, with "growing" as the fallback. */
module PlantDetails {
  import PlantInfo

  /** `tabToContentMap`. */
  const TabToContent: map<string, string> := map[
    "growing-conditions" := "growing",
    "common-issues" := "issues",
    "care-tips" := "growing",
    "harvest-info" := "growing"
  ]

  /** The tab selected when the screen opens. */
  const InitialTab: string := "growing-conditions"

  /** `tabToContentMap[activeTab] || "growing"`: the table's entry, or
      "growing" when the id is not in the table (or its entry is empty). */
  function ContentKey(activeTab: string): (r: string)
    ensures activeTab in TabToContent ==> r == TabToContent[activeTab]
    ensures activeTab !in TabToContent ==> r == "growing"
    ensures r == "issues" <==> activeTab == "common-issues"
    ensures r == "growing" <==> activeTab != "common-issues"
  {
    if activeTab in TabToContent && TabToContent[activeTab] != "" then TabToContent[activeTab]
    else "growing"
  }

  /** Through the table and the pane's view selector, the issue list is
      shown exactly for the "common-issues" tab. */
  lemma IssuesShownIffCommonIssues(activeTab: string)
    ensures PlantInfo.SelectView(ContentKey(activeTab)) == PlantInfo.CommonIssues
      <==> activeTab == "common-issues"
  {
  }

  /** The component's `activeTab` state. */
  class DetailsScreen {
    var activeTab: string

    constructor ()
      ensures activeTab == InitialTab
    {
      activeTab := InitialTab;
    }

    /** The view the content pane shows. */
    function Content(): (v: PlantInfo.View)
      reads this
      ensures v == PlantInfo.CommonIssues <==> activeTab == "common-issues"
    {
      IssuesShownIffCommonIssues(activeTab);
      PlantInfo.SelectView(ContentKey(activeTab))
    }

    /** `handleTabChange`: select the given tab, whatever its id. */
    method TabChange(tabId: string)
      modifies this
      ensures activeTab == tabId
    {
      activeTab := tabId;
    }
  }

  /** The screen opens on the growing-conditions view, and selecting the
      issues tab switches the pane to the issue list. */
  method OpenThenShowIssues() returns (first: PlantInfo.View, second: PlantInfo.View)
    ensures first == PlantInfo.GrowingConditions
    ensures second == PlantInfo.CommonIssues
  {
    var screen := new DetailsScreen();
    first := screen.Content();
    screen.TabChange("common-issues");
    second := screen.Content();
  }
}
