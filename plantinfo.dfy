/** The content pane of components/PlantInfoContent.tsx: it shows either the
    growing conditions or the list of common issues, chosen by the active tab,
    and draws each issue as a block whose optional sections depend on the
    issue's fields. */
module PlantInfo {
  import opened Text

  /** One entry of `commonIssues`; `treatment` and `preventionTips` may be
      absent. */
  datatype Issue = Issue(
    name: string,
    severity: string,
    description: string,
    solution: string,
    treatment: Option<string>,
    preventionTips: Option<seq<string>>)

  /** The two views of the pane. */
  datatype View = GrowingConditions | CommonIssues

  /** The default `activeTab`. */
  const DefaultTab: string := "growing"

  /** The tab ids that show the growing conditions. */
  const GrowingTabs: set<string> := {"growing", "growing-conditions", "care-tips", "harvest-info"}

  /** `getSeverityColor`: the badge classes of a severity. */
  function SeverityColor(severity: string): (r: string)
    ensures severity == "low" <==> r == "bg-yellow-200 text-yellow-800"
    ensures severity == "medium" <==> r == "bg-orange-200 text-orange-800"
    ensures severity == "high" <==> r == "bg-red-200 text-red-800"
    ensures severity !in {"low", "medium", "high"} <==> r == "bg-gray-200 text-gray-800"
  {
    if severity == "low" then "bg-yellow-200 text-yellow-800"
    else if severity == "medium" then "bg-orange-200 text-orange-800"
    else if severity == "high" then "bg-red-200 text-red-800"
    else "bg-gray-200 text-gray-800"
  }

  /** The view the conditional expression at the bottom of the component
      picks: the growing conditions for the four growing tabs, the issues
      for every other string. */
  function SelectView(activeTab: string): (r: View)
    ensures r == GrowingConditions <==> activeTab in GrowingTabs
    ensures r == CommonIssues <==> activeTab !in GrowingTabs
  {
    if activeTab == "growing" || activeTab == "growing-conditions"
      || activeTab == "care-tips" || activeTab == "harvest-info"
    then GrowingConditions
    else CommonIssues
  }

  /** With the default tab the pane opens on the growing conditions; the
      tab id "issues" shows the issue list. */
  lemma DefaultTabShowsGrowing()
    ensures SelectView(DefaultTab) == GrowingConditions
    ensures SelectView("issues") == CommonIssues
  {
  }

  /** One drawn element of the issue list: the offline notice, or an issue's
      block with its name, severity label and badge classes, description,
      solution, bottom separator, and the optional treatment and tips. */
  datatype Section =
    | OfflineNotice
    | IssueBlock(
        name: string,
        severity: string,
        badge: string,
        description: string,
        solution: string,
        separator: bool,
        treatment: Option<string>,
        tips: Option<seq<string>>)

  /** `issue.treatment && …`: the treatment section, drawn when the treatment
      is present and not the empty string. */
  function ShownTreatment(treatment: Option<string>): (r: Option<string>)
    ensures r.Some? <==> treatment.Some? && treatment.value != []
    ensures r.Some? ==> r == treatment
  {
    match treatment
    case Some(t) => if t != [] then Some(t) else None
    case None => None
  }

  /** `issue.preventionTips && issue.preventionTips.length > 0 && …`: the
      prevention tips, drawn in their order when present and not empty. */
  function ShownTips(tips: Option<seq<string>>): (r: Option<seq<string>>)
    ensures r.Some? <==> tips.Some? && |tips.value| > 0
    ensures r.Some? ==> r == tips
  {
    match tips
    case Some(ts) => if |ts| > 0 then Some(ts) else None
    case None => None
  }

  /** The block drawn for the issue at `index` of a list of `count` issues:
      it always shows the issue's texts unchanged, carries the separator
      unless it is the last, and shows the treatment and tips only when they
      are present and not empty. */
  function Block(issue: Issue, index: nat, count: nat): (r: Section)
    ensures r.IssueBlock? && r.name == issue.name && r.severity == issue.severity
    ensures r.description == issue.description && r.solution == issue.solution
    ensures r.badge == SeverityColor(issue.severity)
    ensures r.separator <==> index + 1 < count
    ensures r.treatment.Some? <==> issue.treatment.Some? && issue.treatment.value != []
    ensures r.tips.Some? <==> issue.preventionTips.Some? && |issue.preventionTips.value| > 0
  {
    IssueBlock(issue.name, issue.severity, SeverityColor(issue.severity), issue.description, issue.solution,
      index < count - 1, ShownTreatment(issue.treatment), ShownTips(issue.preventionTips))
  }

  /** `commonIssues.map(...)` from position `from` on. */
  function Blocks(issues: seq<Issue>, from: nat): (r: seq<Section>)
    requires from <= |issues|
    ensures |r| == |issues| - from
    ensures forall i :: 0 <= i < |r| ==> r[i] == Block(issues[from + i], from + i, |issues|)
    decreases |issues| - from
  {
    if from == |issues| then [] else [Block(issues[from], from, |issues|)] + Blocks(issues, from + 1)
  }

  /** `renderCommonIssues`: the offline notice when offline, then one block
      per issue. */
  function RenderIssues(issues: seq<Issue>, isOffline: bool): (r: seq<Section>)
    ensures |r| == |issues| + (if isOffline then 1 else 0)
    ensures isOffline ==> r[0] == OfflineNotice
    ensures r[|r| - |issues|..] == Blocks(issues, 0)
  {
    (if isOffline then [OfflineNotice] else []) + Blocks(issues, 0)
  }

  /** No issue block is the offline notice. */
  lemma BlocksHaveNoNotice(issues: seq<Issue>)
    ensures OfflineNotice !in Blocks(issues, 0)
  {
    var b := Blocks(issues, 0);
    forall j | 0 <= j < |b|
      ensures b[j] != OfflineNotice
    {
      assert b[j] == Block(issues[j], j, |issues|);
    }
  }

  /** The i-th block shows the i-th issue's name and severity badge. */
  lemma BlocksShowIssues(issues: seq<Issue>)
    ensures forall i :: 0 <= i < |issues| ==>
      Blocks(issues, 0)[i].IssueBlock? && Blocks(issues, 0)[i].name == issues[i].name
      && Blocks(issues, 0)[i].badge == SeverityColor(issues[i].severity)
  {
    var b := Blocks(issues, 0);
    forall i | 0 <= i < |issues|
      ensures b[i].IssueBlock? && b[i].name == issues[i].name && b[i].badge == SeverityColor(issues[i].severity)
    {
      assert b[i] == Block(issues[i], i, |issues|);
    }
  }

  /** The issue list draws one block per issue, in list order, after the
      offline notice when there is one, and no other offline notice. */
  lemma {:induction false} IssuesInOrder(issues: seq<Issue>, isOffline: bool)
    ensures var r := RenderIssues(issues, isOffline);
      var k := if isOffline then 1 else 0;
      |r| == |issues| + k
      && (isOffline <==> OfflineNotice in r)
      && forall i :: 0 <= i < |issues| ==>
           r[k + i].IssueBlock? && r[k + i].name == issues[i].name
           && r[k + i].badge == SeverityColor(issues[i].severity)
  {
    var r := RenderIssues(issues, isOffline);
    var b := Blocks(issues, 0);
    BlocksShowIssues(issues);
    if isOffline {
      assert r[1..] == b;
      assert forall i :: 0 <= i < |issues| ==> r[1 + i] == b[i];
    } else {
      assert r == b;
      BlocksHaveNoNotice(issues);
    }
  }

  /** Every block but the last carries the bottom separator. */
  lemma SeparatorIffNotLast(issues: seq<Issue>, i: nat)
    requires i < |issues|
    ensures Blocks(issues, 0)[i].separator <==> i != |issues| - 1
  {
  }

  /** The treatment and tips sections of a block appear exactly when the
      issue has a non-empty treatment and a non-empty tip list, and show them
      unchanged. */
  lemma OptionalSections(issues: seq<Issue>, i: nat)
    requires i < |issues|
    ensures var b := Blocks(issues, 0)[i];
      (b.treatment.Some? <==> issues[i].treatment.Some? && issues[i].treatment.value != [])
      && (b.treatment.Some? ==> b.treatment.value == issues[i].treatment.value)
      && (b.tips.Some? <==> issues[i].preventionTips.Some? && |issues[i].preventionTips.value| > 0)
      && (b.tips.Some? ==> b.tips.value == issues[i].preventionTips.value)
  {
  }

  /** The descriptions and solutions of the default issues. */
  const EarlyBlightDescription: string :=
    "Dark brown spots with concentric rings on lower leaves, which eventually turn yellow and drop."
  const EarlyBlightSolution: string :=
    "Remove infected leaves. Ensure proper spacing between plants for air circulation."
  const AphidDescription: string :=
    "Small green or black insects clustering on stems and new growth, causing leaf curling."
  const AphidSolution: string :=
    "Spray plants with strong water stream to dislodge aphids. Introduce beneficial insects."
  const DeficiencyDescription: string :=
    "Yellowing between leaf veins, stunted growth, and poor fruit development."
  const DeficiencySolution: string :=
    "Test soil pH and nutrient levels. Apply appropriate organic or synthetic fertilizers."

  /** The default `commonIssues`. */
  const DefaultIssues: seq<Issue> := [
    Issue("Early Blight", "high", EarlyBlightDescription, EarlyBlightSolution,
      Some("Apply copper-based fungicide every 7-10 days."),
      Some(["Rotate crops annually", "Use disease-free seeds", "Avoid overhead irrigation"])),
    Issue("Aphid Infestation", "medium", AphidDescription, AphidSolution,
      Some("Apply insecticidal soap or neem oil solution."),
      Some(["Plant companion crops like marigolds", "Maintain field hygiene", "Monitor regularly during growing season"])),
    Issue("Nutrient Deficiency", "low", DeficiencyDescription, DeficiencySolution,
      Some("Foliar application of micronutrients for quick absorption."),
      Some(["Regular soil testing", "Crop rotation", "Use of quality compost"]))
  ]

  /** The default issues are drawn red, orange and yellow, in that order,
      each with its treatment and three tips, and only the last without a
      separator. */
  lemma DefaultIssuesRender()
    ensures var b := Blocks(DefaultIssues, 0);
      |b| == 3
      && b[0].badge == "bg-red-200 text-red-800"
      && b[1].badge == "bg-orange-200 text-orange-800"
      && b[2].badge == "bg-yellow-200 text-yellow-800"
      && (forall i :: 0 <= i < 3 ==> b[i].treatment.Some? && b[i].tips.Some? && |b[i].tips.value| == 3)
      && b[0].separator && b[1].separator && !b[2].separator
  {
    var b := Blocks(DefaultIssues, 0);
    assert b[0].badge == SeverityColor("high");
    assert b[1].badge == SeverityColor("medium");
    assert b[2].badge == SeverityColor("low");
  }

  /** What the pane draws. */
  datatype Pane = Growing | Issues(sections: seq<Section>)

  /** The component: the view picked by the tab, rendered. */
  function Render(activeTab: string, issues: seq<Issue>, isOffline: bool): (r: Pane)
    ensures r.Growing? <==> SelectView(activeTab) == GrowingConditions
  {
    match SelectView(activeTab)
    case GrowingConditions => Growing
    case CommonIssues => Issues(RenderIssues(issues, isOffline))
  }

  /** The offline notice appears only in the issues view, and there exactly
      when offline. */
  lemma OfflineNoticeOnlyInIssues(activeTab: string, issues: seq<Issue>, isOffline: bool)
    ensures var p := Render(activeTab, issues, isOffline);
      (p.Issues? && OfflineNotice in p.sections) <==> (isOffline && activeTab !in GrowingTabs)
  {
    IssuesInOrder(issues, isOffline);
  }
}
