/** The markup helpers of dashboard/components.py: the metric card, the
    status badge, the insights panel and the percentage shown by the
    progress gauge. Values are passed already formatted as text; the
    plotly figures are not part of this model. */
module Components {
  import opened Common
  import opened Text

  // --------------------------------------------------------- metric card

  const DefaultIcon: string := "\U{1F4CA}"
  const CardHead: string := "\n    <div class=\"metric-card\">\n        <div style=\"display: flex; align-items: center; justify-content: center; margin-bottom: 10px;\">\n            <span style=\"font-size: 1.5rem; margin-right: 8px;\">"
  const CardAfterIcon: string := "</span>\n        </div>\n        <div class=\"metric-value\">"
  const CardAfterValue: string := "</div>\n        <div class=\"metric-label\">"
  const CardTail: string := "</div>\n    </div>\n    "

  /** `create_metric_card`: the card shows the icon, then the value, then
      the title, each verbatim and separated by fixed markup. */
  function MetricCard(title: string, value: string, icon: string): (r: string)
    ensures var i := |CardHead|;
      var j := i + |icon| + |CardAfterIcon|;
      var k := j + |value| + |CardAfterValue|;
      && |r| == k + |title| + |CardTail|
      && r[i..i + |icon|] == icon
      && r[j..j + |value|] == value
      && r[k..k + |title|] == title
      && i + |icon| < j && j + |value| < k
  {
    var r := CardHead + icon + CardAfterIcon + value + CardAfterValue + title + CardTail;
    var i := |CardHead|;
    var j := i + |icon| + |CardAfterIcon|;
    var k := j + |value| + |CardAfterValue|;
    assert r[i..i + |icon|] == icon;
    assert r[j..j + |value|] == value;
    assert r[k..k + |title|] == title;
    r
  }

  // -------------------------------------------------------- status badge

  datatype BadgeClass = OnTrack | Warning | Alert

  function ClassName(c: BadgeClass): string
  {
    match c
    case OnTrack => "status-on-track"
    case Warning => "status-warning"
    case Alert => "status-alert"
  }

  /** The class chosen on the lowered status text. */
  function BadgeClassOf(status: string): BadgeClass
  {
    var low := Lower(status);
    if Contains(low, "on track") || Contains(low, "excellent") then OnTrack
    else if Contains(low, "warning") || Contains(low, "under") || Contains(low, "mostly") then Warning
    else Alert
  }

  /** `create_status_badge`: the badge names its class at a fixed place and
      embeds the status text unchanged just before the closing tag. */
  function StatusBadge(status: string): (r: string)
    ensures var n := ClassName(BadgeClassOf(status));
      && |r| == |n| + |status| + 22
      && r[13..13 + |n|] == n
      && r[|r| - 7 - |status|..|r| - 7] == status
  {
    var n := ClassName(BadgeClassOf(status));
    var r := "<span class=\"" + n + "\">" + status + "</span>";
    assert r[13..13 + |n|] == n;
    assert r[|r| - 7 - |status|..|r| - 7] == status;
    r
  }

  /** The class does not depend on letter case. */
  lemma BadgeCaseInsensitive(status: string)
    ensures BadgeClassOf(Lower(status)) == BadgeClassOf(status)
  {
    LowerIdempotent(status);
  }

  /** A status mentioning "on track" or "excellent", in any case and
      anywhere, is on track, whatever else it mentions. */
  lemma OnTrackMention(before: string, mention: string, after: string)
    requires Lower(mention) == "on track" || Lower(mention) == "excellent"
    ensures BadgeClassOf(before + mention + after) == OnTrack
  {
    LowerConcat(before + mention, after);
    LowerConcat(before, mention);
    ContainsInfix(Lower(before), Lower(mention), Lower(after));
  }

  /** Without those, a mention of "warning", "under" or "mostly" in any
      case gives the warning class. */
  lemma WarningMention(before: string, mention: string, after: string)
    requires Lower(mention) == "warning" || Lower(mention) == "under" || Lower(mention) == "mostly"
    requires !Contains(Lower(before + mention + after), "on track")
    requires !Contains(Lower(before + mention + after), "excellent")
    ensures BadgeClassOf(before + mention + after) == Warning
  {
    LowerConcat(before + mention, after);
    LowerConcat(before, mention);
    ContainsInfix(Lower(before), Lower(mention), Lower(after));
  }

  /** Distinct classes have distinct names, so the badge's class text
      tells the class. */
  lemma ClassNamesDistinct(c: BadgeClass, d: BadgeClass)
    ensures ClassName(c) == ClassName(d) ==> c == d
  {
    if c != d {
      assert ClassName(c)[7] != ClassName(d)[7];
    }
  }

  // ------------------------------------------------------ insights panel

  /** The insights dictionary: for each list key, None when the key is
      absent and Some(items) when present (a None value is Some([])); the
      flag records any other key, which makes the dictionary truthy. */
  datatype Insights =
    | NoInsights
    | InsightsDict(notes: Option<seq<string>>, recommendations: Option<seq<string>>,
                   alerts: Option<seq<string>>, otherKeys: bool)

  predicate Falsy(d: Insights)
  {
    d.NoInsights? || (d.notes.None? && d.recommendations.None? && d.alerts.None? && !d.otherKeys)
  }

  datatype SectionKind = PerformanceNotes | Recommendations | Alerts

  /** The order the sections are written in. */
  function Rank(k: SectionKind): nat
  {
    match k
    case PerformanceNotes => 0
    case Recommendations => 1
    case Alerts => 2
  }

  function ListOf(d: Insights, k: SectionKind): seq<string>
  {
    if d.NoInsights? then []
    else
      var o := match k
        case PerformanceNotes => d.notes
        case Recommendations => d.recommendations
        case Alerts => d.alerts;
      if o.Some? then o.value else []
  }

  datatype Section = Section(kind: SectionKind, items: seq<string>)

  /** The section of one key, when its list is non-empty. */
  function SectionFor(d: Insights, k: SectionKind): seq<Section>
  {
    if |ListOf(d, k)| > 0 then [Section(k, ListOf(d, k))] else []
  }

  /** The sections the panel shows, in writing order. */
  function SectionsOf(d: Insights): seq<Section>
  {
    SectionFor(d, PerformanceNotes) + SectionFor(d, Recommendations) + SectionFor(d, Alerts)
  }

  const NoInsightsMarkup: string := "<div class=\"glass-container\"><p>No insights available</p></div>"
  const PanelOpen: string := "<div class=\"glass-container\"><h3 style=\"color: white; margin-bottom: 1rem;\">\U{1F9E0} AI Insights</h3>"

  function Heading(k: SectionKind): string
  {
    match k
    case PerformanceNotes => "<h4 style=\"color: #4ade80;\">\U{1F4C8} Performance Notes</h4>"
    case Recommendations => "<h4 style=\"color: #fbbf24;\">\U{1F4A1} Recommendations</h4>"
    case Alerts => "<h4 style=\"color: #ef4444;\">\U{26A0}\U{FE0F} Alerts</h4>"
  }

  function SectionOpen(k: SectionKind): string
  {
    "<div style=\"margin-bottom: 1rem;\">" + Heading(k) + "<ul style=\"color: rgba(255,255,255,0.9);\">"
  }

  const SectionClose: string := "</ul></div>"

  function ListItem(x: string): string { "<li>" + x + "</li>" }

  function RenderItems(items: seq<string>): string
  {
    if |items| == 0 then "" else RenderItems(items[..|items| - 1]) + ListItem(items[|items| - 1])
  }

  function RenderSection(s: Section): string
  {
    SectionOpen(s.kind) + RenderItems(s.items) + SectionClose
  }

  function RenderSections(ss: seq<Section>): string
  {
    if |ss| == 0 then "" else RenderSections(ss[..|ss| - 1]) + RenderSection(ss[|ss| - 1])
  }

  /** The markup of `create_insights_panel`. */
  function InsightsPanel(d: Insights): string
  {
    if Falsy(d) then NoInsightsMarkup else PanelOpen + RenderSections(SectionsOf(d)) + "</div>"
  }

  /** The loop writing one `<li>` per item. */
  method AppendItems(html: string, items: seq<string>) returns (r: string)
    ensures r == html + RenderItems(items)
  {
    r := html;
    for i := 0 to |items|
      invariant r == html + RenderItems(items[..i])
    {
      assert items[..i + 1][..i] == items[..i];
      r := r + "<li>" + items[i] + "</li>";
    }
    assert items[..|items|] == items;
  }

  /** One section written when its list is non-empty. */
  method AppendSection(html: string, ghost written: seq<Section>, d: Insights, k: SectionKind)
    returns (r: string, ghost now: seq<Section>)
    requires html == PanelOpen + RenderSections(written)
    ensures now == written + SectionFor(d, k)
    ensures r == PanelOpen + RenderSections(now)
  {
    r := html;
    now := written;
    var items := ListOf(d, k);
    if |items| > 0 {
      var head := SectionOpen(k);
      var withItems := AppendItems(r + head, items);
      r := withItems + SectionClose;
      now := written + [Section(k, items)];
      assert now[..|now| - 1] == written;
      assert RenderSection(Section(k, items)) == head + RenderItems(items) + SectionClose;
      assert RenderSections(now) == RenderSections(written) + RenderSection(Section(k, items));
      Regroup(PanelOpen, RenderSections(written), head, RenderItems(items), SectionClose);
    }
  }

  lemma Regroup(a: string, b: string, c: string, d: string, e: string)
    ensures a + b + c + d + e == a + (b + (c + d + e))
  {
  }

  /** `create_insights_panel`. */
  method CreateInsightsPanel(d: Insights) returns (html: string)
    ensures html == InsightsPanel(d)
  {
    if Falsy(d) {
      return NoInsightsMarkup;
    }
    html := PanelOpen;
    ghost var written: seq<Section> := [];
    html, written := AppendSection(html, written, d, PerformanceNotes);
    html, written := AppendSection(html, written, d, Recommendations);
    html, written := AppendSection(html, written, d, Alerts);
    assert written == SectionsOf(d);
    html := html + "</div>";
  }

  /** The sections are exactly the non-empty lists, each in full and in
      the order notes, recommendations, alerts. */
  lemma SectionsMeaning(d: Insights)
    ensures forall i :: 0 <= i < |SectionsOf(d)| ==>
      |SectionsOf(d)[i].items| > 0 && SectionsOf(d)[i].items == ListOf(d, SectionsOf(d)[i].kind)
    ensures forall i, j :: 0 <= i < j < |SectionsOf(d)| ==> Rank(SectionsOf(d)[i].kind) < Rank(SectionsOf(d)[j].kind)
    ensures forall k :: |ListOf(d, k)| > 0 <==> exists i :: 0 <= i < |SectionsOf(d)| && SectionsOf(d)[i].kind == k
  {
    SectionsInFull(d);
    SectionsOrdered(d);
    SectionsPresent(d);
  }

  /** Each section holds the whole non-empty list of its key. */
  lemma SectionsInFull(d: Insights)
    ensures forall i :: 0 <= i < |SectionsOf(d)| ==>
      |SectionsOf(d)[i].items| > 0 && SectionsOf(d)[i].items == ListOf(d, SectionsOf(d)[i].kind)
  {
    var ss := SectionsOf(d);
    forall i | 0 <= i < |ss|
      ensures |ss[i].items| > 0 && ss[i].items == ListOf(d, ss[i].kind)
    {
      assert ss[i] in SectionFor(d, PerformanceNotes) || ss[i] in SectionFor(d, Recommendations) || ss[i] in SectionFor(d, Alerts);
    }
  }

  /** The sections come in the order notes, recommendations, alerts. */
  lemma SectionsOrdered(d: Insights)
    ensures forall i, j :: 0 <= i < j < |SectionsOf(d)| ==> Rank(SectionsOf(d)[i].kind) < Rank(SectionsOf(d)[j].kind)
  {
    var a, b, c := SectionFor(d, PerformanceNotes), SectionFor(d, Recommendations), SectionFor(d, Alerts);
    var ss := SectionsOf(d);
    assert ss == a + b + c;
    forall i, j | 0 <= i < j < |ss|
      ensures Rank(ss[i].kind) < Rank(ss[j].kind)
    {
      if i < |a| {
        assert ss[i] == a[i];
      } else if i < |a| + |b| {
        assert ss[i] == b[i - |a|];
        assert ss[j] == c[j - |a| - |b|];
      }
    }
  }

  /** A key has a section exactly when its list is non-empty. */
  lemma SectionsPresent(d: Insights)
    ensures forall k :: |ListOf(d, k)| > 0 <==> exists i :: 0 <= i < |SectionsOf(d)| && SectionsOf(d)[i].kind == k
  {
    var ss := SectionsOf(d);
    forall k ensures |ListOf(d, k)| > 0 <==> exists i :: 0 <= i < |ss| && ss[i].kind == k {
      if |ListOf(d, k)| > 0 {
        var i := match k
          case PerformanceNotes => 0
          case Recommendations => |SectionFor(d, PerformanceNotes)|
          case Alerts => |SectionFor(d, PerformanceNotes)| + |SectionFor(d, Recommendations)|;
        assert ss[i].kind == k;
      }
      if exists i :: 0 <= i < |ss| && ss[i].kind == k {
        var i :| 0 <= i < |ss| && ss[i].kind == k;
        assert ss[i] in SectionFor(d, PerformanceNotes) || ss[i] in SectionFor(d, Recommendations) || ss[i] in SectionFor(d, Alerts);
      }
    }
  }

  /** The rendered items hold item i's `<li>` between the items before it
      and those after it. */
  lemma {:induction false} RenderItemsAt(items: seq<string>, i: nat)
    requires i < |items|
    ensures RenderItems(items) == RenderItems(items[..i]) + ListItem(items[i]) + RenderItems(items[i + 1..])
    decreases |items|
  {
    var n := |items| - 1;
    assert items[..n + 1] == items;
    if i == n {
      assert items[..n] == items[..i];
      assert items[i + 1..] == [];
    } else {
      RenderItemsAt(items[..n], i);
      assert items[..n][..i] == items[..i];
      assert items[..n][i] == items[i];
      assert items[..n][i + 1..] == items[i + 1..n];
      assert items[i + 1..][..|items[i + 1..]| - 1] == items[i + 1..n];
    }
  }

  /** The panel is the fixed placeholder exactly for falsy input; other
      input opens with the panel title and closes the container, with no
      section markup when every list is empty. */
  lemma InsightsPanelShape(d: Insights)
    ensures Falsy(d) ==> InsightsPanel(d) == NoInsightsMarkup
    ensures !Falsy(d) ==> IsPrefix(PanelOpen, InsightsPanel(d)) && InsightsPanel(d)[|InsightsPanel(d)| - 6..] == "</div>"
    ensures !Falsy(d) && (forall k :: |ListOf(d, k)| == 0) ==> InsightsPanel(d) == PanelOpen + "</div>"
    ensures InsightsPanel(d) == NoInsightsMarkup ==> Falsy(d)
  {
    if !Falsy(d) {
      var r := InsightsPanel(d);
      assert r[..|PanelOpen|] == PanelOpen;
      assert r[|r| - 6..] == "</div>";
      if forall k :: |ListOf(d, k)| == 0 {
        assert |ListOf(d, PerformanceNotes)| == 0 && |ListOf(d, Recommendations)| == 0 && |ListOf(d, Alerts)| == 0;
        assert SectionsOf(d) == [];
      }
    }
  }

  // ------------------------------------------------------ progress gauge

  /** The percentage of `create_progress_gauge`. */
  function ProgressPercentage(current: real, target: real): (r: real)
    ensures r <= 100.0
    ensures target == 0.0 ==> r == 0.0
  {
    if target == 0.0 then 0.0
    else if current / target * 100.0 < 100.0 then current / target * 100.0 else 100.0
  }

  /** Below the target the percentage is the exact share, reaching the
      target gives 100, and a negative share is passed through. */
  lemma ProgressMeaning(current: real, target: real)
    requires target != 0.0
    ensures current / target >= 1.0 ==> ProgressPercentage(current, target) == 100.0
    ensures current / target < 1.0 ==> ProgressPercentage(current, target) * target == current * 100.0
    ensures ProgressPercentage(current, target) < 0.0 <==> current / target < 0.0
  {
    var q := current / target;
    assert q * target == current;
    if q < 1.0 {
      assert ProgressPercentage(current, target) == q * 100.0;
      assert q * 100.0 * target == q * target * 100.0;
    }
  }
}
