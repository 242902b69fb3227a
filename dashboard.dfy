/**
 * The dashboard page: resource-efficiency percentages and their status band,
 * the advisory severity badge, the critical-advisories banner, and how many
 * rows of each query the cards show.
 */
module Dashboard {
  import opened Wrappers
  import opened Query
  import opened Schema
  import opened Ui

  /** `getSeverityColor` for advisories. */
  function SeverityBadge(severity: string): (v: BadgeVariant)
    ensures v == Destructive <==> severity == "critical"
    ensures v == Secondary <==> severity == "warning"
    ensures v == Default <==> severity != "critical" && severity != "warning"
  {
    if severity == "critical" then Destructive
    else if severity == "warning" then Secondary
    else Default
  }

  /**
   * `getEfficiencyPercentage`: `used / optimal * 100` capped at 100, and 0
   * when nothing is optimal. There is no lower cap.
   */
  function EfficiencyPercentage(used: real, optimal: real): (p: real)
    ensures p <= 100.0
    ensures optimal == 0.0 ==> p == 0.0
    ensures optimal != 0.0 ==> p <= used / optimal * 100.0 && (p == 100.0 || p == used / optimal * 100.0)
  {
    if optimal == 0.0 then 0.0
    else if used / optimal * 100.0 < 100.0 then used / optimal * 100.0
    else 100.0
  }

  /** Using at most the optimal amount gives the exact share, in [0, 100]. */
  lemma PercentageWithinOptimal(used: real, optimal: real)
    requires 0.0 <= used <= optimal && optimal > 0.0
    ensures EfficiencyPercentage(used, optimal) == used / optimal * 100.0
    ensures 0.0 <= EfficiencyPercentage(used, optimal)
  {
    assert used / optimal <= 1.0 by {
      assert used / optimal * optimal == used;
    }
  }

  /** Using the optimal amount or more shows a full bar. */
  lemma PercentageSaturates(used: real, optimal: real)
    requires used >= optimal > 0.0
    ensures EfficiencyPercentage(used, optimal) == 100.0
  {
    assert used / optimal >= 1.0 by {
      assert used / optimal * optimal == used;
    }
  }

  /** The status bands; the translation keys are "efficiency", "warning" and "critical". */
  datatype Band = Efficient | Warning | Critical

  /** `getEfficiencyStatus`. */
  function EfficiencyStatus(percentage: real): (b: Band)
    ensures b == Efficient <==> percentage <= 90.0
    ensures b == Warning <==> 90.0 < percentage <= 110.0
    ensures b == Critical <==> 110.0 < percentage
  {
    if percentage <= 90.0 then Efficient
    else if percentage <= 110.0 then Warning
    else Critical
  }

  /** The band boundaries are inclusive on their upper end. */
  lemma StatusBoundaries()
    ensures EfficiencyStatus(90.0) == Efficient && EfficiencyStatus(90.01) == Warning
    ensures EfficiencyStatus(110.0) == Warning && EfficiencyStatus(110.01) == Critical
  {
  }

  /**
   * Because the percentage is capped at 100, the dashboard never shows the
   * "critical" band; "warning" shows exactly when more than 90% of the
   * optimal amount is used.
   */
  lemma NeverCritical(used: real, optimal: real)
    ensures EfficiencyStatus(EfficiencyPercentage(used, optimal)) != Critical
    ensures EfficiencyStatus(EfficiencyPercentage(used, optimal)) == Warning
      <==> optimal != 0.0 && used / optimal * 100.0 > 90.0
  {
  }

  /** One line of the resource-usage card. */
  datatype ResourceRow = ResourceRow(resourceType: string, percentage: real, status: Band)

  function RowOf(r: Resource): ResourceRow
  {
    var p := EfficiencyPercentage(r.used, r.optimal);
    ResourceRow(r.resourceType, p, EfficiencyStatus(p))
  }

  /** The resource card's rows: the first three resources received, in order. */
  function ResourceRows(resources: seq<Resource>): (rows: seq<ResourceRow>)
    ensures |rows| == Min(3, |resources|)
    ensures forall k :: 0 <= k < |rows| ==>
      rows[k].resourceType == resources[k].resourceType
      && rows[k].percentage == EfficiencyPercentage(resources[k].used, resources[k].optimal)
      && rows[k].percentage <= 100.0
      && rows[k].status == EfficiencyStatus(rows[k].percentage)
      && rows[k].status != Critical
  {
    var shown := Take(resources, 3);
    seq(|shown|, k requires 0 <= k < |shown| => NeverCritical(shown[k].used, shown[k].optimal); RowOf(shown[k]))
  }

  predicate IsCritical(a: Advisory) { a.severity == "critical" }

  /** `advisories.filter(a => a.severity === "critical").length`. */
  function CriticalCount(advisories: seq<Advisory>): (n: nat)
    ensures n <= |advisories|
  {
    |Filter(advisories, IsCritical)|
  }

  /** A single advisory counts once when it is critical and not at all otherwise. */
  lemma CriticalCountSingle(a: Advisory)
    ensures CriticalCount([a]) == if IsCritical(a) then 1 else 0
  {
    assert [a][1..] == [];
  }

  /** Whether the critical-advisories banner is rendered. */
  function ShowCriticalBanner(advisories: Option<seq<Advisory>>): (shown: bool)
    ensures shown <==> advisories.Some? && exists a :: a in advisories.value && IsCritical(a)
  {
    advisories.Some? && |advisories.value| > 0
    && exists k :: 0 <= k < |advisories.value| && IsCritical(advisories.value[k])
  }

  /** The banner is shown exactly when the count it displays is positive. */
  lemma {:induction false} BannerIffCritical(advisories: seq<Advisory>)
    ensures ShowCriticalBanner(Some(advisories)) <==> CriticalCount(advisories) > 0
  {
    var f := Filter(advisories, IsCritical);
    if CriticalCount(advisories) > 0 {
      assert f[0] in advisories && IsCritical(f[0]);
      var k :| 0 <= k < |advisories| && advisories[k] == f[0];
    }
    if ShowCriticalBanner(Some(advisories)) {
      var k :| 0 <= k < |advisories| && IsCritical(advisories[k]);
      assert advisories[k] in f;
    }
  }

  /** The count is additive over a split of the advisories. */
  lemma CriticalCountAppend(a: seq<Advisory>, b: seq<Advisory>)
    ensures CriticalCount(a + b) == CriticalCount(a) + CriticalCount(b)
  {
    FilterAppend(a, b, IsCritical);
  }

  /** What the crop, resource and advisory cards show: at most 4, 3 and 3 rows, a prefix of what was received. */
  function CropsCard(isLoading: bool, crops: Option<seq<Crop>>): (p: Panel<Crop>)
    ensures p.Items? ==> crops.Some? && |p.items| == Min(4, |crops.value|) && p.items <= crops.value
    ensures p.Items? <==> PanelOf(isLoading, crops).Items?
    ensures p.Skeleton? <==> isLoading
    ensures p.Items? <==> !isLoading && crops.Some? && crops.value != []
  {
    match PanelOf(isLoading, crops)
    case Items(xs) => Items(Take(xs, 4))
    case other => other
  }

  function ResourcesCard(isLoading: bool, resources: Option<seq<Resource>>): (p: Panel<ResourceRow>)
    ensures p.Items? ==> resources.Some? && |p.items| == Min(3, |resources.value|)
    ensures p.Items? ==> p.items == ResourceRows(resources.value)
    ensures p.Items? <==> PanelOf(isLoading, resources).Items?
    ensures p.Skeleton? <==> isLoading
    ensures p.Items? <==> !isLoading && resources.Some? && resources.value != []
  {
    match PanelOf(isLoading, resources)
    case Items(xs) => Items(ResourceRows(xs))
    case Skeleton => Skeleton
    case EmptyState => EmptyState
  }

  function AdvisoriesCard(isLoading: bool, advisories: Option<seq<Advisory>>): (p: Panel<Advisory>)
    ensures p.Items? ==> advisories.Some? && |p.items| == Min(3, |advisories.value|) && p.items <= advisories.value
    ensures p.Items? <==> PanelOf(isLoading, advisories).Items?
    ensures p.Skeleton? <==> isLoading
    ensures p.Items? <==> !isLoading && advisories.Some? && advisories.value != []
  {
    match PanelOf(isLoading, advisories)
    case Items(xs) => Items(Take(xs, 3))
    case other => other
  }
}
