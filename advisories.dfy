/** The advisories page: one card per advisory as the server sends them. */
module Advisories {
  import opened Wrappers
  import opened Query
  import opened Schema
  import opened Ui
  import Dashboard

  /** `getSeverityColor` of this page: critical, warning, anything else. */
  function SeverityBadge(severity: string): (v: BadgeVariant)
    ensures v == Destructive <==> severity == "critical"
    ensures v == Secondary <==> severity == "warning"
    ensures v == Default <==> severity != "critical" && severity != "warning"
  {
    match severity
    case "critical" => Destructive
    case "warning" => Secondary
    case _ => Default
  }

  /** The page and the dashboard colour every severity alike. */
  lemma SameBadgeAsDashboard(severity: string)
    ensures SeverityBadge(severity) == Dashboard.SeverityBadge(severity)
  {
  }

  datatype Icon = AlertCircle

  /** `getCategoryIcon` ignores its argument. */
  function CategoryIcon(category: string): Icon
  {
    AlertCircle
  }

  lemma CategoryIconConstant(c1: string, c2: string)
    ensures CategoryIcon(c1) == CategoryIcon(c2)
  {
  }

  /** The date line: the formatted instant, or the "recently" label when there is none. */
  datatype DateLine = Recently | On(instant: nat)

  function DateLabel(timestamp: Stamp): (d: DateLine)
    ensures d.Recently? <==> timestamp.None?
    ensures d.On? ==> timestamp == Some(d.instant)
  {
    if timestamp.Some? then On(timestamp.value) else Recently
  }

  /** `advisory.source && …`: the source line, shown only for a non-empty source. */
  function SourceLine(source: Option<string>): (line: Option<string>)
    ensures line.Some? <==> source.Some? && source.value != ""
    ensures line.Some? ==> line == source
  {
    if source.Some? && source.value != "" then source else None
  }

  /** What one card shows. */
  datatype AdvisoryCard = AdvisoryCard(
    category: string, icon: Icon, badge: BadgeVariant, severityKey: string,
    title: string, content: string, date: DateLine, source: Option<string>)

  function CardOf(a: Advisory): (c: AdvisoryCard)
    ensures c.badge == SeverityBadge(a.severity) && c.date == DateLabel(a.timestamp)
    ensures c.source == SourceLine(a.source)
    ensures c.title == a.title && c.content == a.content && c.category == a.category
  {
    AdvisoryCard(a.category, CategoryIcon(a.category), SeverityBadge(a.severity), a.severity,
      a.title, a.content, DateLabel(a.timestamp), SourceLine(a.source))
  }

  /** The page body: one card per advisory, in the order received. */
  function Page(isLoading: bool, advisories: Option<seq<Advisory>>): (p: Panel<AdvisoryCard>)
    ensures p.Skeleton? <==> isLoading
    ensures p.EmptyState? <==> !isLoading && (advisories.None? || advisories.value == [])
    ensures p.Items? ==>
      && |p.items| == |advisories.value|
      && forall k :: 0 <= k < |p.items| ==> p.items[k] == CardOf(advisories.value[k])
  {
    match PanelOf(isLoading, advisories)
    case Skeleton => Skeleton
    case EmptyState => EmptyState
    case Items(rows) => Items(seq(|rows|, k requires 0 <= k < |rows| => CardOf(rows[k])))
  }
}
