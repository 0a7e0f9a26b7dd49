/**
 * The reports page: how a report's topic and status are labelled,
 * coloured and decorated with an icon, the avatar fallbacks of the
 * reporter and the reported user, and the defaults for a missing response.
 */
module Report {
  import opened JsValues
  import opened JsStrings
  import opened ApiShapes

  /** A user as embedded in a report. */
  datatype ReportUser = ReportUser(name: string, role: string, profileImage: string)

  /** A report as the backend sends it (the fields the table reads). */
  datatype ReportRecord = ReportRecord(reporter: ReportUser, reportedUser: ReportUser, topic: string, status: string)

  /** A `{ value, label }` option (label as caption) of a table filter. */
  datatype FilterOption = FilterOption(value: string, caption: string)

  predicate IsKnownTopic(topic: string) {
    topic == "RUDE_BEHAVIOR" || topic == "SAFETY_CONCERN" || topic == "SERVICE_QUALITY"
    || topic == "PAYMENT_ISSUE" || topic == "OTHER"
  }

  /** `reportTopicLabels[topic] || topic`. */
  function TopicLabel(topic: string): (text: string)
    ensures topic == "RUDE_BEHAVIOR" ==> text == "Rude Behavior"
    ensures topic == "SAFETY_CONCERN" ==> text == "Safety Concern"
    ensures topic == "SERVICE_QUALITY" ==> text == "Service Quality"
    ensures topic == "PAYMENT_ISSUE" ==> text == "Payment Issue"
    ensures topic == "OTHER" ==> text == "Other"
    ensures !IsKnownTopic(topic) ==> text == topic
  {
    if topic == "RUDE_BEHAVIOR" then "Rude Behavior"
    else if topic == "SAFETY_CONCERN" then "Safety Concern"
    else if topic == "SERVICE_QUALITY" then "Service Quality"
    else if topic == "PAYMENT_ISSUE" then "Payment Issue"
    else if topic == "OTHER" then "Other"
    else topic
  }

  /** The options of the table's topic filter. */
  const TopicFilterOptions: seq<FilterOption> := [
    FilterOption("RUDE_BEHAVIOR", "Rude Behavior"),
    FilterOption("SAFETY_CONCERN", "Safety Concern"),
    FilterOption("SERVICE_QUALITY", "Service Quality"),
    FilterOption("PAYMENT_ISSUE", "Payment Issue"),
    FilterOption("OTHER", "Other")
  ]

  /** The options of the table's status filter. */
  const StatusFilterOptions: seq<FilterOption> := [
    FilterOption("PENDING", "Pending"),
    FilterOption("IN_REVIEW", "In Review"),
    FilterOption("RESOLVED", "Resolved"),
    FilterOption("DISMISSED", "Dismissed")
  ]

  /** Every topic the filter offers is labelled in the table as the filter labels it. */
  lemma TopicLabelsMatchFilter()
    ensures forall k :: 0 <= k < |TopicFilterOptions| ==>
      IsKnownTopic(TopicFilterOptions[k].value) && TopicLabel(TopicFilterOptions[k].value) == TopicFilterOptions[k].caption
  {
  }

  predicate IsKnownStatus(status: string) {
    status == "PENDING" || status == "IN_REVIEW" || status == "RESOLVED" || status == "DISMISSED"
  }

  /**
   * The status badge text: the first '_' becomes a space, then the first
   * character is upper-cased and the rest lower-cased.
   */
  function StatusLabel(status: string): (text: string)
    ensures |text| == |status|
    ensures status != [] ==> text[0] == ToUpperChar(if status[0] == '_' then ' ' else status[0])
    ensures 0 < IndexOf(status, '_') ==> text[IndexOf(status, '_')] == ' '
    ensures forall k :: 0 < k < |status| && k != IndexOf(status, '_') ==> text[k] == ToLowerChar(status[k])
  {
    var spaced := ReplaceFirst(status, '_', ' ');
    if spaced == [] then [] else [ToUpperChar(spaced[0])] + ToLower(spaced[1..])
  }

  lemma StatusLabelWithoutUnderscore(status: string, expected: string)
    requires '_' !in status && status != []
    requires |expected| == |status|
    requires expected[0] == ToUpperChar(status[0])
    requires forall k :: 0 < k < |status| ==> expected[k] == ToLowerChar(status[k])
    ensures StatusLabel(status) == expected
  {
    var t := StatusLabel(status);
    forall k | 0 <= k < |t| ensures t[k] == expected[k] {
    }
  }

  lemma InReviewLabel(status: string)
    requires status == "IN_REVIEW"
    ensures StatusLabel(status) == "In review"
  {
    assert status[..2] == "IN" && status[2] == '_';
    assert IndexOf(status, '_') == 2;
    var t := StatusLabel(status);
    forall k | 0 <= k < |t| ensures t[k] == "In review"[k] {
    }
  }

  /** The badge texts of the four known statuses. */
  lemma KnownStatusLabels(status: string)
    requires IsKnownStatus(status)
    ensures status == "PENDING" ==> StatusLabel(status) == "Pending"
    ensures status == "IN_REVIEW" ==> StatusLabel(status) == "In review"
    ensures status == "RESOLVED" ==> StatusLabel(status) == "Resolved"
    ensures status == "DISMISSED" ==> StatusLabel(status) == "Dismissed"
  {
    if status == "PENDING" {
      StatusLabelWithoutUnderscore(status, "Pending");
    } else if status == "IN_REVIEW" {
      InReviewLabel(status);
    } else if status == "RESOLVED" {
      StatusLabelWithoutUnderscore(status, "Resolved");
    } else {
      StatusLabelWithoutUnderscore(status, "Dismissed");
    }
  }

  /** The badge agrees with the status filter's option label, except for IN_REVIEW ("In review" against "In Review"). */
  lemma StatusLabelsAgainstFilter(status: string, caption: string)
    requires FilterOption(status, caption) in StatusFilterOptions
    ensures StatusLabel(status) == caption <==> status != "IN_REVIEW"
  {
    assert StatusFilterOptions[0] == FilterOption("PENDING", "Pending");
    assert StatusFilterOptions[1] == FilterOption("IN_REVIEW", "In Review");
    assert StatusFilterOptions[2] == FilterOption("RESOLVED", "Resolved");
    assert StatusFilterOptions[3] == FilterOption("DISMISSED", "Dismissed");
    assert IsKnownStatus(status);
    KnownStatusLabels(status);
  }

  const Gray: string := "bg-gray-100 text-gray-800"

  /** `statusColors[status] || gray`. */
  function StatusColor(status: string): (cls: string)
    ensures status == "PENDING" ==> cls == "bg-yellow-100 text-yellow-800"
    ensures status == "IN_REVIEW" ==> cls == "bg-blue-100 text-blue-800"
    ensures status == "RESOLVED" ==> cls == "bg-green-100 text-green-800"
    ensures !IsKnownStatus(status) || status == "DISMISSED" ==> cls == Gray
  {
    if status == "PENDING" then "bg-yellow-100 text-yellow-800"
    else if status == "IN_REVIEW" then "bg-blue-100 text-blue-800"
    else if status == "RESOLVED" then "bg-green-100 text-green-800"
    else if status == "DISMISSED" then "bg-gray-100 text-gray-800"
    else Gray
  }

  datatype Icon = Clock | AlertTriangle | CheckCircle | XCircle

  /** The icons drawn before the badge: one guarded element per known status. */
  function StatusIcons(status: string): (icons: seq<Icon>)
    ensures |icons| == 1 <==> IsKnownStatus(status)
    ensures |icons| == 0 <==> !IsKnownStatus(status)
    ensures status == "PENDING" ==> icons == [Clock]
    ensures status == "IN_REVIEW" ==> icons == [AlertTriangle]
    ensures status == "RESOLVED" ==> icons == [CheckCircle]
    ensures status == "DISMISSED" ==> icons == [XCircle]
  {
    (if status == "PENDING" then [Clock] else [])
    + (if status == "IN_REVIEW" then [AlertTriangle] else [])
    + (if status == "RESOLVED" then [CheckCircle] else [])
    + (if status == "DISMISSED" then [XCircle] else [])
  }

  /** The reporter's avatar fallback: the initials of the name's space-separated parts. */
  function ReporterFallback(reporter: ReportUser): (text: string)
    ensures text == WordStarts(reporter.name, true)
  {
    InitialsAreWordStarts(reporter.name);
    Initials(reporter.name)
  }

  /** The reported user's avatar fallback: `name.charAt(0)` only. */
  function ReportedFallback(reported: ReportUser): (text: string)
    ensures text == CharAt0(reported.name)
    ensures |text| <= 1 && (text == [] <==> reported.name == [])
  {
    CharAt0(reported.name)
  }

  /** When a name does not start with a space, the one-letter fallback is the first of its initials. */
  lemma ReportedFallbackStartsInitials(user: ReportUser)
    requires user.name != [] && user.name[0] != ' '
    ensures |ReporterFallback(user)| >= 1
    ensures ReportedFallback(user) == ReporterFallback(user)[..1]
  {
  }

  datatype ReportListing = ReportListing(reports: seq<ReportRecord>, meta: Meta)

  /** `reportsData?.data?.data || []` and `reportsData?.data?.meta || DefaultMeta`. */
  function ReadListing(resp: Option<Response<ReportRecord>>): (l: ReportListing)
    ensures l.reports == Records(resp)
    ensures MetaOf(resp).Some? ==> l.meta == MetaOf(resp).value
    ensures MetaOf(resp).None? ==> l.meta == Meta(Some(0), Some(10), Some(1), Some(1))
    ensures resp.None? ==> l.reports == [] && l.meta == Meta(Some(0), Some(10), Some(1), Some(1))
  {
    ReportListing(Records(resp), MetaOrDefault(resp))
  }
}
