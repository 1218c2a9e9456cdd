/** The status badge: a fixed table from status to colour and caption,
    with the open entry as fallback. */
module StatusBadge {
  import opened IssueModel

  datatype Style = Style(color: string, caption: string)

  const OPEN_STYLE := Style("bg-gray-100 text-gray-700 border-gray-300", "Pending")
  const IN_PROGRESS_STYLE := Style("bg-blue-100 text-blue-700 border-blue-300", "In Progress")
  const RESOLVED_STYLE := Style("bg-green-100 text-green-700 border-green-300", "Resolved")

  const CONFIG: map<string, Style> := map[OPEN := OPEN_STYLE, IN_PROGRESS := IN_PROGRESS_STYLE, RESOLVED := RESOLVED_STYLE]

  /** `config[status] || config.open`. */
  function StyleOf(status: string): (r: Style)
    ensures status in CONFIG ==> r == CONFIG[status]
    ensures status !in CONFIG ==> r == OPEN_STYLE
  {
    if status in CONFIG then CONFIG[status] else OPEN_STYLE
  }

  /** The table covers exactly the allowed statuses; their captions are
      distinct, and "Pending" shows for open and for anything unknown. */
  lemma CaptionsOfStatuses(status: string)
    ensures status in CONFIG <==> IsAllowedStatus(status)
    ensures StyleOf(status).caption == "Pending" <==> status != IN_PROGRESS && status != RESOLVED
    ensures StyleOf(status).caption == "In Progress" <==> status == IN_PROGRESS
    ensures StyleOf(status).caption == "Resolved" <==> status == RESOLVED
  {
  }
}

/** The severity badge: a colour per severity with medium as fallback,
    and the severity with its first letter capitalised. */
module SeverityBadge {
  import opened Base
  import Predictor

  const LOW_COLOR := "bg-green-100 text-green-700 border-green-300"
  const MEDIUM_COLOR := "bg-yellow-100 text-yellow-700 border-yellow-300"
  const HIGH_COLOR := "bg-red-100 text-red-700 border-red-300"

  const COLORS: map<string, string> := map["low" := LOW_COLOR, "medium" := MEDIUM_COLOR, "high" := HIGH_COLOR]

  /** `colors[severity] || colors.medium`. */
  function ColorOf(severity: string): (r: string)
    ensures severity in COLORS ==> r == COLORS[severity]
    ensures severity !in COLORS ==> r == MEDIUM_COLOR
  {
    if severity in COLORS then COLORS[severity] else MEDIUM_COLOR
  }

  /** `severity.charAt(0).toUpperCase() + severity.slice(1)`. */
  function Capitalize(s: string): (r: string)
    ensures |r| == |s|
    ensures s != [] ==> r[0] == UpperChar(s[0]) && r[1..] == s[1..]
  {
    if s == [] then [] else [UpperChar(s[0])] + s[1..]
  }

  /** The three severities the classifier produces show as its own labels:
      lower-casing a label and capitalising it again gives the label back. */
  lemma CaptionRestoresLabel(name: string)
    requires Predictor.IsLabel(name)
    ensures Capitalize(ToLower(name)) == name
    ensures ToLower(name) in COLORS
  {
    Predictor.LowerOfLabel(name);
    var low := ToLower(name);
    assert UpperChar(low[0]) == name[0] by {
      assert (low[0] as int - 32) as char == name[0];
    }
    assert Capitalize(low)[1..] == name[1..];
  }

  /** Each known severity has its own colour; every other one looks like
      medium. */
  lemma ColorsDistinct(severity: string)
    ensures ColorOf(severity) == LOW_COLOR <==> severity == "low"
    ensures ColorOf(severity) == HIGH_COLOR <==> severity == "high"
    ensures ColorOf(severity) == MEDIUM_COLOR <==> severity != "low" && severity != "high"
  {
  }
}
