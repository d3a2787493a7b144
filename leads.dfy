/**
 * How the lead list shows a lead's status (screens/LeadsScreen.js): a badge
 * colour and a Spanish label per known status.
 */
module Leads {
  /** The statuses the screen knows. */
  const KnownStatuses: set<string> := {"new", "calling", "contacted", "failed"}

  const DefaultColor := "#64748b"

  /** `getStatusColor`: green, amber, blue and red for the known statuses, slate otherwise. */
  function StatusColor(status: string): (color: string)
    ensures color == DefaultColor <==> status !in KnownStatuses
    ensures |color| == 7 && color[0] == '#'
    ensures forall i :: 1 <= i < 7 ==> color[i] in "0123456789abcdef"
  {
    match status
    case "new" => "#10b981"
    case "calling" => "#f59e0b"
    case "contacted" => "#3b82f6"
    case "failed" => "#ef4444"
    case _ => DefaultColor
  }

  /** `getStatusLabel`: the Spanish name of a known status; any other status is shown as it is. */
  function StatusLabel(status: string): (shown: string)
    ensures status !in KnownStatuses ==> shown == status
    ensures status in KnownStatuses ==> shown != status && shown !in KnownStatuses
  {
    match status
    case "new" => "Nuevo"
    case "calling" => "Llamando"
    case "contacted" => "Contactado"
    case "failed" => "Fallido"
    case _ => status
  }

  /**
   * The colour tells a known status apart from every other status: two
   * statuses share a colour only when they are equal or both unknown.
   */
  lemma ColorIdentifiesStatus(s: string, t: string)
    requires StatusColor(s) == StatusColor(t)
    ensures s == t || (s !in KnownStatuses && t !in KnownStatuses)
  {
  }

  /** The four known statuses get four different labels. */
  lemma LabelsDistinct(s: string, t: string)
    requires s in KnownStatuses && t in KnownStatuses && s != t
    ensures StatusLabel(s) != StatusLabel(t)
  {
  }

  /** The labels of the known statuses, in the order of the switch. */
  lemma KnownLabels()
    ensures StatusLabel("new") == "Nuevo" && StatusLabel("calling") == "Llamando"
    ensures StatusLabel("contacted") == "Contactado" && StatusLabel("failed") == "Fallido"
  {
  }
}
