/**
 * AgentStatusCard of the client: the display configuration a status string
 * selects, with the idle configuration for any status the table lacks.
 */
module AgentStatusCard {

  datatype StatusIcon = Clock | Loader2 | CheckCircle2 | AlertCircle

  datatype StatusConfig = StatusConfig(
    bgColor: string,
    textColor: string,
    iconColor: string,
    labelText: string,
    statusIcon: StatusIcon,
    animate: bool)

  /** The `statusConfig` table; only the thinking entry animates. */
  const STATUS_CONFIG: map<string, StatusConfig> := map[
    "idle" := StatusConfig("bg-gray-100", "text-gray-600", "text-gray-400", "Standby", Clock, false),
    "thinking" := StatusConfig("bg-blue-50", "text-blue-700", "text-blue-500", "Analyzing...", Loader2, true),
    "completed" := StatusConfig("bg-green-50", "text-green-700", "text-green-500", "Complete", CheckCircle2, false),
    "error" := StatusConfig("bg-red-50", "text-red-700", "text-red-500", "Error", AlertCircle, false)
  ]

  /** `statusConfig[status] || statusConfig.idle`. */
  function ConfigFor(status: string): (c: StatusConfig)
    ensures c in STATUS_CONFIG.Values
    ensures status in STATUS_CONFIG ==> c == STATUS_CONFIG[status]
    ensures status !in STATUS_CONFIG ==> c == STATUS_CONFIG["idle"]
  {
    if status in STATUS_CONFIG then STATUS_CONFIG[status] else STATUS_CONFIG["idle"]
  }

  /** The class of the small status icon: it spins exactly while the agent is thinking. */
  function SpinClass(status: string): (cls: string)
    ensures cls == "animate-spin" <==> status == "thinking"
    ensures cls == "" <==> status != "thinking"
  {
    if ConfigFor(status).animate then "animate-spin" else ""
  }

  /** The label shown for each status; anything else reads as on standby. */
  lemma StatusLabels(status: string)
    ensures ConfigFor("idle").labelText == "Standby"
    ensures ConfigFor("thinking").labelText == "Analyzing..."
    ensures ConfigFor("completed").labelText == "Complete"
    ensures ConfigFor("error").labelText == "Error"
    ensures status !in {"idle", "thinking", "completed", "error"} ==> ConfigFor(status) == ConfigFor("idle")
  {
  }

  /** Distinct known statuses look distinct: no two of them share a label. */
  lemma LabelsIdentifyStatus(s: string, t: string)
    requires s in STATUS_CONFIG && t in STATUS_CONFIG
    requires ConfigFor(s).labelText == ConfigFor(t).labelText
    ensures s == t
  {
  }
}
