/** The configuration constants the decision logic reads. */
module Config {

  /** A classification below this confidence is escalated for review. */
  const ClassificationConfidenceThreshold: real := 0.8

  /** Words whose presence makes a request critical, in configuration order. */
  const EscalationKeywords: seq<string> := [
    "urgent", "emergency", "critical", "asap", "immediately",
    "broken", "crashed", "not working", "down", "failed"
  ]
}
