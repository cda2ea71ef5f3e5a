/** The records exchanged between the components of the help desk. */
module Models {
  import opened Wrappers

  /** The closed category taxonomy, in declaration order. */
  datatype RequestCategory =
    | PasswordReset
    | SoftwareInstallation
    | HardwareFailure
    | NetworkConnectivity
    | EmailConfiguration
    | SecurityIncident
    | PolicyQuestion
  {
    /** The enumeration's string value, the key used in configuration. */
    function Value(): string {
      match this
      case PasswordReset => "password_reset"
      case SoftwareInstallation => "software_installation"
      case HardwareFailure => "hardware_failure"
      case NetworkConnectivity => "network_connectivity"
      case EmailConfiguration => "email_configuration"
      case SecurityIncident => "security_incident"
      case PolicyQuestion => "policy_question"
    }
  }

  /** Iteration order of the enumeration. */
  const AllCategories: seq<RequestCategory> := [
    PasswordReset, SoftwareInstallation, HardwareFailure, NetworkConnectivity,
    EmailConfiguration, SecurityIncident, PolicyQuestion
  ]

  /** Different categories have different values. */
  lemma ValueInjective(a: RequestCategory, b: RequestCategory)
    ensures a.Value() == b.Value() ==> a == b
  {
    if a != b {
      assert a.Value() != b.Value() by {
        match a
        case PasswordReset => assert a.Value()[0] == 'p' && a.Value()[1] == 'a';
        case SoftwareInstallation => assert a.Value()[0] == 's' && a.Value()[1] == 'o';
        case HardwareFailure => assert a.Value()[0] == 'h';
        case NetworkConnectivity => assert a.Value()[0] == 'n';
        case EmailConfiguration => assert a.Value()[0] == 'e';
        case SecurityIncident => assert a.Value()[0] == 's' && a.Value()[1] == 'e';
        case PolicyQuestion => assert a.Value()[0] == 'p' && a.Value()[1] == 'o';
      }
    }
  }

  function FindCategory(cats: seq<RequestCategory>, key: string): (r: Option<RequestCategory>)
    ensures r.Some? ==> r.value in cats && r.value.Value() == key
    ensures r.None? ==> forall c :: c in cats ==> c.Value() != key
  {
    if cats == [] then None
    else if cats[0].Value() == key then Some(cats[0])
    else FindCategory(cats[1..], key)
  }

  /** The enumeration member whose value equals a configuration key, if any
      (the search over `RequestCategory` when the category table is built). */
  function CategoryFromValue(key: string): (r: Option<RequestCategory>)
    ensures r.Some? <==> exists c: RequestCategory :: c.Value() == key
    ensures r.Some? ==> r.value.Value() == key
  {
    AllCategoriesComplete();
    FindCategory(AllCategories, key)
  }

  lemma AllCategoriesComplete()
    ensures forall c: RequestCategory :: c in AllCategories
  {
    forall c: RequestCategory ensures c in AllCategories {
      match c
      case PasswordReset => assert AllCategories[0] == c;
      case SoftwareInstallation => assert AllCategories[1] == c;
      case HardwareFailure => assert AllCategories[2] == c;
      case NetworkConnectivity => assert AllCategories[3] == c;
      case EmailConfiguration => assert AllCategories[4] == c;
      case SecurityIncident => assert AllCategories[5] == c;
      case PolicyQuestion => assert AllCategories[6] == c;
    }
  }

  /** Urgency levels, ordered normal < high < critical. */
  datatype Urgency = Normal | High | Critical {
    function Name(): string {
      match this
      case Normal => "normal"
      case High => "high"
      case Critical => "critical"
    }

    function Rank(): nat {
      match this
      case Normal => 0
      case High => 1
      case Critical => 2
    }
  }

  datatype ClassificationResult = ClassificationResult(
    category: RequestCategory,
    confidence: real,
    reasoning: string)

  /** What a retrieval returns for a chunk; it carries no section. */
  datatype RetrievalResult = RetrievalResult(
    content: string,
    source: string,
    relevanceScore: real)

  datatype EscalationDecision = EscalationDecision(
    shouldEscalate: bool,
    reason: string,
    urgencyLevel: Urgency)

  datatype HelpDeskResponse = HelpDeskResponse(
    requestId: string,
    classification: ClassificationResult,
    retrievedKnowledge: seq<RetrievalResult>,
    response: string,
    escalation: EscalationDecision,
    processingTime: real)

  /** An incoming request; the orchestrator fills in a missing identifier in place. */
  class HelpDeskRequest {
    var id: Option<string>
    var request: string
    var userId: Option<string>
    var priority: Option<string>
    var timestamp: Option<string>

    constructor (id: Option<string>, request: string, userId: Option<string>)
      ensures this.id == id && this.request == request && this.userId == userId
      ensures priority == Some("normal") && timestamp == None
    {
      this.id := id;
      this.request := request;
      this.userId := userId;
      priority := Some("normal");
      timestamp := None;
    }
  }
}
