/**
 Incident classification, playbooks, containment and residual risk
 (backend/app/services/playbook_engine.py and backend/app/services/correlation_engine.py, lines 108-148).
 */
module Playbook {
  import opened Base

  datatype Kind = Suspicious | Exfiltration | Endpoint | Credential

  /** Classification goes from the general to the specific. */
  function Rank(kind: Kind): nat {
    match kind
    case Suspicious => 0
    case Exfiltration => 1
    case Endpoint => 2
    case Credential => 3
  }

  datatype ActionStatus = Pending | Executed

  datatype Recommendation = Recommendation(
    action: string,
    points: nat,
    objectives: set<string>,
    status: ActionStatus,
    executedAt: Option<int>,
    analyst: Option<string>)

  datatype Playbook = Playbook(required: set<string>, actions: seq<(string, set<string>)>)

  const CREDENTIAL := Playbook(
    {"invalidate_session", "secure_identity"},
    [("Revoke active sessions", {"invalidate_session"}),
     ("Disable account", {"secure_identity"}),
     ("Force password reset", {"secure_identity"}),
     ("Block source IP", {"block_known_source"}),
     ("Escalate incident", {})])

  const ENDPOINT := Playbook(
    {"isolate_host", "stop_malicious_execution"},
    [("Isolate host", {"isolate_host"}),
     ("Kill suspicious process", {"stop_malicious_execution"}),
     ("Block destination", {"block_destination"}),
     ("Collect forensic snapshot", {})])

  const EXFILTRATION := Playbook(
    {"block_destination", "restrict_identity"},
    [("Block destination", {"block_destination"}),
     ("Disable account", {"restrict_identity"}),
     ("Preserve evidence", {}),
     ("Escalate incident", {})])

  /** The estimated risk reduction of an action; an unknown action reduces nothing. */
  function Reduction(action: string): nat {
    if action == "Revoke active sessions" then 12
    else if action == "Force password reset" then 10
    else if action == "Block source IP" then 8
    else if action == "Isolate host" then 20
    else if action == "Kill suspicious process" then 8
    else if action == "Block destination" then 12
    else if action == "Disable account" then 15
    else 0
  }

  // ---- Classification and playbook selection ----------------------------------------------------

  function InferType(flags: set<string>): Kind {
    if "IMPOSSIBLE_TRAVEL" in flags && flags * {"MFA_FATIGUE", "NEW_DEVICE"} != {} then Credential
    else if "SUSPICIOUS_POWERSHELL" in flags && flags * {"CREDENTIAL_ACCESS", "KNOWN_MALICIOUS_IP"} != {} then Endpoint
    else if
      && "UNUSUAL_EGRESS" in flags
      && flags * {"SENSITIVE_RESOURCE_ACCESS", "MASS_DOWNLOAD", "DATA_EXFILTRATION"} != {}
    then Exfiltration
    else Suspicious
  }

  function SelectPlaybook(flags: set<string>): Option<Playbook> {
    if "IMPOSSIBLE_TRAVEL" in flags && flags * {"MFA_FATIGUE", "NEW_DEVICE"} != {} then Some(CREDENTIAL)
    else if "SUSPICIOUS_POWERSHELL" in flags && flags * {"CREDENTIAL_ACCESS", "KNOWN_MALICIOUS_IP"} != {} then
      Some(ENDPOINT)
    else if
      && "UNUSUAL_EGRESS" in flags
      && flags * {"SENSITIVE_RESOURCE_ACCESS", "MASS_DOWNLOAD", "DATA_EXFILTRATION"} != {}
    then Some(EXFILTRATION)
    else None
  }

  function PlaybookOf(kind: Kind): Option<Playbook> {
    match kind
    case Suspicious => None
    case Exfiltration => Some(EXFILTRATION)
    case Endpoint => Some(ENDPOINT)
    case Credential => Some(CREDENTIAL)
  }

  /** The two condition chains agree, so the playbook is a function of the incident type. */
  lemma SelectionAgrees(flags: set<string>)
    ensures SelectPlaybook(flags) == PlaybookOf(InferType(flags))
  {
  }

  /** More evidence never makes the classification less specific. */
  lemma MoreFlagsRankHigher(flags: set<string>, more: set<string>)
    requires flags <= more
    ensures Rank(InferType(flags)) <= Rank(InferType(more))
  {
  }

  function Fresh(entry: (string, set<string>)): Recommendation {
    Recommendation(entry.0, Reduction(entry.0), entry.1, Pending, None, None)
  }

  function Template(kind: Kind): seq<Recommendation> {
    match PlaybookOf(kind)
    case None => []
    case Some(p) => seq(|p.actions|, i requires 0 <= i < |p.actions| => Fresh(p.actions[i]))
  }

  function Recommend(flags: set<string>): seq<Recommendation> {
    match SelectPlaybook(flags)
    case None => []
    case Some(p) => seq(|p.actions|, i requires 0 <= i < |p.actions| => Fresh(p.actions[i]))
  }

  lemma RecommendationsFollowType(flags: set<string>)
    ensures Recommend(flags) == Template(InferType(flags))
  {
  }

  /** Each action of a playbook occurs once, with its own reduction. */
  ghost predicate Distinct(actions: seq<Recommendation>) {
    forall i, j :: 0 <= i < j < |actions| ==> actions[i].action != actions[j].action
  }

  lemma TemplateDistinct(kind: Kind)
    ensures Distinct(Template(kind))
  {
  }

  predicate ColonFree(s: string) {
    ':' !in s
  }

  lemma CredentialColonFree()
    ensures forall i :: 0 <= i < |CREDENTIAL.actions| ==> ColonFree(CREDENTIAL.actions[i].0)
  {
  }

  lemma EndpointColonFree()
    ensures forall i :: 0 <= i < |ENDPOINT.actions| ==> ColonFree(ENDPOINT.actions[i].0)
  {
  }

  lemma ExfiltrationColonFree()
    ensures forall i :: 0 <= i < |EXFILTRATION.actions| ==> ColonFree(EXFILTRATION.actions[i].0)
  {
  }

  /** No recommended action contains the separator of idempotency keys; its points are its reduction. */
  lemma TemplateActions(kind: Kind)
    ensures forall i :: 0 <= i < |Template(kind)| ==>
              ColonFree(Template(kind)[i].action) && Template(kind)[i].points == Reduction(Template(kind)[i].action)
  {
    CredentialColonFree();
    EndpointColonFree();
    ExfiltrationColonFree();
  }

  // ---- Containment ------------------------------------------------------------------------------

  function Covered(actions: seq<Recommendation>): set<string> {
    if actions == [] then {}
    else
      var last := actions[|actions| - 1];
      Covered(actions[..|actions| - 1]) + if last.status == Executed then last.objectives else {}
  }

  datatype Progress = Progress(completed: nat, required: nat)

  function ContainmentProgress(flags: set<string>, actions: seq<Recommendation>): Progress {
    match SelectPlaybook(flags)
    case None => Progress(0, 0)
    case Some(p) => Progress(|Covered(actions) * p.required|, |p.required|)
  }

  /** There are required objectives, and all of them are completed. */
  predicate ObjectivesMet(progress: Progress) {
    progress.required != 0 && progress.completed == progress.required
  }

  lemma {:induction false} CoveredMeaning(actions: seq<Recommendation>, objective: string)
    ensures objective in Covered(actions)
            <==> exists i :: 0 <= i < |actions| && actions[i].status == Executed && objective in actions[i].objectives
  {
    if actions == [] {
    } else {
      var n := |actions| - 1;
      CoveredMeaning(actions[..n], objective);
      if objective in Covered(actions[..n]) {
        var i :| 0 <= i < n && actions[..n][i].status == Executed && objective in actions[..n][i].objectives;
        assert actions[i] == actions[..n][i];
      }
      if i :| 0 <= i < n && actions[i].status == Executed && objective in actions[i].objectives {
        assert actions[..n][i] == actions[i];
      }
    }
  }

  lemma SubsetOfSameSize<T>(a: set<T>, b: set<T>)
    requires a <= b && |a| == |b|
    ensures a == b
  {
    assert b == a + (b - a);
    assert |b - a| == |b| - |a|;
  }

  /** The counts are equal exactly when a playbook applies and executed actions cover all it requires. */
  lemma ContainedIff(flags: set<string>, actions: seq<Recommendation>)
    ensures ObjectivesMet(ContainmentProgress(flags, actions))
            <==> SelectPlaybook(flags).Some? && SelectPlaybook(flags).value.required <= Covered(actions)
  {
    if SelectPlaybook(flags).Some? {
      var required := SelectPlaybook(flags).value.required;
      assert "secure_identity" in required || "isolate_host" in required || "restrict_identity" in required;
      if ObjectivesMet(ContainmentProgress(flags, actions)) {
        SubsetOfSameSize(Covered(actions) * required, required);
      }
      if required <= Covered(actions) {
        assert Covered(actions) * required == required;
      }
    }
  }

  /** Each playbook requires one of these objectives, and only actions of high impact provide them. */
  const DECISIVE := {"invalidate_session", "isolate_host", "block_destination"}

  const HIGH_IMPACT := 12

  lemma DecisiveActions(kind: Kind, n: nat)
    requires n < |Template(kind)| && Template(kind)[n].objectives * DECISIVE != {}
    ensures Template(kind)[n].points >= HIGH_IMPACT
  {
  }

  lemma PlaybookIsDecisive(flags: set<string>) returns (objective: string)
    requires SelectPlaybook(flags).Some?
    ensures objective in DECISIVE && objective in SelectPlaybook(flags).value.required
  {
    objective :=
      match InferType(flags)
      case Credential => "invalidate_session"
      case Endpoint => "isolate_host"
      case Exfiltration => "block_destination"
      case Suspicious => "";
    SelectionAgrees(flags);
  }

  /** Nothing is contained by low-impact actions alone. */
  lemma ContainmentNeedsHighImpact(flags: set<string>, actions: seq<Recommendation>, kind: Kind) returns (n: nat)
    requires SameShape(actions, Template(kind)) && ObjectivesMet(ContainmentProgress(flags, actions))
    ensures n < |actions| && actions[n].status == Executed && actions[n].points >= HIGH_IMPACT
  {
    ContainedIff(flags, actions);
    var o := PlaybookIsDecisive(flags);
    CoveredMeaning(actions, o);
    n :| 0 <= n < |actions| && actions[n].status == Executed && o in actions[n].objectives;
    assert o in Template(kind)[n].objectives * DECISIVE;
    DecisiveActions(kind, n);
  }

  // ---- Residual risk ----------------------------------------------------------------------------

  function ExecutedPoints(actions: seq<Recommendation>): nat {
    if actions == [] then 0
    else
      var last := actions[|actions| - 1];
      ExecutedPoints(actions[..|actions| - 1]) + if last.status == Executed then Reduction(last.action) else 0
  }

  function Residual(original: int, actions: seq<Recommendation>): int {
    Max(0, original - ExecutedPoints(actions))
  }

  lemma {:induction false} NothingExecuted(actions: seq<Recommendation>)
    requires forall i :: 0 <= i < |actions| ==> actions[i].status == Pending
    ensures ExecutedPoints(actions) == 0 && Covered(actions) == {}
  {
    if actions == [] {
    } else {
      NothingExecuted(actions[..|actions| - 1]);
    }
  }

  lemma TemplateIsPending(kind: Kind)
    ensures ExecutedPoints(Template(kind)) == 0 && Covered(Template(kind)) == {}
  {
    NothingExecuted(Template(kind));
  }

  /** Executing a pending action takes exactly its reduction off, and covers exactly its objectives. */
  lemma {:induction false} ExecutingOne(actions: seq<Recommendation>, k: nat, done: Recommendation)
    requires k < |actions| && actions[k].status == Pending
    requires done.action == actions[k].action && done.objectives == actions[k].objectives && done.status == Executed
    ensures ExecutedPoints(actions[k := done]) == ExecutedPoints(actions) + Reduction(actions[k].action)
    ensures Covered(actions[k := done]) == Covered(actions) + actions[k].objectives
  {
    var n := |actions| - 1;
    if k < n {
      ExecutingOne(actions[..n], k, done);
      assert actions[k := done][..n] == actions[..n][k := done];
    } else {
      assert actions[k := done][..n] == actions[..n];
    }
  }

  // ---- The tables and the points, told outright -----------------------------------------------------

  function Offered(action: string, points: nat, objectives: set<string>): Recommendation {
    Recommendation(action, points, objectives, Pending, None, None)
  }

  /** The playbook of each type, with the reduction of each of its ten actions. */
  lemma Playbooks()
    ensures Template(Credential)
            == [Offered("Revoke active sessions", 12, {"invalidate_session"}),
                Offered("Disable account", 15, {"secure_identity"}),
                Offered("Force password reset", 10, {"secure_identity"}),
                Offered("Block source IP", 8, {"block_known_source"}),
                Offered("Escalate incident", 0, {})]
    ensures Template(Endpoint)
            == [Offered("Isolate host", 20, {"isolate_host"}),
                Offered("Kill suspicious process", 8, {"stop_malicious_execution"}),
                Offered("Block destination", 12, {"block_destination"}),
                Offered("Collect forensic snapshot", 0, {})]
    ensures Template(Exfiltration)
            == [Offered("Block destination", 12, {"block_destination"}),
                Offered("Disable account", 15, {"restrict_identity"}),
                Offered("Preserve evidence", 0, {}),
                Offered("Escalate incident", 0, {})]
    ensures Template(Suspicious) == []
  {
  }

  /** The type, told flag by flag. */
  lemma TypeIff(flags: set<string>)
    ensures InferType(flags) == Credential
            <==> "IMPOSSIBLE_TRAVEL" in flags && ("MFA_FATIGUE" in flags || "NEW_DEVICE" in flags)
    ensures InferType(flags) == Endpoint
            <==> InferType(flags) != Credential && "SUSPICIOUS_POWERSHELL" in flags
                 && ("CREDENTIAL_ACCESS" in flags || "KNOWN_MALICIOUS_IP" in flags)
    ensures InferType(flags) == Exfiltration
            <==> InferType(flags) != Credential && InferType(flags) != Endpoint && "UNUSUAL_EGRESS" in flags
                 && ("SENSITIVE_RESOURCE_ACCESS" in flags || "MASS_DOWNLOAD" in flags || "DATA_EXFILTRATION" in flags)
  {
    MeetsPair(flags, "MFA_FATIGUE", "NEW_DEVICE");
    MeetsPair(flags, "CREDENTIAL_ACCESS", "KNOWN_MALICIOUS_IP");
    var third := {"SENSITIVE_RESOURCE_ACCESS", "MASS_DOWNLOAD", "DATA_EXFILTRATION"};
    if f :| f in flags * third {
    }
    assert "SENSITIVE_RESOURCE_ACCESS" in flags ==> "SENSITIVE_RESOURCE_ACCESS" in flags * third;
    assert "MASS_DOWNLOAD" in flags ==> "MASS_DOWNLOAD" in flags * third;
    assert "DATA_EXFILTRATION" in flags ==> "DATA_EXFILTRATION" in flags * third;
  }

  lemma MeetsPair(flags: set<string>, a: string, b: string)
    ensures flags * {a, b} != {} <==> a in flags || b in flags
  {
    assert a in flags ==> a in flags * {a, b};
    assert b in flags ==> b in flags * {a, b};
  }

  /** The playbook of the flags applies, and executed actions provide both objectives it requires. */
  ghost predicate Mitigated(flags: set<string>, actions: seq<Recommendation>) {
    match InferType(flags)
    case Suspicious => false
    case Exfiltration => Provided(actions, "block_destination") && Provided(actions, "restrict_identity")
    case Endpoint => Provided(actions, "isolate_host") && Provided(actions, "stop_malicious_execution")
    case Credential => Provided(actions, "invalidate_session") && Provided(actions, "secure_identity")
  }

  ghost predicate Provided(actions: seq<Recommendation>, objective: string) {
    exists i :: 0 <= i < |actions| && actions[i].status == Executed && objective in actions[i].objectives
  }

  lemma MitigatedIff(flags: set<string>, actions: seq<Recommendation>)
    ensures ObjectivesMet(ContainmentProgress(flags, actions)) <==> Mitigated(flags, actions)
  {
    ContainedIff(flags, actions);
    SelectedRequires(flags);
    forall o | o in RequiredOf(InferType(flags)) ensures o in Covered(actions) <==> Provided(actions, o) {
      CoveredMeaning(actions, o);
    }
  }

  /** The points of the executed actions. */
  function Taken(actions: seq<Recommendation>): nat {
    if actions == [] then 0
    else (if actions[0].status == Executed then actions[0].points else 0) + Taken(actions[1..])
  }

  lemma {:induction false} TakenSnoc(actions: seq<Recommendation>, a: Recommendation)
    ensures Taken(actions + [a]) == Taken(actions) + if a.status == Executed then a.points else 0
  {
    if actions == [] {
      assert [a][1..] == [];
    } else {
      assert (actions + [a])[1..] == actions[1..] + [a];
      TakenSnoc(actions[1..], a);
    }
  }

  lemma {:induction false} TakenIs(actions: seq<Recommendation>)
    requires forall i :: 0 <= i < |actions| ==> actions[i].points == Reduction(actions[i].action)
    ensures Taken(actions) == ExecutedPoints(actions)
  {
    if actions == [] {
    } else {
      var n := |actions| - 1;
      assert actions == actions[..n] + [actions[n]];
      TakenIs(actions[..n]);
      TakenSnoc(actions[..n], actions[n]);
    }
  }

  /** What is left is the risk less the points of the executed actions, and no less than 0. */
  lemma ResidualIs(risk: int, kind: Kind, actions: seq<Recommendation>)
    requires SameShape(actions, Template(kind))
    ensures Residual(risk, actions) == Max(0, risk - Taken(actions))
  {
    TemplateActions(kind);
    TakenIs(actions);
  }

  /** Executing one more action takes its points off, down to 0. */
  lemma ResidualFalls(risk: int, kind: Kind, actions: seq<Recommendation>, k: nat, done: Recommendation)
    requires SameShape(actions, Template(kind)) && k < |actions| && actions[k].status == Pending
    requires done.action == actions[k].action && done.objectives == actions[k].objectives && done.status == Executed
    ensures Residual(risk, actions[k := done]) == Max(0, Residual(risk, actions) - actions[k].points)
  {
    TemplateActions(kind);
    ExecutingOne(actions, k, done);
  }

  // ---- Which action can be the last one ---------------------------------------------------------

  function AsExecuted(a: Recommendation): Recommendation {
    a.(status := Executed)
  }

  /** On an action list of some type, executing the pending action `k` turns the objectives from unmet to met. */
  ghost predicate CompletesAt(flags: set<string>, kind: Kind, actions: seq<Recommendation>, k: nat) {
    && SameShape(actions, Template(kind)) && k < |actions| && actions[k].status == Pending
    && !ObjectivesMet(ContainmentProgress(flags, actions))
    && ObjectivesMet(ContainmentProgress(flags, actions[k := AsExecuted(actions[k])]))
  }

  function RequiredOf(kind: Kind): set<string> {
    match kind
    case Suspicious => {}
    case Exfiltration => EXFILTRATION.required
    case Endpoint => ENDPOINT.required
    case Credential => CREDENTIAL.required
  }

  /** The action that completes containment provides a required objective; and the list is that of the flags' type. */
  lemma LastActionCounts(flags: set<string>, kind: Kind, actions: seq<Recommendation>, k: nat)
    requires CompletesAt(flags, kind, actions, k)
    ensures kind == InferType(flags) && Template(kind)[k].objectives * RequiredOf(kind) != {}
  {
    var after := actions[k := AsExecuted(actions[k])];
    ContainedIff(flags, actions);
    ContainedIff(flags, after);
    ExecutingOne(actions, k, AsExecuted(actions[k]));
    SelectedRequires(flags);
    OwnObjectivesOnly(kind, InferType(flags), after);
    NewlyCovered(RequiredOf(kind), Covered(actions), actions[k].objectives);
  }

  lemma SelectedRequires(flags: set<string>)
    ensures SelectPlaybook(flags) == PlaybookOf(InferType(flags))
    ensures SelectPlaybook(flags).Some? ==> SelectPlaybook(flags).value.required == RequiredOf(InferType(flags))
  {
  }

  lemma NewlyCovered(required: set<string>, covered: set<string>, more: set<string>)
    requires required <= covered + more && !(required <= covered)
    ensures more * required != {}
  {
    var missing :| missing in required && missing !in covered;
    assert missing in more * required;
  }

  /** The actions of one type do not cover what another type requires. */
  lemma OwnObjectivesOnly(kind: Kind, other: Kind, actions: seq<Recommendation>)
    requires SameShape(actions, Template(kind)) && PlaybookOf(other).Some? && RequiredOf(other) <= Covered(actions)
    ensures kind == other
  {
    var telling := match other
      case Credential => "invalidate_session"
      case Endpoint => "isolate_host"
      case _ => "restrict_identity";
    assert telling in RequiredOf(other);
    CoveredMeaning(actions, telling);
    var i :| 0 <= i < |actions| && actions[i].status == Executed && telling in actions[i].objectives;
    assert telling in Template(kind)[i].objectives;
    TellingObjective(kind, i, telling);
  }

  lemma TellingObjective(kind: Kind, i: nat, telling: string)
    requires i < |Template(kind)| && telling in Template(kind)[i].objectives
    ensures telling == "invalidate_session" ==> kind == Credential
    ensures telling == "isolate_host" ==> kind == Endpoint
    ensures telling == "restrict_identity" ==> kind == Exfiltration
  {
  }

  /** The low-impact actions that provide a required objective. */
  lemma LowImpactProviders(kind: Kind, k: nat)
    requires k < |Template(kind)| && Template(kind)[k].objectives * RequiredOf(kind) != {}
    ensures Template(kind)[k].points < HIGH_IMPACT
       <==> || (kind == Endpoint && Template(kind)[k].action == "Kill suspicious process")
            || (kind == Credential && Template(kind)[k].action == "Force password reset")
  {
  }

  /**
   The action that completes containment is a low-impact one exactly if it kills the process on an
   endpoint incident or resets the password on a credential incident.
   */
  lemma LowImpactCompletesIff(flags: set<string>, kind: Kind, actions: seq<Recommendation>, k: nat)
    requires CompletesAt(flags, kind, actions, k)
    ensures kind == InferType(flags)
    ensures actions[k].points < HIGH_IMPACT
       <==> || (kind == Endpoint && actions[k].action == "Kill suspicious process")
            || (kind == Credential && actions[k].action == "Force password reset")
  {
    LastActionCounts(flags, kind, actions, k);
    LowImpactProviders(kind, k);
  }

  ghost predicate LowImpactCompletes(flags: set<string>, kind: Kind, actions: seq<Recommendation>, k: nat) {
    CompletesAt(flags, kind, actions, k) && actions[k].points < HIGH_IMPACT
  }

  lemma OneExecuted(kind: Kind)
    requires Template(kind) != []
    ensures var actions := Template(kind)[0 := AsExecuted(Template(kind)[0])];
            && Covered(actions) == Template(kind)[0].objectives && SameShape(actions, Template(kind))
            && forall i :: 0 < i < |actions| ==> actions[i].status == Pending
  {
    TemplateIsPending(kind);
    ExecutingOne(Template(kind), 0, AsExecuted(Template(kind)[0]));
  }

  /** With the first action executed, the given one completes containment. */
  lemma SecondCompletes(flags: set<string>, kind: Kind, k: nat)
    requires kind == InferType(flags) && 0 < k < |Template(kind)|
    requires !(RequiredOf(kind) <= Template(kind)[0].objectives) && PlaybookOf(kind).Some?
    requires RequiredOf(kind) <= Template(kind)[0].objectives + Template(kind)[k].objectives
    ensures CompletesAt(flags, kind, Template(kind)[0 := AsExecuted(Template(kind)[0])], k)
  {
    var actions := Template(kind)[0 := AsExecuted(Template(kind)[0])];
    SelectedRequires(flags);
    OneExecuted(kind);
    ExecutingOne(actions, k, AsExecuted(actions[k]));
    ContainedIff(flags, actions);
    ContainedIff(flags, actions[k := AsExecuted(actions[k])]);
  }

  lemma LowImpactSecond(flags: set<string>) returns (actions: seq<Recommendation>, k: nat)
    requires InferType(flags) in {Endpoint, Credential}
    ensures LowImpactCompletes(flags, InferType(flags), actions, k)
  {
    var kind := InferType(flags);
    actions, k := Template(kind)[0 := AsExecuted(Template(kind)[0])], if kind == Endpoint then 1 else 2;
    SecondCompletes(flags, kind, k);
    LowImpactCompletesIff(flags, kind, actions, k);
  }

  /** Low-impact actions can complete containment exactly on endpoint and credential incidents. */
  lemma LowImpactCanCompleteIff(flags: set<string>)
    ensures (exists kind, actions, k :: LowImpactCompletes(flags, kind, actions, k))
       <==> InferType(flags) in {Endpoint, Credential}
  {
    if kind, actions, k :| LowImpactCompletes(flags, kind, actions, k) {
      LowImpactCompletesIff(flags, kind, actions, k);
    }
    if InferType(flags) in {Endpoint, Credential} {
      var actions, k := LowImpactSecond(flags);
    }
  }

  // ---- Carrying statuses over ---------------------------------------------------------------------

  /** The prior entry of that name; of several, the last. */
  function Prior(prior: seq<Recommendation>, name: string): Option<Recommendation> {
    if prior == [] then None
    else
      var last := prior[|prior| - 1];
      if last.action == name then Some(last) else Prior(prior[..|prior| - 1], name)
  }

  /** Copies status, time and analyst from the prior action of the same name. */
  function CarryOne(prior: seq<Recommendation>, a: Recommendation): Recommendation {
    match Prior(prior, a.action)
    case None => a
    case Some(p) => a.(status := p.status, executedAt := p.executedAt, analyst := p.analyst)
  }

  function Carry(prior: seq<Recommendation>, actions: seq<Recommendation>): seq<Recommendation> {
    seq(|actions|, i requires 0 <= i < |actions| => CarryOne(prior, actions[i]))
  }

  /** The same actions in the same order, whatever their status. */
  ghost predicate SameShape(a: seq<Recommendation>, b: seq<Recommendation>) {
    && |a| == |b|
    && forall i :: 0 <= i < |a| ==>
         a[i].action == b[i].action && a[i].points == b[i].points && a[i].objectives == b[i].objectives
  }

  lemma {:induction false} PriorFound(prior: seq<Recommendation>, k: nat)
    requires k < |prior| && Distinct(prior)
    ensures Prior(prior, prior[k].action) == Some(prior[k])
  {
    var n := |prior| - 1;
    if k < n {
      PriorFound(prior[..n], k);
    }
  }

  /** Enrichment without reclassification keeps every action exactly as it was. */
  lemma CarryRestores(prior: seq<Recommendation>, kind: Kind)
    requires SameShape(prior, Template(kind))
    ensures Carry(prior, Template(kind)) == prior
  {
    TemplateDistinct(kind);
    forall i | 0 <= i < |prior| ensures Carry(prior, Template(kind))[i] == prior[i] {
      PriorFound(prior, i);
    }
  }

  lemma CarryNothing(actions: seq<Recommendation>)
    ensures Carry([], actions) == actions
  {
  }
}
