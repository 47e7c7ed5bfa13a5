/** How records are written to the database as JSON objects and read back
    (the `_to_dict` and `_from_dict` functions of sqlite_repositories.py). */
module Codec {
  import opened Basics
  import opened Models
  import Policy
  import Protocol
  import Invariant
  import Runs

  // ------------------------------------------------------------ stored text

  datatype SourceType = FromDocument | FromManual | FromIntegration

  datatype DraftStatus = Drafted | DraftApproved | DraftRejected | DraftExecuted

  /** A member of one of the enumerations, which is stored under its name. */
  datatype Member =
    | SourceMember(source: SourceType) | WorkTypeMember(workType: WorkType) | PriorityMember(priority: WorkItemPriority)
    | ItemStatusMember(itemStatus: WorkItemStatus) | ActionMember(action: ActionType)
    | RiskMember(risk: ActionRiskLevel)
    | StepStatusMember(stepStatus: ActionStepStatus) | DraftTypeMember(draftType: DraftType)
    | DraftStatusMember(draftStatus: DraftStatus) | ApprovalStatusMember(approvalStatus: ApprovalStatus)
    | AutonomyMember(autonomy: Policy.AutonomyLevel)

  /** A JSON value. Text that a printer produced is kept with what its parser gives back. */
  datatype Json =
    | JNull
    | JText(text: string)
    | JUuid(id: Id)
    | JInstant(at: Time)
    | JDigest(digest: Fingerprint)
    | JMember(member: Member)
    | JBool(flag: bool)
    | JList(items: seq<Json>)
    | JContext(entries: map<ContextKey, ContextValue>)
    | JObject(fields: map<Field, Json>)

  datatype Field =
    | FId | FWorkspace | FWorkItem | FActionStep | FDraft | FDocument | FAgentRun
    | FTitle | FSourceType | FWorkType | FPriority | FStatus | FLinkedDocuments | FContext | FCurrentPlan
    | FKey | FFingerprint | FCreatedAt | FUpdatedAt
    | FPlannerVersion | FSteps | FConfidence | FEscalation
    | FActionType | FRisk | FTool | FRequiresApproval | FWhyThis | FWhyNot
    | FDraftType | FPreview | FRequestedBy | FReviewedBy | FNotes | FReviewedAt
    | FAutonomy | FAllowed | FRequiresConfirmation | FReason | FEventType | FActor | FSummary

  /** What reading gives: a value, or an exception. */
  datatype Read<+T> = Good(value: T) | Bad
  {
    predicate IsFailure() { Bad? }

    function PropagateFailure<U>(): Read<U>
      requires Bad?
    {
      Bad
    }

    function Extract(): T
      requires Good?
    {
      value
    }
  }

  /** Python's truth value of a JSON value. */
  predicate Truth(j: Json) {
    match j
    case JNull => false
    case JText(t) => t != ""
    case JBool(b) => b
    case JList(items) => items != []
    case JContext(entries) => entries != map[]
    case JObject(fields) => fields != map[]
    case _ => true
  }

  function Fields(j: Json): Read<map<Field, Json>> {
    if j.JObject? then Good(j.fields) else Bad
  }

  /** `value["key"]` */
  function Need(d: map<Field, Json>, f: Field): Read<Json> {
    if f in d then Good(d[f]) else Bad
  }

  /** `value.get("key")` */
  function Get(d: map<Field, Json>, f: Field): Json {
    if f in d then d[f] else JNull
  }

  function ReadText(j: Json): Read<string> { if j.JText? then Good(j.text) else Bad }

  function ReadUuid(j: Json): Read<Id> { if j.JUuid? then Good(j.id) else Bad }

  function ReadInstant(j: Json): Read<Time> { if j.JInstant? then Good(j.at) else Bad }

  function ReadDigest(j: Json): Read<Fingerprint> { if j.JDigest? then Good(j.digest) else Bad }

  function ReadMember(j: Json): Read<Member> { if j.JMember? then Good(j.member) else Bad }

  /** `read(x) if x else None` */
  function Maybe<T>(j: Json, read: Json -> Read<T>): Read<Option<T>> {
    if !Truth(j) then Good(None)
    else
      var v :- read(j);
      Good(Some(v))
  }

  function Text(t: Option<string>): Json { if t.Some? then JText(t.value) else JNull }

  function Uuid(id: Option<Id>): Json { if id.Some? then JUuid(id.value) else JNull }

  function Digest(f: Option<Fingerprint>): Json { if f.Some? then JDigest(f.value) else JNull }

  function Instant(t: Option<Time>): Json { if t.Some? then JInstant(t.value) else JNull }

  /** What storing does to an optional text: an empty one comes back as None. */
  function Stored(t: Option<string>): Option<string> {
    if t == Some("") then None else t
  }

  function Kind(w: Option<WorkType>): Json { if w.Some? then JMember(WorkTypeMember(w.value)) else JNull }

  function ReadWorkType(j: Json): Read<WorkType> {
    if j.JMember? && j.member.WorkTypeMember? then Good(j.member.workType) else Bad
  }

  lemma {:induction false} OptionalsRoundTrip()
    ensures forall t {:trigger Text(t)} :: Maybe(Text(t), ReadText) == Good(Stored(t))
    ensures forall id {:trigger Uuid(id)} :: Maybe(Uuid(id), ReadUuid) == Good(id)
    ensures forall f {:trigger Digest(f)} :: Maybe(Digest(f), ReadDigest) == Good(f)
    ensures forall t {:trigger Instant(t)} :: Maybe(Instant(t), ReadInstant) == Good(t)
    ensures forall w {:trigger Kind(w)} :: Maybe(Kind(w), ReadWorkType) == Good(w)
  {
  }

  // ------------------------------------------------------------ work items

  datatype ItemRecord = ItemRecord(item: WorkItem, source: SourceType, createdAt: Time)

  function DocumentList(documents: seq<Id>): seq<Json> {
    if documents == [] then [] else DocumentList(documents[..|documents| - 1]) + [JUuid(documents[|documents| - 1])]
  }

  function ReadDocuments(items: seq<Json>): Read<seq<Id>> {
    if items == [] then Good([])
    else
      var front :- ReadDocuments(items[..|items| - 1]);
      var last :- ReadUuid(items[|items| - 1]);
      Good(front + [last])
  }

  function ItemToDict(r: ItemRecord): Json {
    var item := r.item;
    JObject(map[
      FId := JUuid(item.id), FWorkspace := JText(item.workspace), FTitle := JText(item.title),
      FSourceType := JMember(SourceMember(r.source)),
      FWorkType := Kind(item.workType),
      FPriority := JMember(PriorityMember(item.priority)), FStatus := JMember(ItemStatusMember(item.status)),
      FLinkedDocuments := JList(DocumentList(item.linkedDocuments)), FContext := JContext(item.context),
      FCurrentPlan := Uuid(item.currentPlan), FKey := Text(item.idempotencyKey),
      FFingerprint := Digest(item.fingerprint),
      FCreatedAt := JInstant(r.createdAt), FUpdatedAt := JInstant(item.updatedAt)])
  }

  function ItemFromDict(j: Json): Read<ItemRecord> {
    var d :- Fields(j);
    var id :- ReadUuid(Get(d, FId));
    var workspace :- ReadText(Get(d, FWorkspace));
    var title :- ReadText(Get(d, FTitle));
    var source :- ReadMember(Get(d, FSourceType));
    var workType :- Maybe(Get(d, FWorkType), ReadWorkType);
    var priority :- ReadMember(Get(d, FPriority));
    var status :- ReadMember(Get(d, FStatus));
    var listed :- Need(d, FLinkedDocuments);
    var documents :- if listed.JList? then ReadDocuments(listed.items) else Bad;
    var context :- Need(d, FContext);
    var plan :- Maybe(Get(d, FCurrentPlan), ReadUuid);
    var key :- Maybe(Get(d, FKey), ReadText);
    var fingerprint :- Maybe(Get(d, FFingerprint), ReadDigest);
    var createdAt :- ReadInstant(Get(d, FCreatedAt));
    var updatedAt :- ReadInstant(Get(d, FUpdatedAt));
    if !source.SourceMember? || !priority.PriorityMember? || !status.ItemStatusMember? || !context.JContext? then Bad
    else
      Good(ItemRecord(WorkItem(id, workspace, title, workType, priority.priority, status.itemStatus, documents,
                               context.entries, plan, key, fingerprint, updatedAt),
                      source.source, createdAt))
  }

  lemma {:induction false} DocumentsRoundTrip(documents: seq<Id>)
    ensures ReadDocuments(DocumentList(documents)) == Good(documents)
  {
    if documents != [] {
      var front := documents[..|documents| - 1];
      DocumentsRoundTrip(front);
      var list := DocumentList(front);
      assert (list + [JUuid(documents[|documents| - 1])])[..|list|] == list;
      assert documents == front + [documents[|documents| - 1]];
    }
  }

  function ItemAsStored(r: ItemRecord): ItemRecord {
    r.(item := r.item.(idempotencyKey := Stored(r.item.idempotencyKey)))
  }

  lemma {:induction false} ItemRoundTrip(r: ItemRecord)
    ensures ItemFromDict(ItemToDict(r)) == Good(ItemAsStored(r))
  {
    hide Maybe, Text, Uuid, Digest, Kind, Stored, DocumentList, ReadDocuments;
    OptionalsRoundTrip();
    DocumentsRoundTrip(r.item.linkedDocuments);
  }

  // ------------------------------------------------------------ steps and plans

  datatype StepRecord = StepRecord(step: ActionStep, tool: Option<string>, whyThis: Option<string>,
                                   whyNot: Option<string>, createdAt: Time)

  function StepToDict(r: StepRecord): Json {
    JObject(map[
      FId := JUuid(r.step.id), FActionType := JMember(ActionMember(r.step.action)),
      FRisk := JMember(RiskMember(r.step.risk)),
      FTool := Text(r.tool), FRequiresApproval := JBool(r.step.requiresApproval),
      FStatus := JMember(StepStatusMember(r.step.status)), FWhyThis := Text(r.whyThis), FWhyNot := Text(r.whyNot),
      FCreatedAt := JInstant(r.createdAt), FUpdatedAt := JInstant(r.step.updatedAt)])
  }

  function StepFromDict(j: Json): Read<StepRecord> {
    var d :- Fields(j);
    var id :- ReadUuid(Get(d, FId));
    var action :- ReadMember(Get(d, FActionType));
    var risk :- ReadMember(Get(d, FRisk));
    var tool :- Maybe(Get(d, FTool), ReadText);
    var requires_ :- Need(d, FRequiresApproval);
    var status :- ReadMember(Get(d, FStatus));
    var whyThis :- Maybe(Get(d, FWhyThis), ReadText);
    var whyNot :- Maybe(Get(d, FWhyNot), ReadText);
    var createdAt :- ReadInstant(Get(d, FCreatedAt));
    var updatedAt :- ReadInstant(Get(d, FUpdatedAt));
    if !action.ActionMember? || !risk.RiskMember? || !status.StepStatusMember? then Bad
    else
      Good(StepRecord(ActionStep(id, action.action, risk.risk, Truth(requires_), status.stepStatus, updatedAt),
                      tool, whyThis, whyNot, createdAt))
  }

  function StepAsStored(r: StepRecord): StepRecord {
    r.(tool := Stored(r.tool), whyThis := Stored(r.whyThis), whyNot := Stored(r.whyNot))
  }

  lemma {:induction false} StepRoundTrip(r: StepRecord)
    ensures StepFromDict(StepToDict(r)) == Good(StepAsStored(r))
  {
    hide Maybe, Text, Stored;
    OptionalsRoundTrip();
  }

  datatype PlanRecord = PlanRecord(
    id: Id, workspace: string, itemId: Id, plannerVersion: string, steps: seq<StepRecord>, confidence: string,
    escalation: Option<string>, key: Option<string>, fingerprint: Option<Fingerprint>, agentRun: Option<Id>,
    createdAt: Time, updatedAt: Time)

  function StepsToList(steps: seq<StepRecord>): seq<Json> {
    if steps == [] then [] else StepsToList(steps[..|steps| - 1]) + [StepToDict(steps[|steps| - 1])]
  }

  function StepsFromList(items: seq<Json>): Read<seq<StepRecord>> {
    if items == [] then Good([])
    else
      var front :- StepsFromList(items[..|items| - 1]);
      var last :- StepFromDict(items[|items| - 1]);
      Good(front + [last])
  }

  function StepsAsStored(steps: seq<StepRecord>): seq<StepRecord> {
    if steps == [] then [] else StepsAsStored(steps[..|steps| - 1]) + [StepAsStored(steps[|steps| - 1])]
  }

  lemma {:induction false} StepsRoundTrip(steps: seq<StepRecord>)
    ensures StepsFromList(StepsToList(steps)) == Good(StepsAsStored(steps))
  {
    if steps != [] {
      var front, last := steps[..|steps| - 1], steps[|steps| - 1];
      StepsRoundTrip(front);
      StepRoundTrip(last);
      var list := StepsToList(front);
      assert (list + [StepToDict(last)])[..|list|] == list;
    }
  }

  function PlanToDict(r: PlanRecord): Json {
    JObject(map[
      FId := JUuid(r.id), FWorkspace := JText(r.workspace), FWorkItem := JUuid(r.itemId),
      FPlannerVersion := JText(r.plannerVersion), FSteps := JList(StepsToList(r.steps)),
      FConfidence := JText(r.confidence),
      FEscalation := Text(r.escalation), FKey := Text(r.key), FFingerprint := Digest(r.fingerprint),
      FAgentRun := Uuid(r.agentRun), FCreatedAt := JInstant(r.createdAt), FUpdatedAt := JInstant(r.updatedAt)])
  }

  function PlanFromDict(j: Json): Read<PlanRecord> {
    var d :- Fields(j);
    var id :- ReadUuid(Get(d, FId));
    var workspace :- ReadText(Get(d, FWorkspace));
    var itemId :- ReadUuid(Get(d, FWorkItem));
    var plannerVersion :- ReadText(Get(d, FPlannerVersion));
    var listed :- Need(d, FSteps);
    var steps :- if listed.JList? then StepsFromList(listed.items) else Bad;
    var confidence :- ReadText(Get(d, FConfidence));
    var escalation :- Maybe(Get(d, FEscalation), ReadText);
    var key :- Maybe(Get(d, FKey), ReadText);
    var fingerprint :- Maybe(Get(d, FFingerprint), ReadDigest);
    var agentRun :- Maybe(Get(d, FAgentRun), ReadUuid);
    var createdAt :- ReadInstant(Get(d, FCreatedAt));
    var updatedAt :- ReadInstant(Get(d, FUpdatedAt));
    Good(PlanRecord(id, workspace, itemId, plannerVersion, steps, confidence, escalation, key, fingerprint, agentRun,
                    createdAt, updatedAt))
  }

  function PlanAsStored(r: PlanRecord): PlanRecord {
    r.(steps := StepsAsStored(r.steps), escalation := Stored(r.escalation), key := Stored(r.key))
  }

  /** A plan with any number of steps comes back as it was, but for empty optional texts. */
  lemma {:induction false} PlanRoundTrip(r: PlanRecord)
    ensures PlanFromDict(PlanToDict(r)) == Good(PlanAsStored(r))
  {
    hide StepsToList, StepsFromList, StepsAsStored, Maybe, Text, Uuid, Digest, Stored;
    OptionalsRoundTrip();
    StepsRoundTrip(r.steps);
  }

  // ------------------------------------------------------------ the other records

  datatype DraftRecord = DraftRecord(
    id: Id, workspace: string, itemId: Id, stepId: Option<Id>, draftType: DraftType, preview: string,
    status: DraftStatus, createdAt: Time, updatedAt: Time)

  function DraftToDict(r: DraftRecord): Json {
    JObject(map[
      FId := JUuid(r.id), FWorkspace := JText(r.workspace), FWorkItem := JUuid(r.itemId), FActionStep := Uuid(r.stepId),
      FDraftType := JMember(DraftTypeMember(r.draftType)), FPreview := JText(r.preview),
      FStatus := JMember(DraftStatusMember(r.status)), FCreatedAt := JInstant(r.createdAt),
      FUpdatedAt := JInstant(r.updatedAt)])
  }

  function DraftFromDict(j: Json): Read<DraftRecord> {
    var d :- Fields(j);
    var id :- ReadUuid(Get(d, FId));
    var workspace :- ReadText(Get(d, FWorkspace));
    var itemId :- ReadUuid(Get(d, FWorkItem));
    var stepId :- Maybe(Get(d, FActionStep), ReadUuid);
    var draftType :- ReadMember(Get(d, FDraftType));
    var preview :- ReadText(Get(d, FPreview));
    var status :- ReadMember(Get(d, FStatus));
    var createdAt :- ReadInstant(Get(d, FCreatedAt));
    var updatedAt :- ReadInstant(Get(d, FUpdatedAt));
    if !draftType.DraftTypeMember? || !status.DraftStatusMember? then Bad
    else
      Good(DraftRecord(id, workspace, itemId, stepId, draftType.draftType, preview, status.draftStatus, createdAt,
                       updatedAt))
  }

  datatype ApprovalRecord = ApprovalRecord(
    id: Id, workspace: string, itemId: Id, requestedBy: string, stepId: Option<Id>, draftId: Option<Id>,
    status: ApprovalStatus, reviewedBy: Option<string>, notes: Option<string>, reviewedAt: Option<Time>,
    createdAt: Time, updatedAt: Time)

  function ApprovalToDict(r: ApprovalRecord): Json {
    JObject(map[
      FId := JUuid(r.id), FWorkspace := JText(r.workspace), FWorkItem := JUuid(r.itemId),
      FRequestedBy := JText(r.requestedBy), FActionStep := Uuid(r.stepId), FDraft := Uuid(r.draftId),
      FStatus := JMember(ApprovalStatusMember(r.status)), FReviewedBy := Text(r.reviewedBy), FNotes := Text(r.notes),
      FReviewedAt := Instant(r.reviewedAt), FCreatedAt := JInstant(r.createdAt), FUpdatedAt := JInstant(r.updatedAt)])
  }

  function ApprovalFromDict(j: Json): Read<ApprovalRecord> {
    var d :- Fields(j);
    var id :- ReadUuid(Get(d, FId));
    var workspace :- ReadText(Get(d, FWorkspace));
    var itemId :- ReadUuid(Get(d, FWorkItem));
    var requestedBy :- ReadText(Get(d, FRequestedBy));
    var stepId :- Maybe(Get(d, FActionStep), ReadUuid);
    var draftId :- Maybe(Get(d, FDraft), ReadUuid);
    var status :- ReadMember(Get(d, FStatus));
    var reviewedBy :- Maybe(Get(d, FReviewedBy), ReadText);
    var notes :- Maybe(Get(d, FNotes), ReadText);
    var reviewedAt :- Maybe(Get(d, FReviewedAt), ReadInstant);
    var createdAt :- ReadInstant(Get(d, FCreatedAt));
    var updatedAt :- ReadInstant(Get(d, FUpdatedAt));
    if !status.ApprovalStatusMember? then Bad
    else
      Good(ApprovalRecord(id, workspace, itemId, requestedBy, stepId, draftId, status.approvalStatus, reviewedBy, notes,
                          reviewedAt, createdAt, updatedAt))
  }

  function ApprovalAsStored(r: ApprovalRecord): ApprovalRecord {
    r.(reviewedBy := Stored(r.reviewedBy), notes := Stored(r.notes))
  }

  datatype DecisionRecord = DecisionRecord(
    id: Id, workspace: string, itemId: Id, stepId: Option<Id>, action: ActionType, autonomy: Policy.AutonomyLevel,
    risk: ActionRiskLevel, allowed: bool, requiresConfirmation: bool, reason: string, createdAt: Time)

  function DecisionToDict(r: DecisionRecord): Json {
    JObject(map[
      FId := JUuid(r.id), FWorkspace := JText(r.workspace), FWorkItem := JUuid(r.itemId), FActionStep := Uuid(r.stepId),
      FActionType := JMember(ActionMember(r.action)), FAutonomy := JMember(AutonomyMember(r.autonomy)),
      FRisk := JMember(RiskMember(r.risk)), FAllowed := JBool(r.allowed),
      FRequiresConfirmation := JBool(r.requiresConfirmation), FReason := JText(r.reason),
      FCreatedAt := JInstant(r.createdAt)])
  }

  function DecisionFromDict(j: Json): Read<DecisionRecord> {
    var d :- Fields(j);
    var id :- ReadUuid(Get(d, FId));
    var workspace :- ReadText(Get(d, FWorkspace));
    var itemId :- ReadUuid(Get(d, FWorkItem));
    var stepId :- Maybe(Get(d, FActionStep), ReadUuid);
    var action :- ReadMember(Get(d, FActionType));
    var autonomy :- ReadMember(Get(d, FAutonomy));
    var risk :- ReadMember(Get(d, FRisk));
    var allowed :- Need(d, FAllowed);
    var confirmation :- Need(d, FRequiresConfirmation);
    var reason :- ReadText(Get(d, FReason));
    var createdAt :- ReadInstant(Get(d, FCreatedAt));
    if !action.ActionMember? || !autonomy.AutonomyMember? || !risk.RiskMember? then Bad
    else
      Good(DecisionRecord(id, workspace, itemId, stepId, action.action, autonomy.autonomy, risk.risk, Truth(allowed),
                          Truth(confirmation), reason, createdAt))
  }

  datatype EventRecord = EventRecord(
    id: Id, workspace: string, documentId: Option<Id>, itemId: Option<Id>, agentRun: Option<Id>, eventType: string,
    actor: string, summary: string, createdAt: Time)

  function EventToDict(r: EventRecord): Json {
    JObject(map[
      FId := JUuid(r.id), FWorkspace := JText(r.workspace), FDocument := Uuid(r.documentId),
      FWorkItem := Uuid(r.itemId),
      FAgentRun := Uuid(r.agentRun), FEventType := JText(r.eventType), FActor := JText(r.actor),
      FSummary := JText(r.summary), FCreatedAt := JInstant(r.createdAt)])
  }

  function EventFromDict(j: Json): Read<EventRecord> {
    var d :- Fields(j);
    var id :- ReadUuid(Get(d, FId));
    var workspace :- ReadText(Get(d, FWorkspace));
    var documentId :- Maybe(Get(d, FDocument), ReadUuid);
    var itemId :- Maybe(Get(d, FWorkItem), ReadUuid);
    var agentRun :- Maybe(Get(d, FAgentRun), ReadUuid);
    var eventType :- ReadText(Get(d, FEventType));
    var actor :- ReadText(Get(d, FActor));
    var summary :- ReadText(Get(d, FSummary));
    var createdAt :- ReadInstant(Get(d, FCreatedAt));
    Good(EventRecord(id, workspace, documentId, itemId, agentRun, eventType, actor, summary, createdAt))
  }

  // ------------------------------------------------------------ which key holds what

  /** What an optional text, identifier or time is read from. */
  predicate TextAt(d: map<Field, Json>, f: Field, t: Option<string>) {
    if Truth(Get(d, f)) then d[f].JText? && t == Some(d[f].text) else t.None?
  }

  predicate UuidAt(d: map<Field, Json>, f: Field, id: Option<Id>) {
    if Truth(Get(d, f)) then d[f].JUuid? && id == Some(d[f].id) else id.None?
  }

  lemma {:induction false} DocumentsAreReadInOrder(items: seq<Json>)
    requires ReadDocuments(items).Good?
    ensures |ReadDocuments(items).value| == |items|
    ensures forall k :: 0 <= k < |items| ==> items[k] == JUuid(ReadDocuments(items).value[k])
  {
    if items != [] {
      DocumentsAreReadInOrder(items[..|items| - 1]);
    }
  }

  lemma {:induction false} StepsAreReadInOrder(items: seq<Json>)
    requires StepsFromList(items).Good?
    ensures |StepsFromList(items).value| == |items|
    ensures forall k :: 0 <= k < |items| ==> StepFromDict(items[k]) == Good(StepsFromList(items).value[k])
  {
    hide StepFromDict;
    if items != [] {
      StepsAreReadInOrder(items[..|items| - 1]);
    }
  }

  /** Every field of a record is read from the key of its own, whoever wrote the object. */
  lemma {:induction false} ItemIsReadByKey(j: Json)
    requires ItemFromDict(j).Good?
    ensures j.JObject?
    ensures var d, r := j.fields, ItemFromDict(j).value;
            && Get(d, FId) == JUuid(r.item.id) && Get(d, FWorkspace) == JText(r.item.workspace)
            && Get(d, FTitle) == JText(r.item.title) && Get(d, FSourceType) == JMember(SourceMember(r.source))
            && (if Truth(Get(d, FWorkType)) then Get(d, FWorkType) == Kind(r.item.workType) && r.item.workType.Some?
                else r.item.workType.None?)
            && Get(d, FPriority) == JMember(PriorityMember(r.item.priority))
            && Get(d, FStatus) == JMember(ItemStatusMember(r.item.status))
            && Get(d, FContext) == JContext(r.item.context)
            && UuidAt(d, FCurrentPlan, r.item.currentPlan) && TextAt(d, FKey, r.item.idempotencyKey)
            && (if Truth(Get(d, FFingerprint)) then Get(d, FFingerprint) == Digest(r.item.fingerprint)
                else r.item.fingerprint.None?)
            && Get(d, FCreatedAt) == JInstant(r.createdAt) && Get(d, FUpdatedAt) == JInstant(r.item.updatedAt)
            && Get(d, FLinkedDocuments).JList? && |d[FLinkedDocuments].items| == |r.item.linkedDocuments|
            && forall k :: 0 <= k < |r.item.linkedDocuments| ==>
                 d[FLinkedDocuments].items[k] == JUuid(r.item.linkedDocuments[k])
  {
    hide ReadDocuments;
    DocumentsAreReadInOrder(j.fields[FLinkedDocuments].items);
  }

  lemma {:induction false} StepIsReadByKey(j: Json)
    requires StepFromDict(j).Good?
    ensures j.JObject?
    ensures var d, r := j.fields, StepFromDict(j).value;
            && Get(d, FId) == JUuid(r.step.id) && Get(d, FActionType) == JMember(ActionMember(r.step.action))
            && Get(d, FRisk) == JMember(RiskMember(r.step.risk)) && TextAt(d, FTool, r.tool)
            && r.step.requiresApproval == Truth(Get(d, FRequiresApproval))
            && Get(d, FStatus) == JMember(StepStatusMember(r.step.status))
            && TextAt(d, FWhyThis, r.whyThis) && TextAt(d, FWhyNot, r.whyNot)
            && Get(d, FCreatedAt) == JInstant(r.createdAt) && Get(d, FUpdatedAt) == JInstant(r.step.updatedAt)
  {
  }

  lemma {:induction false} PlanIsReadByKey(j: Json)
    requires PlanFromDict(j).Good?
    ensures j.JObject?
    ensures var d, r := j.fields, PlanFromDict(j).value;
            && Get(d, FId) == JUuid(r.id) && Get(d, FWorkspace) == JText(r.workspace)
            && Get(d, FWorkItem) == JUuid(r.itemId) && Get(d, FPlannerVersion) == JText(r.plannerVersion)
            && Get(d, FConfidence) == JText(r.confidence) && TextAt(d, FEscalation, r.escalation)
            && TextAt(d, FKey, r.key) && UuidAt(d, FAgentRun, r.agentRun)
            && (if Truth(Get(d, FFingerprint)) then Get(d, FFingerprint) == Digest(r.fingerprint)
                else r.fingerprint.None?)
            && Get(d, FCreatedAt) == JInstant(r.createdAt) && Get(d, FUpdatedAt) == JInstant(r.updatedAt)
            && Get(d, FSteps).JList? && |d[FSteps].items| == |r.steps|
            && forall k :: 0 <= k < |r.steps| ==> StepFromDict(d[FSteps].items[k]) == Good(r.steps[k])
  {
    hide StepsFromList, StepFromDict;
    StepsAreReadInOrder(j.fields[FSteps].items);
  }

  lemma {:induction false} DraftIsReadByKey(j: Json)
    requires DraftFromDict(j).Good?
    ensures j.JObject?
    ensures var d, r := j.fields, DraftFromDict(j).value;
            && Get(d, FId) == JUuid(r.id) && Get(d, FWorkspace) == JText(r.workspace)
            && Get(d, FWorkItem) == JUuid(r.itemId) && UuidAt(d, FActionStep, r.stepId)
            && Get(d, FDraftType) == JMember(DraftTypeMember(r.draftType)) && Get(d, FPreview) == JText(r.preview)
            && Get(d, FStatus) == JMember(DraftStatusMember(r.status))
            && Get(d, FCreatedAt) == JInstant(r.createdAt) && Get(d, FUpdatedAt) == JInstant(r.updatedAt)
  {
  }

  lemma {:induction false} ApprovalIsReadByKey(j: Json)
    requires ApprovalFromDict(j).Good?
    ensures j.JObject?
    ensures var d, r := j.fields, ApprovalFromDict(j).value;
            && Get(d, FId) == JUuid(r.id) && Get(d, FWorkspace) == JText(r.workspace)
            && Get(d, FWorkItem) == JUuid(r.itemId) && Get(d, FRequestedBy) == JText(r.requestedBy)
            && UuidAt(d, FActionStep, r.stepId) && UuidAt(d, FDraft, r.draftId)
            && Get(d, FStatus) == JMember(ApprovalStatusMember(r.status))
            && TextAt(d, FReviewedBy, r.reviewedBy) && TextAt(d, FNotes, r.notes)
            && (if Truth(Get(d, FReviewedAt)) then Get(d, FReviewedAt) == Instant(r.reviewedAt)
                else r.reviewedAt.None?)
            && Get(d, FCreatedAt) == JInstant(r.createdAt) && Get(d, FUpdatedAt) == JInstant(r.updatedAt)
  {
  }

  lemma {:induction false} DecisionIsReadByKey(j: Json)
    requires DecisionFromDict(j).Good?
    ensures j.JObject?
    ensures var d, r := j.fields, DecisionFromDict(j).value;
            && Get(d, FId) == JUuid(r.id) && Get(d, FWorkspace) == JText(r.workspace)
            && Get(d, FWorkItem) == JUuid(r.itemId) && UuidAt(d, FActionStep, r.stepId)
            && Get(d, FActionType) == JMember(ActionMember(r.action))
            && Get(d, FAutonomy) == JMember(AutonomyMember(r.autonomy)) && Get(d, FRisk) == JMember(RiskMember(r.risk))
            && r.allowed == Truth(Get(d, FAllowed)) && r.requiresConfirmation == Truth(Get(d, FRequiresConfirmation))
            && Get(d, FReason) == JText(r.reason) && Get(d, FCreatedAt) == JInstant(r.createdAt)
  {
  }

  lemma {:induction false} EventIsReadByKey(j: Json)
    requires EventFromDict(j).Good?
    ensures j.JObject?
    ensures var d, r := j.fields, EventFromDict(j).value;
            && Get(d, FId) == JUuid(r.id) && Get(d, FWorkspace) == JText(r.workspace)
            && UuidAt(d, FDocument, r.documentId) && UuidAt(d, FWorkItem, r.itemId) && UuidAt(d, FAgentRun, r.agentRun)
            && Get(d, FEventType) == JText(r.eventType) && Get(d, FActor) == JText(r.actor)
            && Get(d, FSummary) == JText(r.summary) && Get(d, FCreatedAt) == JInstant(r.createdAt)
  {
  }

  // ------------------------------------------------------------ round trips

  /** Drafts, decisions and events come back as they were, approvals but for empty texts. */
  lemma {:induction false} DraftRoundTrip(r: DraftRecord)
    ensures DraftFromDict(DraftToDict(r)) == Good(r)
  {
    hide Maybe, Uuid;
    OptionalsRoundTrip();
  }

  lemma {:induction false} ApprovalRoundTrip(r: ApprovalRecord)
    ensures ApprovalFromDict(ApprovalToDict(r)) == Good(ApprovalAsStored(r))
  {
    hide Maybe, Text, Uuid, Instant, Stored;
    OptionalsRoundTrip();
  }

  lemma {:induction false} DecisionRoundTrip(r: DecisionRecord)
    ensures DecisionFromDict(DecisionToDict(r)) == Good(r)
  {
    hide Maybe, Uuid;
    OptionalsRoundTrip();
  }

  lemma {:induction false} EventRoundTrip(r: EventRecord)
    ensures EventFromDict(EventToDict(r)) == Good(r)
  {
    hide Maybe, Uuid;
    OptionalsRoundTrip();
  }

  // ------------------------------------------------------------ what storing changes

  /** The plan as the execution protocol sees it. */
  function PlanSeen(r: PlanRecord): TaskPlan {
    TaskPlan(r.id, r.workspace, r.itemId, StepsSeen(r.steps), r.escalation.Some? && r.escalation != Some(""), r.key,
             r.fingerprint)
  }

  function StepsSeen(steps: seq<StepRecord>): seq<ActionStep> {
    if steps == [] then [] else StepsSeen(steps[..|steps| - 1]) + [steps[|steps| - 1].step]
  }

  lemma {:induction false} StepsSeenAsStored(steps: seq<StepRecord>)
    ensures StepsSeen(StepsAsStored(steps)) == StepsSeen(steps)
    ensures StepsAsStored(StepsAsStored(steps)) == StepsAsStored(steps)
    ensures |StepsAsStored(steps)| == |steps|
  {
    if steps != [] {
      var front, last := steps[..|steps| - 1], steps[|steps| - 1];
      StepsSeenAsStored(front);
      var stored := StepsAsStored(front);
      assert (stored + [StepAsStored(last)])[..|stored|] == stored;
    }
  }

  /** Storing changes nothing that the execution protocol reads but an empty key, and storing
      again changes nothing more. */
  lemma {:induction false} StoringIsInvisible(item: ItemRecord, plan: PlanRecord)
    ensures ItemAsStored(item).item == item.item.(idempotencyKey := Stored(item.item.idempotencyKey))
    ensures PlanSeen(PlanAsStored(plan)) == PlanSeen(plan).(idempotencyKey := Stored(plan.key))
    ensures ItemFromDict(ItemToDict(ItemAsStored(item))) == Good(ItemAsStored(item))
    ensures PlanFromDict(PlanToDict(PlanAsStored(plan))) == Good(PlanAsStored(plan))
  {
    hide PlanFromDict, PlanToDict, ItemFromDict, ItemToDict, StepsAsStored, StepsSeen;
    StepsSeenAsStored(plan.steps);
    ItemRoundTrip(ItemAsStored(item));
    PlanRoundTrip(PlanAsStored(plan));
  }

  /** In every state the services reach, the stored item and the stored plan are, to the
      execution protocol, exactly the ones that were written. */
  lemma {:induction false} ReachableRecordsSurvive(s: Protocol.State, item: ItemRecord, plan: PlanRecord)
    requires Runs.Reachable(s)
    requires item.item.id in s.items && s.items[item.item.id] == item.item
    requires plan.id in s.plans && s.plans[plan.id] == PlanSeen(plan)
    ensures ItemFromDict(ItemToDict(item)) == Good(item)
    ensures PlanFromDict(PlanToDict(plan)).Good?
    ensures PlanSeen(PlanFromDict(PlanToDict(plan)).value) == s.plans[plan.id]
  {
    hide PlanFromDict, PlanToDict, ItemFromDict, ItemToDict, StepsAsStored, StepsSeen, Runs.Reachable;
    Runs.ReachableInv(s);
    KeysAreNotEmpty(s, item.item.id, plan.id);
    ItemRoundTrip(item);
    PlanRoundTrip(plan);
    StoringIsInvisible(item, plan);
  }

  lemma {:induction false} KeysAreNotEmpty(s: Protocol.State, i: Id, p: Id)
    requires Invariant.Inv(s) && i in s.items && p in s.plans
    ensures s.items[i].idempotencyKey != Some("") && s.plans[p].idempotencyKey != Some("")
  {
  }

  predicate NoEmptyText(r: PlanRecord) {
    && r.escalation != Some("") && r.key != Some("")
    && forall k :: 0 <= k < |r.steps| ==>
         r.steps[k].tool != Some("") && r.steps[k].whyThis != Some("") && r.steps[k].whyNot != Some("")
  }

  lemma {:induction false} StepsStayIffNoEmptyText(steps: seq<StepRecord>)
    ensures StepsAsStored(steps) == steps <==>
              forall k :: 0 <= k < |steps| ==> StepAsStored(steps[k]) == steps[k]
  {
    if steps != [] {
      var front, last := steps[..|steps| - 1], steps[|steps| - 1];
      StepsStayIffNoEmptyText(front);
      StepsSeenAsStored(front);
      assert steps == front + [last];
      if StepsAsStored(steps) == steps {
        assert StepsAsStored(front) == steps[..|front|];
        assert StepAsStored(last) == steps[|front|];
      }
    }
  }

  /** Reading gives back exactly what was written if and only if no optional text is empty. */
  lemma {:induction false} PlanRoundTripIsExactIff(r: PlanRecord)
    ensures PlanFromDict(PlanToDict(r)) == Good(r) <==> NoEmptyText(r)
  {
    hide PlanFromDict, PlanToDict, StepsAsStored;
    PlanRoundTrip(r);
    StepsStayIffNoEmptyText(r.steps);
    forall k | 0 <= k < |r.steps|
      ensures StepAsStored(r.steps[k]) == r.steps[k] <==>
                r.steps[k].tool != Some("") && r.steps[k].whyThis != Some("") && r.steps[k].whyNot != Some("")
    {
    }
  }
}
