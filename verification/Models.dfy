/** The records of the back-office workflow (models.py). The repositories copy a
    record on every load and on every save, so a record is a value here: a method
    that changes a record returns the changed copy. */
module Models {
  import opened Basics

  datatype WorkType =
    | InvoiceReview | InvoiceExport | AccountingNote | VendorFollowUp
    | ExceptionHandling | InsufficientEvidence

  datatype WorkItemPriority = Low | Normal | High | Urgent

  datatype WorkItemStatus =
    | ItemNew | ItemClassified | ItemPlanning | ItemAwaitingHuman | ItemReadyToExecute
    | ItemExecuting | ItemResolved | ItemBlocked | ItemFailed

  datatype ActionType =
    | InspectQueue | ExplainDocument | RecommendReview | DraftAccountingNote
    | DraftVendorMessage | ProcessDocument | ExportApprovedInvoice
    | EscalateToHuman | BlockUnsafeRequest

  datatype ActionRiskLevel = RiskLow | RiskMedium | RiskHigh | RiskBlocked

  datatype ActionStepStatus =
    | Planned | WaitingForApproval | StepApproved | Executing | Executed | Blocked | Failed

  datatype ApprovalStatus = Pending | Approved | Rejected

  datatype DraftType = AccountingNoteDraft | VendorMessageDraft | ExportPreviewDraft

  datatype ExecutionOutcome = InFlight | Unknown | ConfirmedSuccess | ConfirmedFailure

  /** The keys of a work item's business context that some operation reads or writes. */
  datatype ContextKey =
    | ExecutionToken | ExecutionOutcomeKey | ExecutionHeartbeatAt | ExecutionPlanId | ExecutionStepId
    | Assignee | RequestedOutcome | Tags
    | CorrectionState | CorrectionReason | CorrectionRequestedBy | CorrectionRequestedAt
    | CorrectionSubmittedBy | CorrectionChangeCount
    | OtherKey(name: string)

  /** The context stores text. Text that a printer produced is kept with what its
      parser gives back; any other text does not parse. */
  datatype ContextValue =
    | Text(text: string)
    | UuidText(id: Id)
    | TokenText(token: Id)
    | InstantText(at: Time)
    | OutcomeText(outcome: ExecutionOutcome)

  predicate IsExecutionKey(key: ContextKey) {
    key.ExecutionToken? || key.ExecutionOutcomeKey? || key.ExecutionHeartbeatAt? || key.ExecutionPlanId?
    || key.ExecutionStepId?
  }

  /** Python's truth value of an optional text: `None` and "" are false. */
  predicate Truthy(value: Option<ContextValue>) {
    value.Some? && value != Some(Text(""))
  }

  datatype WorkItem = WorkItem(
    id: Id,
    workspace: string,
    title: string,
    workType: Option<WorkType>,
    priority: WorkItemPriority,
    status: WorkItemStatus,
    linkedDocuments: seq<Id>,
    context: map<ContextKey, ContextValue>,
    currentPlan: Option<Id>,
    idempotencyKey: Option<string>,
    fingerprint: Option<Fingerprint>,
    updatedAt: Time)
  {
    function Get(key: ContextKey): Option<ContextValue> {
      if key in context then Some(context[key]) else None
    }

    function AttachContext(key: ContextKey, value: ContextValue, now: Time): WorkItem {
      this.(context := context[key := value], updatedAt := now)
    }

    function SetCurrentPlan(planId: Id, now: Time): WorkItem {
      this.(currentPlan := Some(planId), status := ItemPlanning, updatedAt := now)
    }

    function Classify(kind: WorkType, now: Time): WorkItem {
      this.(workType := Some(kind), status := ItemClassified, updatedAt := now)
    }

    /** `business_context.get("execution_outcome") in {"in_flight", "unknown"}` */
    predicate ExecutionPending() {
      Get(ExecutionOutcomeKey) == Some(OutcomeText(InFlight)) || Get(ExecutionOutcomeKey) == Some(OutcomeText(Unknown))
    }
  }

  datatype ActionStep = ActionStep(
    id: Id,
    action: ActionType,
    risk: ActionRiskLevel,
    requiresApproval: bool,
    status: ActionStepStatus,
    updatedAt: Time)

  datatype TaskPlan = TaskPlan(
    id: Id,
    workspace: string,
    itemId: Id,
    steps: seq<ActionStep>,
    escalated: bool,
    idempotencyKey: Option<string>,
    fingerprint: Option<Fingerprint>)

  datatype Approval = Approval(
    id: Id,
    workspace: string,
    itemId: Id,
    stepId: Id,
    status: ApprovalStatus,
    reviewedBy: Option<string>,
    reviewerNotes: Option<string>,
    reviewedAt: Option<Time>)
  {
    /** An approval is granted once, by the reviewer on record, and a rejected one is never
        granted. */
    function Approve(reviewer: string, notes: Option<string>, now: Time): (r: Result<Approval>)
      ensures r.Raised? <==> status == Rejected
      ensures r.Ok? && status == Approved ==> r.value == this
      ensures r.Ok? && status == Pending ==> r.value == Reviewed(Approved, reviewer, notes, now)
    {
      match status
      case Approved => Ok(this)
      case Rejected => Raised(ApprovalAlreadyDecided)
      case Pending => Ok(Reviewed(Approved, reviewer, notes, now))
    }

    /** An approval is rejected once, by the reviewer on record, and a granted one is never
        rejected. */
    function Reject(reviewer: string, notes: Option<string>, now: Time): (r: Result<Approval>)
      ensures r.Raised? <==> status == Approved
      ensures r.Ok? && status == Rejected ==> r.value == this
      ensures r.Ok? && status == Pending ==> r.value == Reviewed(Rejected, reviewer, notes, now)
    {
      match status
      case Rejected => Ok(this)
      case Approved => Raised(ApprovalAlreadyDecided)
      case Pending => Ok(Reviewed(Rejected, reviewer, notes, now))
    }

    function Reviewed(decision: ApprovalStatus, reviewer: string, notes: Option<string>, now: Time): Approval {
      this.(status := decision, reviewedBy := Some(reviewer), reviewerNotes := notes, reviewedAt := Some(now))
    }
  }

  datatype ActionDraft = ActionDraft(id: Id, workspace: string, itemId: Id, stepId: Id, draftType: DraftType)

  datatype Role = Admin | Operator | Reviewer | OtherRole(name: string)

  datatype SecurityContext = SecurityContext(actor: string, isAdmin: bool, workspace: string, role: Role)

  datatype PlanningInput = PlanningInput(
    requestedOutcome: Option<string>,
    evidenceSufficient: bool,
    approvedForExport: bool,
    missingFields: seq<string>,
    selectedDocument: Option<Id>)

  /** The digest of a request, kept as the payload it digests: two digests are equal
      exactly when the payloads are. */
  datatype Fingerprint =
    | WorkItemFingerprint(title: string, workType: Option<WorkType>, documents: seq<Id>,
                          context: map<ContextKey, ContextValue>)
    | PlanningFingerprint(inputs: PlanningInput, role: Role, isAdmin: bool)
}
