/** The autonomy policy: a fixed rule per action and the decision it leads to (policy.py). */
module Policy {
  import opened Basics
  import opened Models

  datatype AutonomyLevel = ReadOnly | Recommend | Draft | ConfirmExecute | AutonomyBlocked

  datatype ActionPolicyRule = ActionPolicyRule(
    autonomy: AutonomyLevel,
    risk: ActionRiskLevel,
    requiresConfirmation: bool,
    allowedRoles: set<Role>)

  const EVERY_ROLE: set<Role> := {Admin, Operator, Reviewer}

  function Rule(action: ActionType): ActionPolicyRule {
    match action
    case InspectQueue => ActionPolicyRule(ReadOnly, RiskLow, false, EVERY_ROLE)
    case ExplainDocument => ActionPolicyRule(ReadOnly, RiskLow, false, EVERY_ROLE)
    case RecommendReview => ActionPolicyRule(Recommend, RiskLow, false, EVERY_ROLE)
    case DraftAccountingNote => ActionPolicyRule(Draft, RiskMedium, false, EVERY_ROLE)
    case DraftVendorMessage => ActionPolicyRule(Draft, RiskMedium, false, EVERY_ROLE)
    case ProcessDocument => ActionPolicyRule(ConfirmExecute, RiskHigh, true, {Admin, Operator})
    case ExportApprovedInvoice => ActionPolicyRule(ConfirmExecute, RiskHigh, true, {Admin})
    case EscalateToHuman => ActionPolicyRule(Recommend, RiskMedium, false, EVERY_ROLE)
    case BlockUnsafeRequest => ActionPolicyRule(AutonomyBlocked, RiskBlocked, false, EVERY_ROLE)
  }

  /** The actions that a controlled tool carries out: the keys of ACTION_TOOL_MAP. */
  predicate IsToolAction(action: ActionType) {
    action == ProcessDocument || action == ExportApprovedInvoice
  }

  datatype PolicyDecision = PolicyDecision(
    autonomy: AutonomyLevel,
    risk: ActionRiskLevel,
    allowed: bool,
    requiresConfirmation: bool)

  predicate IsBlocked(itemWorkspace: string, action: ActionType, ctx: SecurityContext,
                      target: Option<string>, evidenceSufficient: bool, confirmed: bool)
  {
    var rule := Rule(action);
    || action == BlockUnsafeRequest
    || ctx.workspace != itemWorkspace
    || (target.Some? && target.value != itemWorkspace)
    || (ctx.role == Admin && !ctx.isAdmin)
    || ctx.role !in rule.allowedRoles
    || (!evidenceSufficient && rule.autonomy != ReadOnly)
    || (rule.requiresConfirmation && !confirmed)
  }

  function Decide(itemWorkspace: string, action: ActionType, ctx: SecurityContext,
                  target: Option<string>, evidenceSufficient: bool, confirmed: bool): PolicyDecision
  {
    var rule := Rule(action);
    if IsBlocked(itemWorkspace, action, ctx, target, evidenceSufficient, confirmed)
    then PolicyDecision(AutonomyBlocked, RiskBlocked, false, rule.requiresConfirmation && !confirmed)
    else PolicyDecision(rule.autonomy, rule.risk, true, rule.requiresConfirmation && !confirmed)
  }

  /** What the policy is for: an action that a tool carries out is allowed only to a
      confirmed caller of the item's own workspace, in one of the two executing roles
      and with sufficient evidence; and it is the only kind of action that is ever
      confirmed. A tool action that nobody confirmed is always reported as needing
      confirmation, whatever else is wrong with the request. */
  lemma {:induction false} ToolActionsNeedConfirmation(itemWorkspace: string, action: ActionType, ctx: SecurityContext,
                                    target: Option<string>, evidenceSufficient: bool, confirmed: bool)
    ensures var d := Decide(itemWorkspace, action, ctx, target, evidenceSufficient, confirmed);
            && (d.requiresConfirmation <==> IsToolAction(action) && !confirmed)
            && (d.allowed ==> ctx.workspace == itemWorkspace && !d.requiresConfirmation)
            && (d.allowed && IsToolAction(action) ==>
                  confirmed && evidenceSufficient && (ctx.role == Admin || ctx.role == Operator)
                  && (ctx.role == Admin ==> ctx.isAdmin))
            && (d.allowed && action == ExportApprovedInvoice ==> ctx.role == Admin && ctx.isAdmin)
            && (d.allowed && d.autonomy == ConfirmExecute ==> IsToolAction(action))
            && (!d.allowed <==> d.autonomy == AutonomyBlocked)
  {
    match action {
      case ProcessDocument =>
      case ExportApprovedInvoice =>
      case _ =>
    }
  }

  /** Who may do what: the exact conditions under which an action is allowed, and the autonomy
      and the risk it is allowed with. Looking and explaining need no evidence; operators may
      not export, and reviewers use no tool at all. */
  lemma {:induction false} AllowedExactlyIf(itemWorkspace: string, action: ActionType, ctx: SecurityContext,
                                            target: Option<string>, evidenceSufficient: bool, confirmed: bool)
    ensures var d := Decide(itemWorkspace, action, ctx, target, evidenceSufficient, confirmed);
            && (d.allowed <==>
                  && action != BlockUnsafeRequest
                  && ctx.workspace == itemWorkspace && (target.None? || target.value == itemWorkspace)
                  && (|| (ctx.role == Admin && ctx.isAdmin)
                      || (ctx.role == Operator && action != ExportApprovedInvoice)
                      || (ctx.role == Reviewer && action != ExportApprovedInvoice && action != ProcessDocument))
                  && (evidenceSufficient || action == InspectQueue || action == ExplainDocument)
                  && (action == ExportApprovedInvoice || action == ProcessDocument ==> confirmed))
            && (d.allowed ==>
                  && (d.autonomy == ReadOnly <==> action == InspectQueue || action == ExplainDocument)
                  && (d.autonomy == Recommend <==> action == RecommendReview || action == EscalateToHuman)
                  && (d.autonomy == Draft <==> action == DraftAccountingNote || action == DraftVendorMessage)
                  && (d.autonomy == ConfirmExecute <==> action == ProcessDocument || action == ExportApprovedInvoice)
                  && (d.risk == RiskLow <==>
                        action == InspectQueue || action == ExplainDocument || action == RecommendReview)
                  && (d.risk == RiskHigh <==> action == ProcessDocument || action == ExportApprovedInvoice)
                  && d.risk != RiskBlocked)
            && (!d.allowed ==> d.risk == RiskBlocked)
  {
    match action {
      case ProcessDocument =>
      case ExportApprovedInvoice =>
      case _ =>
    }
  }
}
