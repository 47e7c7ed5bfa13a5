/** The status of a document and the only ways in which it moves (documents/status.py and
    documents/workflow.py). */
module Documents {
  import opened Basics

  datatype DocumentStatus =
    | DocumentUploaded | DocumentQueued | DocumentProcessing | DocumentExtracted | DocumentNeedsReview
    | DocumentApproved | DocumentRejected | DocumentFailed | DocumentExported | DocumentCancelled

  datatype Document = Document(workspace: string, status: DocumentStatus)

  /** ALLOWED_TRANSITIONS. */
  function AllowedTransitions(status: DocumentStatus): set<DocumentStatus> {
    match status
    case DocumentUploaded => {DocumentQueued}
    case DocumentQueued => {DocumentProcessing, DocumentCancelled}
    case DocumentProcessing => {DocumentQueued, DocumentExtracted, DocumentFailed}
    case DocumentExtracted => {DocumentQueued, DocumentApproved, DocumentNeedsReview, DocumentFailed}
    case DocumentNeedsReview => {DocumentQueued, DocumentApproved, DocumentRejected}
    case DocumentApproved => {DocumentExported}
    case DocumentRejected => {}
    case DocumentFailed => {DocumentQueued, DocumentCancelled}
    case DocumentExported => {}
    case DocumentCancelled => {DocumentQueued}
  }

  /** `DocumentWorkflowService.transition`: every change of a status goes through it. */
  function Transition(document: Document, target: DocumentStatus): Result<Document> {
    if target in AllowedTransitions(document.status) then Ok(document.(status := target))
    else Raised(InvalidStatusTransition)
  }

  /** Where a document can come from: it is queued from everywhere but a decision and itself,
      approved only after extraction or review, rejected only in review, and exported only when
      approved. Rejection and export are final, and nothing is ever uploaded again. */
  lemma {:induction false} StatusesComeFrom(document: Document, target: DocumentStatus)
    ensures var status := document.status;
            Transition(document, target).Ok? <==>
              match target
              case DocumentUploaded => false
              case DocumentQueued =>
                status != DocumentQueued && status != DocumentApproved && status != DocumentRejected
                && status != DocumentExported
              case DocumentProcessing => status == DocumentQueued
              case DocumentExtracted => status == DocumentProcessing
              case DocumentNeedsReview => status == DocumentExtracted
              case DocumentApproved => status == DocumentExtracted || status == DocumentNeedsReview
              case DocumentRejected => status == DocumentNeedsReview
              case DocumentFailed => status == DocumentProcessing || status == DocumentExtracted
              case DocumentExported => status == DocumentApproved
              case DocumentCancelled => status == DocumentQueued || status == DocumentFailed
    ensures Transition(document, target).Ok? ==>
              Transition(document, target).value == Document(document.workspace, target)
    ensures Transition(document, target).Raised? ==>
              Transition(document, target) == Raised(InvalidStatusTransition)
  {
    match document.status {
      case DocumentFailed =>
      case _ =>
    }
  }
}
