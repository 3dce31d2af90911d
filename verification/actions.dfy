/**
 Power requests, receipts and their validation (internal/actions/backend.go and
 internal/actions/comment.go).

 Times are naturals and durations integers, in nanoseconds; the zero time is 0. A SHA-256
 digest is an opaque injective identifier, so the checksum of a receipt is the
 receipt's own contents and the token of a systemd unit is the job id it is made from.
 */
module Actions {
  import opened Wrappers

  const SECOND: int := 1_000_000_000
  const MINUTE: int := 60 * SECOND
  const HOUR: int := 60 * MINUTE
  const ZERO_TIME: nat := 0

  const SHUTDOWN := "shutdown"
  const RECEIPT_SCHEMA := "2"
  const LEGACY_RECEIPT_SCHEMA := "1"
  const INTENT_VERSION := "intent-recovery-v1"

  datatype CancelScope = JobScope | SystemGlobalScope | OtherScope(text: string)

  datatype Capabilities = Capabilities(
    platform: string,
    backendID: string,
    executeSupported: bool,
    cancelScope: CancelScope,
    minimumDelay: int,
    maximumDelay: int)

  datatype PowerRequest = PowerRequest(
    jobID: string,
    action: string,
    delay: int,
    comment: string,
    requestedAt: nat)

  /** The cancellation token of a receipt: empty, derived from a job id, or something else. */
  datatype Token = NoToken | UnitToken(jobID: string) | OtherToken(text: string)

  /** A receipt without its checksum: exactly what the checksum covers. */
  datatype ReceiptBody = ReceiptBody(
    schemaVersion: string,
    platform: string,
    backendID: string,
    backendVersion: string,
    jobID: string,
    action: string,
    requestedAt: nat,
    scheduledAt: nat,
    deadline: nat,
    externalToken: Token,
    cancelScope: CancelScope,
    bootID: string,
    resultCode: int)

  datatype Checksum = NoChecksum | ChecksumOf(body: ReceiptBody)

  datatype Receipt = Receipt(body: ReceiptBody, checksum: Checksum)

  datatype CancelResult = CancelResult(cancelled: bool, noActionInProgress: bool, scope: CancelScope)

  datatype ReconcileState = ReconcileScheduled | ReconcileUnverified | ReconcileConfirmed

  predicate IsSpace(c: char) {
    c == ' ' || c == '\t' || c == '\n' || c == '\r'
  }

  /** The string is empty once surrounding white space is trimmed. */
  predicate Blank(s: string) {
    forall i :: 0 <= i < |s| ==> IsSpace(s[i])
  }

  predicate JobIDChar(c: char) {
    'a' <= c <= 'z' || 'A' <= c <= 'Z' || '0' <= c <= '9' || c == '_' || c == '-'
  }

  predicate ValidJobID(jobID: string) {
    && "dt_" <= jobID
    && 6 <= |jobID| <= 80
    && forall i :: 0 <= i < |jobID| ==> JobIDChar(jobID[i])
  }

  function SystemdUnitToken(jobID: string): Token {
    if ValidJobID(jobID) then UnitToken(jobID) else NoToken
  }

  predicate BlankToken(token: Token) {
    match token
    case NoToken => true
    case UnitToken(_) => false
    case OtherToken(text) => Blank(text)
  }

  const COMMENT_JOB_ID_LIMIT: nat := 20

  function CommentJobID(jobID: string): string {
    if |jobID| <= COMMENT_JOB_ID_LIMIT then jobID else jobID[..COMMENT_JOB_ID_LIMIT]
  }

  function ClassicPowerComment(jobID: string): string {
    "DoneThen job " + CommentJobID(jobID) + " completed"
  }

  function PluginPowerComment(jobID: string): string {
    "DoneThen plugin job " + CommentJobID(jobID) + " completed"
  }

  function AfterStopPowerComment(jobID: string): string {
    "DoneThen job " + CommentJobID(jobID) + ": Codex stopped"
  }

  predicate IsFixedPowerComment(jobID: string, comment: string) {
    || comment == ClassicPowerComment(jobID)
    || comment == PluginPowerComment(jobID)
    || comment == AfterStopPowerComment(jobID)
  }

  predicate ValidRequest(request: PowerRequest, minimum: int, maximum: int) {
    && ValidJobID(request.jobID)
    && request.action == SHUTDOWN
    && minimum <= request.delay <= maximum
    && request.delay % SECOND == 0
    && request.requestedAt != ZERO_TIME
    && !Blank(request.comment)
    && |request.comment| <= 256
  }

  predicate KnownScope(scope: CancelScope) {
    scope == JobScope || scope == SystemGlobalScope
  }

  /** Everything ValidateReceipt asks of the contents, leaving the checksum out. */
  predicate ValidBody(body: ReceiptBody) {
    && (body.schemaVersion == RECEIPT_SCHEMA || body.schemaVersion == LEGACY_RECEIPT_SCHEMA)
    && ValidJobID(body.jobID)
    && body.platform != "" && body.backendID != "" && body.backendVersion != ""
    && body.action == SHUTDOWN
    && body.requestedAt != ZERO_TIME && body.scheduledAt != ZERO_TIME && body.deadline != ZERO_TIME
    && body.scheduledAt <= body.deadline
    && KnownScope(body.cancelScope)
  }

  predicate ValidReceipt(receipt: Receipt) {
    && ValidBody(receipt.body)
    && (receipt.body.schemaVersion == RECEIPT_SCHEMA ==> receipt.checksum == ChecksumOf(receipt.body))
  }

  predicate ValidReceiptForRequest(receipt: Receipt, request: PowerRequest, capabilities: Capabilities) {
    && ValidReceipt(receipt)
    && ValidRequest(request, capabilities.minimumDelay, capabilities.maximumDelay)
    && receipt.body.jobID == request.jobID
    && receipt.body.action == request.action
    && receipt.body.platform == capabilities.platform
    && receipt.body.backendID == capabilities.backendID
    && receipt.body.cancelScope == capabilities.cancelScope
    && receipt.body.requestedAt == request.requestedAt
    && receipt.body.deadline - receipt.body.scheduledAt == request.delay
    && receipt.body.resultCode == 0
    && (receipt.body.cancelScope == JobScope ==> !BlankToken(receipt.body.externalToken))
  }

  function SealReceipt(body: ReceiptBody): Receipt {
    var stamped := body.(schemaVersion := RECEIPT_SCHEMA);
    Receipt(stamped, ChecksumOf(stamped))
  }

  /** The recovery handle written before the scheduler is called; None when it cannot be built. */
  function BuildIntentReceipt(jobID: string, action: string, requestedAt: nat, delay: int,
                              capabilities: Capabilities): Option<Receipt>
  {
    if !ValidJobID(jobID) || action != SHUTDOWN then None
    else if requestedAt == ZERO_TIME || delay <= 0 || delay % SECOND != 0 then None
    else if capabilities.platform == "" || capabilities.backendID == "" then None
    else if !KnownScope(capabilities.cancelScope) then None
    else if capabilities.minimumDelay > 0 && delay < capabilities.minimumDelay then None
    else if capabilities.maximumDelay > 0 && delay > capabilities.maximumDelay then None
    else
      var token :=
        if capabilities.platform == "linux-systemd" && capabilities.backendID == "linux-systemd-helper"
        then SystemdUnitToken(jobID) else NoToken;
      Some(SealReceipt(ReceiptBody(
        RECEIPT_SCHEMA, capabilities.platform, capabilities.backendID, INTENT_VERSION,
        jobID, action, requestedAt, requestedAt, requestedAt + delay, token,
        capabilities.cancelScope, "", -1)))
  }

  /** A sealed receipt proves its contents: two accepted schema-2 receipts with one checksum are one receipt. */
  lemma ChecksumDeterminesReceipt(a: Receipt, b: Receipt)
    requires ValidReceipt(a) && ValidReceipt(b)
    requires a.body.schemaVersion == RECEIPT_SCHEMA && b.body.schemaVersion == RECEIPT_SCHEMA
    requires a.checksum == b.checksum
    ensures a == b
  {
    assert ChecksumOf(a.body) == ChecksumOf(b.body);
  }

  /**
   An intent handle is a cancellation handle and nothing more: it passes ValidateReceipt for its own
   job, so cancel and reconcile accept it, and it is never accepted as the outcome of a schedule call,
   whatever the request and capabilities it is compared with.
   */
  lemma IntentReceiptCancelsButNeverCertifies(
    jobID: string, action: string, requestedAt: nat, delay: int, capabilities: Capabilities,
    request: PowerRequest, other: Capabilities)
    requires BuildIntentReceipt(jobID, action, requestedAt, delay, capabilities).Some?
    ensures var receipt := BuildIntentReceipt(jobID, action, requestedAt, delay, capabilities).value;
            && ValidReceipt(receipt)
            && receipt.body.jobID == jobID && receipt.body.action == action
            && receipt.body.cancelScope == capabilities.cancelScope
            && !ValidReceiptForRequest(receipt, request, other)
  {
    assert "intent-recovery-v1" != "";
  }
}
