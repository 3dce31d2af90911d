/**
 The create-once recovery records of a plugin power attempt and the rules that bind
 them to one another (internal/pluginstate/recovery.go).

 Hashes are opaque injective identifiers: the hash of a record is the record's body.
 */
module RecoveryRecords {
  import opened Wrappers
  import opened Actions
  import opened PluginJob

  datatype EnvelopeBody = EnvelopeBody(
    jobID: string, bindingID: string, action: string, policy: TriggerPolicy, createdAt: nat, intentReceipt: Receipt)
  datatype EnvelopeHash = EnvelopeHashOf(body: EnvelopeBody)
  datatype Envelope = Envelope(body: EnvelopeBody, hash: EnvelopeHash)

  datatype CallBody = CallBody(jobID: string, envelopeHash: EnvelopeHash, startedAt: nat)
  datatype CallHash = CallHashOf(body: CallBody)
  datatype Call = Call(body: CallBody, hash: CallHash)

  datatype SealBody = SealBody(
    jobID: string, envelopeHash: EnvelopeHash, callHash: CallHash, sealedAt: nat, receipt: Receipt)
  datatype SealHash = SealHashOf(body: SealBody)
  datatype Seal = Seal(body: SealBody, hash: SealHash)

  datatype Outcome = OutcomeCancelled | OutcomeNoAction

  datatype ResolutionBody = ResolutionBody(
    jobID: string,
    envelopeHash: EnvelopeHash,
    callHash: Option<CallHash>,
    receiptHash: Option<SealHash>,
    outcome: Outcome,
    reason: string,
    resolvedAt: nat,
    cancelResult: Option<CancelResult>)
  datatype ResolutionHash = ResolutionHashOf(body: ResolutionBody)
  datatype Resolution = Resolution(body: ResolutionBody, hash: ResolutionHash)

  /** The four files of one job's recovery directory. */
  datatype Records = Records(
    envelope: Option<Envelope>, call: Option<Call>, receipt: Option<Seal>, resolution: Option<Resolution>)

  /** What LoadRecoveryAuthority hands to its callers. */
  datatype Authority = Authority(
    envelope: Envelope, call: Option<Call>, receipt: Option<Seal>, resolution: Option<Resolution>)
  {
    function CancellationReceipt(): Receipt {
      if receipt.Some? then receipt.value.body.receipt else envelope.body.intentReceipt
    }
  }

  predicate ValidEnvelope(record: Envelope) {
    var receipt := record.body.intentReceipt;
    && ValidJobID(record.body.jobID)
    && ValidJobID(record.body.bindingID)
    && record.body.action == SHUTDOWN
    && record.body.createdAt != ZERO_TIME
    && record.hash == EnvelopeHashOf(record.body)
    && ValidReceipt(receipt)
    && receipt.body.jobID == record.body.jobID
    && receipt.body.action == record.body.action
    && receipt.body.backendVersion == INTENT_VERSION
    && receipt.body.resultCode == -1
    && receipt.body.requestedAt == record.body.createdAt
    && receipt.body.scheduledAt == record.body.createdAt
  }

  predicate ValidCall(record: Call, envelope: Envelope) {
    && record.body.jobID == envelope.body.jobID
    && record.body.envelopeHash == envelope.hash
    && record.body.startedAt != ZERO_TIME
    && record.hash == CallHashOf(record.body)
  }

  predicate ValidSeal(record: Seal, envelope: Envelope, call: Call) {
    && record.body.jobID == envelope.body.jobID
    && record.body.envelopeHash == envelope.hash
    && record.body.callHash == call.hash
    && record.body.sealedAt != ZERO_TIME
    && record.hash == SealHashOf(record.body)
    && ValidReceipt(record.body.receipt)
    && record.body.receipt.body.jobID == record.body.jobID
    && record.body.receipt.body.action == envelope.body.action
  }

  /** A cancel result that shows, in the scope of the receipt, that nothing is left to fire. */
  predicate PositiveInertEvidence(result: Option<CancelResult>, receipt: Receipt) {
    && result.Some?
    && (result.value.cancelled || result.value.noActionInProgress)
    && result.value.scope == receipt.body.cancelScope
  }

  predicate ValidResolution(record: Resolution, authority: Authority) {
    && record.body.jobID == authority.envelope.body.jobID
    && record.body.envelopeHash == authority.envelope.hash
    && record.body.resolvedAt != ZERO_TIME
    && !Blank(record.body.reason)
    && record.hash == ResolutionHashOf(record.body)
    && (if authority.call.None? then
          && record.body.callHash.None? && record.body.receiptHash.None?
          && record.body.outcome == OutcomeNoAction && record.body.cancelResult.None?
        else
          && record.body.callHash == Some(authority.call.value.hash)
          && record.body.outcome == OutcomeCancelled)
    && (if authority.receipt.None? then record.body.receiptHash.None?
        else record.body.receiptHash == Some(authority.receipt.value.hash))
    && (if record.body.outcome == OutcomeCancelled then
          PositiveInertEvidence(record.body.cancelResult, authority.CancellationReceipt())
        else record.body.cancelResult.None?)
  }

  datatype LoadResult = NotExist | Unreadable | Loaded(authority: Authority)

  /** LoadRecoveryAuthority over the four files as they stand. */
  function LoadAuthority(records: Records): LoadResult {
    if records.envelope.None? then NotExist
    else if !ValidEnvelope(records.envelope.value) then Unreadable
    else if records.call.Some? && !ValidCall(records.call.value, records.envelope.value) then Unreadable
    else if records.receipt.Some? && records.call.None? then Unreadable
    else if records.receipt.Some? && !ValidSeal(records.receipt.value, records.envelope.value, records.call.value) then
      Unreadable
    else
      var authority := Authority(records.envelope.value, records.call, records.receipt, records.resolution);
      if records.resolution.Some? && !ValidResolution(records.resolution.value, authority) then Unreadable
      else Loaded(authority)
  }

  /** The files are what some prefix of one power attempt leaves behind. */
  predicate Coherent(records: Records) {
    if records.envelope.None? then records == Records(None, None, None, None)
    else LoadAuthority(records).Loaded?
  }

  const NO_RECORDS := Records(None, None, None, None)

  predicate CreateOnce<T(==)>(before: Option<T>, after: Option<T>) {
    before.Some? ==> after == before
  }

  /** No file of the later directory replaces or removes a file of the earlier one. */
  predicate RecordsGrow(before: Records, after: Records) {
    && CreateOnce(before.envelope, after.envelope)
    && CreateOnce(before.call, after.call)
    && CreateOnce(before.receipt, after.receipt)
    && CreateOnce(before.resolution, after.resolution)
  }

  /**
   The outcome of a readable resolution says exactly whether a schedule call may have been entered:
   no_action if and only if there is no call-start record, and otherwise there is positive inert
   evidence in the scope of the handle that was cancelled.
   */
  lemma ResolutionNamesTheCallBoundary(records: Records)
    requires Coherent(records) && records.resolution.Some?
    ensures records.resolution.value.body.outcome == OutcomeNoAction <==> records.call.None?
    ensures records.call.Some? ==>
      PositiveInertEvidence(records.resolution.value.body.cancelResult,
                            LoadAuthority(records).authority.CancellationReceipt())
  {
    assert LoadAuthority(records).Loaded?;
  }
}
