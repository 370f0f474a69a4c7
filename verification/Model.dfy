/**
 The vocabulary shared by the engine, the store, the fold and the providers:
 event types, the item.observed payload, dedupe keys, events and stored rows.
 Times are integers; 0 is Go's zero time.Time, which IsZero reports.
 */
module Model {

  datatype Option<+T> = None | Some(value: T)

  type Time = int

  const ZERO_TIME: Time := 0

  /** The object type that both providers emit. */
  const MERGE_REQUEST := "merge_request"

  datatype EventType =
    | ItemObserved
    | ItemRemoved
    | Signal(kind: SignalKind)
    | OtherType(name: string)

  datatype SignalKind =
    | Mentioned
    | ReviewRequestedSignal
    | ReviewSubmittedSignal
    | Assigned
    | CIFailed
    | ApprovedSignal
    | ChangesRequestedSignal
    | OtherSignal(name: string)

  datatype ItemState = Open | Merged | Closed | OtherState(text: string)

  datatype Gate = Ready | Blocked | Unknown | OtherGate(text: string)

  /**
   The merge state behind a gate: GitHub's mergeable_state and GitLab's detailed_merge_status
   by name. A value that neither provider's code names is OtherDetail; "" is OtherDetail("").
   */
  datatype MergeDetail =
    | Clean
    | HasHooks
    | BlockedDetail
    | Dirty
    | Behind
    | Unstable
    | Mergeable
    | Unchecked
    | Checking
    | Preparing
    | ApprovalsSyncing
    | CIStillRunning
    | DraftStatus
    | Conflict
    | PoliciesDenied
    | SecurityPolicyViolations
    | DiscussionsNotResolved
    | CIMustPass
    | NeedRebase
    | NotApproved
    | OtherDetail(text: string)

  const NO_DETAIL: MergeDetail := OtherDetail("")

  datatype Role = Author | Reviewer | Assignee | SoleApprover | OtherRole(text: string)

  /** review_decision and my_review_state share this vocabulary. */
  datatype Verdict =
    | NoVerdict
    | Approved
    | ChangesRequested
    | Reviewed
    | ReviewRequired
    | OtherVerdict(text: string)

  /** sdk.ItemObservedPayload; providerUpdatedAt is None when it is empty or does not parse. */
  datatype Payload = Payload(
    title: string,
    url: string,
    repo: string,
    state: ItemState,
    draft: bool,
    author: string,
    myRoles: seq<Role>,
    reviewDecision: Verdict,
    myReviewState: Verdict,
    gate: Gate,
    gateDetail: MergeDetail,
    failingChecks: bool,
    mergeConflict: bool,
    needsRebase: bool,
    needsApproval: bool,
    unresolvedDiscussions: bool,
    policyDenied: bool,
    autoMergeArmed: bool,
    checksRunning: bool,
    approvalsCount: int,
    providerUpdatedAt: Option<Time>,
    ticketKeys: seq<string>,
    labels: seq<string>,
    sourceBranch: string,
    targetBranch: string)

  /**
   What a JSON payload column yields to its readers. A Snapshot decodes as a whole
   payload; of a Head only `state` and `ticket_keys` decode, which is all that
   AllOpenTicketKeys asks for; an Opaque one decodes as neither.
   */
  datatype Body =
    | Snapshot(facts: Payload)
    | Head(state: ItemState, ticketKeys: seq<string>)
    | Opaque

  /**
   Dedupe keys. A provider keys a snapshot by the hash of its facts, taken as
   injective, and a signal by text; the engine adds the two keys that carry a row id.
   */
  datatype DedupeKey =
    | FactsKey(facts: Payload)
    | TextKey(text: string)
    | Resurrect(base: DedupeKey, removalID: int)
    | RemovedKey(observedID: int)

  /** sdk.Event. */
  datatype Event = Event(
    objectType: string,
    nativeID: string,
    eventType: EventType,
    occurredAt: Option<Time>,
    actor: string,
    key: DedupeKey,
    body: Body)

  /** One row of the events table (storage.StoredEvent). */
  datatype Row = Row(
    id: int,
    conn: string,
    objectType: string,
    nativeID: string,
    eventType: EventType,
    occurredAt: Option<Time>,
    actor: string,
    key: DedupeKey,
    body: Body,
    observedAt: Time)

  /** The identity triple that groups rows into one item. */
  datatype ItemKey = ItemKey(conn: string, objectType: string, nativeID: string)

  function KeyOf(r: Row): ItemKey {
    ItemKey(r.conn, r.objectType, r.nativeID)
  }

  predicate IsFact(r: Row) {
    r.eventType == ItemObserved || r.eventType == ItemRemoved
  }

  /** A readable item.observed row in the open state. */
  predicate IsOpen(r: Row) {
    r.eventType == ItemObserved && r.body.Snapshot? && r.body.facts.state == Open
  }

  /** A readable open row on which the user holds a role. */
  predicate IsOpenRoled(r: Row) {
    IsOpen(r) && |r.body.facts.myRoles| > 0
  }

  /** strings.LastIndex of one character among the first n; -1 when it does not occur. */
  function LastIndex(s: string, c: char, n: nat): (i: int)
    requires n <= |s|
    ensures -1 <= i < n
    ensures i >= 0 ==> s[i] == c
  {
    if n == 0 then -1 else if s[n - 1] == c then n - 1 else LastIndex(s, c, n - 1)
  }

  predicate AllDigits(s: string, from: nat, to: nat)
    requires from <= to <= |s|
  {
    from == to || ('0' <= s[to - 1] <= '9' && AllDigits(s, from, to - 1))
  }
}
