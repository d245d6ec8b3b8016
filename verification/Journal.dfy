/**
 The single-writer transition journal: one authority item and one append-only
 event log, changed only by conditional all-or-nothing transactions.

 A SHA-256 digest is represented by the value it is computed from, which makes
 every digest injective. One primary/recovery Region pair is fixed.
 */
module Journal {
  import opened Base

  datatype Region = Primary | Recovery {
    function Other(): Region { if Primary? then Recovery else Primary }
  }

  datatype Direction = Failover | Failback

  datatype Phase =
    | Stable
    | FencingSource
    | SourceFenced
    | ActivatingTarget
    | TargetActiveNotRouted
    | ReconcilingTargetJobs
    | TargetJobsReconciledNotRouted
    | VerifyingTargetIngress
    | TargetIngressVerifiedNotRouted
    | RoutingTarget
    | VerifyingStableRoute
    | FencingFailedTarget
    | FailedTargetFenced
    | ReactivatingSource
    | SourceReactivatedNotRouted
    | VerifyingSourceIngress
    | SourceIngressVerifiedNotRouted
    | RoutingSourceRollback
    | VerifyingSourceRollback

  /** How many journal writes separate a phase from the stable state its run started in. */
  function Rank(p: Phase): nat {
    match p
    case Stable => 0
    case FencingSource => 1
    case SourceFenced => 2
    case ActivatingTarget => 3
    case TargetActiveNotRouted => 4
    case ReconcilingTargetJobs => 5
    case TargetJobsReconciledNotRouted => 6
    case VerifyingTargetIngress => 7
    case TargetIngressVerifiedNotRouted => 8
    case RoutingTarget => 9
    case VerifyingStableRoute => 10
    case FencingFailedTarget => 11
    case FailedTargetFenced => 12
    case ReactivatingSource => 13
    case SourceReactivatedNotRouted => 14
    case VerifyingSourceIngress => 15
    case SourceIngressVerifiedNotRouted => 16
    case RoutingSourceRollback => 17
    case VerifyingSourceRollback => 18
  }

  /** The phase pairs that `advance_phase` accepts. */
  predicate Allowed(from: Phase, to: Phase) {
    match from
    case FencingSource => to == SourceFenced
    case SourceFenced => to == ActivatingTarget
    case ActivatingTarget => to == TargetActiveNotRouted
    case TargetActiveNotRouted => to == ReconcilingTargetJobs
    case ReconcilingTargetJobs => to == TargetJobsReconciledNotRouted
    case TargetJobsReconciledNotRouted => to == VerifyingTargetIngress
    case VerifyingTargetIngress => to == TargetIngressVerifiedNotRouted
    case TargetIngressVerifiedNotRouted => to == RoutingTarget
    case RoutingTarget => to == VerifyingStableRoute
    case VerifyingStableRoute => to == FencingFailedTarget
    case FencingFailedTarget => to == FailedTargetFenced
    case FailedTargetFenced => to == ReactivatingSource
    case ReactivatingSource => to == SourceReactivatedNotRouted
    case SourceReactivatedNotRouted => to == VerifyingSourceIngress
    case VerifyingSourceIngress => to == SourceIngressVerifiedNotRouted
    case SourceIngressVerifiedNotRouted => to == RoutingSourceRollback
    case RoutingSourceRollback => to == VerifyingSourceRollback
    case Stable => false
    case VerifyingSourceRollback => false
  }

  /** Everything the authority digest binds. */
  datatype Authority = Authority(
    transitionId: string,
    direction: Direction,
    expectedGeneration: nat,
    approvals: string,
    expiresAt: nat,
    schemaVersion: nat)

  /** One reviewed manifest; the parser fixes source and target by direction. */
  datatype Manifest = Manifest(authority: Authority, evidence: string) {
    function Source(): Region {
      if authority.direction.Failover? then Primary else Recovery
    }

    function Target(): Region { Source().Other() }

    predicate HasJournalAuthority() { 2 <= authority.schemaVersion <= 4 }

    predicate HasRoutingAuthority() { 3 <= authority.schemaVersion <= 4 }

    predicate HasReactivationAuthority() { authority.schemaVersion == 4 }
  }

  /** The eight attributes that exist only while a transition is in progress. */
  datatype Claim = Claim(
    transitionId: string,
    direction: Direction,
    source: Region,
    target: Region,
    authority: Authority,
    evidence: string,
    approvals: string,
    expiresAt: nat)

  function ClaimOf(m: Manifest): Claim {
    Claim(m.authority.transitionId, m.authority.direction, m.Source(), m.Target(),
          m.authority, m.evidence, m.authority.approvals, m.authority.expiresAt)
  }

  /** The item at key AUTHORITY/CURRENT. */
  datatype Item = Item(
    generation: nat,
    activeRegion: Region,
    phase: Phase,
    revision: nat,
    updatedAt: nat,
    lastCompleted: string,
    claim: Option<Claim>)

  /** The stable and in-progress field sets accepted when the item is read. */
  predicate Parses(item: Item) {
    && (item.phase.Stable? <==> item.claim.None?)
    && (item.claim.Some? ==> item.claim.value.source != item.claim.value.target)
  }

  datatype Tag = Initialized | RolledBack | At(phase: Phase)

  datatype EventKey = EventKey(transitionId: string, revision: nat, tag: Tag)

  datatype Event = Event(
    key: EventKey,
    occurredAt: nat,
    direction: Direction,
    source: Region,
    target: Region,
    authority: Authority,
    evidence: string,
    approvals: string,
    stepEvidence: Option<string>)

  function EventItem(m: Manifest, tag: Tag, revision: nat, now: nat, stepEvidence: Option<string>): Event {
    Event(EventKey(m.authority.transitionId, revision, tag), now, m.authority.direction,
          m.Source(), m.Target(), m.authority, m.evidence, m.authority.approvals, stepEvidence)
  }

  datatype Store = Store(authority: Option<Item>, events: map<EventKey, Event>)

  const EmptyStore: Store := Store(None, map[])

  // ----- Requests -----

  datatype Kind =
    | Initialize
    | ClaimFence
    | Advance(from: Phase, to: Phase)
    | Complete
    | RollBack

  /** One call of a journal function: which, for whom, when, and with what step evidence. */
  datatype Request = Request(kind: Kind, manifest: Manifest, now: nat, stepEvidence: Option<string>)

  /** One transaction: a request together with the revision its caller read. */
  datatype Tx = Tx(request: Request, revision: nat)

  predicate SameAuthority(item: Item, m: Manifest, now: nat) {
    item.claim == Some(ClaimOf(m)) && now < m.authority.expiresAt
  }

  /** What a journal function decides from the authority it read, before it writes. */
  datatype Plan =
    | Refuse
    | AlreadyDone
    | CheckEvidence(key: EventKey)
    | Write(tx: Tx)

  function PlanFor(r: Request, read: Option<Item>): Plan {
    if r.kind.Initialize? then PlanInitialize(r)
    else if !r.manifest.HasJournalAuthority() || read.None? || !Parses(read.value) then Refuse
    else match r.kind
      case ClaimFence => PlanClaim(r, read.value)
      case Advance(from, to) => PlanAdvance(r, from, to, read.value)
      case Complete => PlanComplete(r, read.value)
      case RollBack => PlanRollBack(r, read.value)
      case Initialize => Refuse
  }

  function PlanInitialize(r: Request): Plan {
    var a := r.manifest.authority;
    if !r.manifest.HasJournalAuthority() || !a.direction.Failover? || a.expectedGeneration != 0 || a.expiresAt <= r.now
    then Refuse
    else Write(Tx(r, 0))
  }

  function PlanClaim(r: Request, item: Item): Plan {
    if !item.phase.Stable? then
      if !SameAuthority(item, r.manifest, r.now) then Refuse
      else if item.phase != FencingSource && item.phase != SourceFenced then Refuse
      else AlreadyDone
    else if || r.manifest.authority.expiresAt <= r.now
            || item.generation != r.manifest.authority.expectedGeneration
            || item.activeRegion != r.manifest.Source() then Refuse
    else Write(Tx(r, item.revision))
  }

  function PlanAdvance(r: Request, from: Phase, to: Phase, item: Item): Plan {
    if !Allowed(from, to) || !SameAuthority(item, r.manifest, r.now) then Refuse
    else if item.phase == to then
      if r.stepEvidence.None? then AlreadyDone
      else CheckEvidence(EventKey(r.manifest.authority.transitionId, item.revision, At(to)))
    else if item.phase != from then Refuse
    else Write(Tx(r, item.revision))
  }

  function PlanComplete(r: Request, item: Item): Plan {
    var a := r.manifest.authority;
    if !r.manifest.HasRoutingAuthority() || r.stepEvidence.None? then Refuse
    else if item.phase.Stable? then
      if || item.generation != a.expectedGeneration + 1
         || item.activeRegion != r.manifest.Target()
         || item.lastCompleted != a.transitionId then Refuse
      else CheckEvidence(EventKey(a.transitionId, item.revision, At(Stable)))
    else if item.phase != VerifyingStableRoute || !SameAuthority(item, r.manifest, r.now) then Refuse
    else Write(Tx(r, item.revision))
  }

  function PlanRollBack(r: Request, item: Item): Plan {
    var a := r.manifest.authority;
    if !r.manifest.HasReactivationAuthority() || r.stepEvidence.None? then Refuse
    else if item.phase.Stable? then
      if || item.generation != a.expectedGeneration + 2
         || item.activeRegion != r.manifest.Source()
         || item.lastCompleted != a.transitionId then Refuse
      else CheckEvidence(EventKey(a.transitionId, item.revision, RolledBack))
    else if item.phase != VerifyingSourceRollback || !SameAuthority(item, r.manifest, r.now) then Refuse
    else Write(Tx(r, item.revision))
  }

  // ----- Transactions -----

  /** The ConditionExpression of the authority write, field by field. */
  predicate ConditionHolds(tx: Tx, current: Option<Item>) {
    var m := tx.request.manifest;
    match tx.request.kind
    case Initialize => current.None?
    case ClaimFence =>
      && current.Some?
      && current.value.phase == Stable
      && current.value.revision == tx.revision
      && current.value.generation == m.authority.expectedGeneration
      && current.value.activeRegion == m.Source()
      && current.value.claim.None?
    case Advance(from, _) => current.Some? && OwnedAt(tx, current.value, from)
    case Complete =>
      current.Some? && OwnedAt(tx, current.value, VerifyingStableRoute) && current.value.activeRegion == m.Source()
    case RollBack =>
      current.Some? && OwnedAt(tx, current.value, VerifyingSourceRollback) && current.value.activeRegion == m.Source()
  }

  predicate OwnedAt(tx: Tx, item: Item, phase: Phase) {
    var m := tx.request.manifest;
    && item.phase == phase
    && item.revision == tx.revision
    && item.generation == m.authority.expectedGeneration
    && item.claim.Some?
    && item.claim.value.transitionId == m.authority.transitionId
    && item.claim.value.authority == m.authority
    && item.claim.value.evidence == m.evidence
    && item.claim.value.approvals == m.authority.approvals
    && item.claim.value.expiresAt == m.authority.expiresAt
  }

  /** The item written by a transaction whose condition holds. */
  function Updated(tx: Tx, current: Option<Item>): Item
    requires tx.request.kind.Initialize? || current.Some?
  {
    var m, now := tx.request.manifest, tx.request.now;
    match tx.request.kind
    case Initialize => Item(0, Primary, Stable, 0, now, "", None)
    case ClaimFence =>
      current.value.(phase := FencingSource, revision := current.value.revision + 1, updatedAt := now,
                     claim := Some(ClaimOf(m)))
    case Advance(_, to) =>
      current.value.(phase := to, revision := current.value.revision + 1, updatedAt := now)
    case Complete =>
      Item(m.authority.expectedGeneration + 1, m.Target(), Stable, current.value.revision + 1, now,
           m.authority.transitionId, None)
    case RollBack =>
      Item(m.authority.expectedGeneration + 2, m.Source(), Stable, current.value.revision + 1, now,
           m.authority.transitionId, None)
  }

  function EventOf(tx: Tx): Event {
    var r := tx.request;
    match r.kind
    case Initialize => EventItem(r.manifest, Initialized, 0, r.now, None)
    case ClaimFence => EventItem(r.manifest, At(FencingSource), tx.revision + 1, r.now, None)
    case Advance(_, to) => EventItem(r.manifest, At(to), tx.revision + 1, r.now, r.stepEvidence)
    case Complete => EventItem(r.manifest, At(Stable), tx.revision + 1, r.now, r.stepEvidence)
    case RollBack => EventItem(r.manifest, RolledBack, tx.revision + 1, r.now, r.stepEvidence)
  }

  /** Both writes commit, or neither does. */
  function Commit(tx: Tx, s: Store): Option<Store> {
    var event := EventOf(tx);
    if ConditionHolds(tx, s.authority) && event.key !in s.events
    then Some(Store(Some(Updated(tx, s.authority)), s.events[event.key := event]))
    else None
  }

  /** Whether the recorded completion event is exactly the one a retry claims. */
  predicate EvidenceMatches(events: map<EventKey, Event>, key: EventKey, m: Manifest, stepEvidence: Option<string>) {
    && stepEvidence.Some?
    && key in events
    && events[key] == EventItem(m, key.tag, key.revision, events[key].occurredAt, stepEvidence)
    && key.transitionId == m.authority.transitionId
  }

  /** The result and final store of one journal call that runs without interference. */
  function Execute(r: Request, s: Store): (Result<bool>, Store) {
    match PlanFor(r, s.authority)
    case Refuse => (Refused, s)
    case AlreadyDone => (Ok(false), s)
    case CheckEvidence(key) =>
      (if EvidenceMatches(s.events, key, r.manifest, r.stepEvidence) then Ok(false) else Refused, s)
    case Write(tx) =>
      match Commit(tx, s)
      case None => (Refused, s)
      case Some(s') => (Ok(true), s')
  }
}
