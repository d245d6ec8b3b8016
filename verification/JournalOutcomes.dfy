/**
 When each journal call is accepted and what it leaves, told from the stored item, the
 manifest and the clock, in every journal that clients can reach (`EveryRunIsSerial`).
 */
module JournalOutcomes {
  import opened Base
  import opened Journal
  import opened JournalHistory

  /** Every commit, of every kind, was decided under an authority that had not expired. */
  lemma EveryCommitWasLive(h: seq<Entry>, i: nat)
    requires Serial(h) && i < |h|
    ensures h[i].tx.request.now < h[i].tx.request.manifest.authority.expiresAt
  {
    CommitIsLive(ItemBefore(h, i), h[i]);
  }

  lemma CommitIsLive(before: Option<Item>, e: Entry)
    requires Follows(before, e)
    ensures e.tx.request.now < e.tx.request.manifest.authority.expiresAt
    ensures 2 <= e.tx.request.manifest.authority.schemaVersion <= 4
  {
  }

  /** Every commit records its own time, in the item and in the one event it appends. */
  lemma EveryCommitIsDated(h: seq<Entry>, i: nat)
    requires Serial(h) && i < |h|
    ensures var r, event := h[i].tx.request, EventOf(h[i].tx);
            && h[i].item.updatedAt == r.now == event.occurredAt
            && event.key.transitionId == r.manifest.authority.transitionId && event.key.revision == i
            && event.direction == r.manifest.authority.direction
            && event.source == r.manifest.Source() && event.target == r.manifest.Target()
            && event.authority == r.manifest.authority && event.evidence == r.manifest.evidence
            && (!r.kind.Initialize? && !r.kind.ClaimFence? ==> event.stepEvidence == r.stepEvidence)
  {
    HistoryIsSound(h, i);
    CommitIsDated(ItemBefore(h, i), h[i]);
  }

  lemma CommitIsDated(before: Option<Item>, e: Entry)
    requires Follows(before, e)
    ensures var r, event := e.tx.request, EventOf(e.tx);
            && e.item.updatedAt == r.now == event.occurredAt
            && event.key.transitionId == r.manifest.authority.transitionId
            && event.direction == r.manifest.authority.direction
            && event.source == r.manifest.Source() && event.target == r.manifest.Target()
            && event.authority == r.manifest.authority && event.evidence == r.manifest.evidence
            && (!r.kind.Initialize? && !r.kind.ClaimFence? ==> event.stepEvidence == r.stepEvidence)
  {
  }

  // ----- A planned write always commits -----

  /** A call that decides to write does write, unless it initialises again. */
  lemma PlannedWriteCommits(w: World, r: Request)
    requires Consistent(w) && PlanFor(r, w.store.authority).Write? && (r.kind.Initialize? ==> w.store.authority.None?)
    ensures var tx, event := PlanFor(r, w.store.authority).tx, EventOf(PlanFor(r, w.store.authority).tx);
            && (tx.request.kind.Initialize? || w.store.authority.Some?) && event.key !in w.store.events
            && Execute(r, w.store) ==
                 (Ok(true), Store(Some(Updated(tx, w.store.authority)), w.store.events[event.key := event]))
  {
    hide PlanFor, ConditionHolds, EventOf, Updated, Serial, Replay;
    SomethingWasRead(r, w.store.authority);
    var a := Attempt(PlanFor(r, w.store.authority).tx, |w.history|);
    EmptyHistory(w);
    CommitsExactlyWhenFresh(w, a);
    WritingCall(r, w.store);
  }

  lemma EmptyHistory(w: World)
    requires Consistent(w)
    ensures w.store.authority.None? <==> |w.history| == 0
  {
  }

  /** One more call, sent at once, leaves a journal that clients can reach. */
  lemma CallKeepsConsistent(w: World, r: Request) returns (w': World)
    requires Consistent(w)
    ensures Consistent(w') && w'.store == Execute(r, w.store).1
  {
    hide PlanFor, Execute, Step, Serial, Replay;
    if PlanFor(r, w.store.authority).Write? {
      SomethingWasRead(r, w.store.authority);
      var a := Attempt(PlanFor(r, w.store.authority).tx, |w.history|);
      UndisturbedCall(r, w, a);
      StepKeepsConsistent(w, a);
      w' := Step(w, a);
    } else {
      w' := w;
      NoWriteNoChange(r, w.store);
    }
  }

  lemma NoWriteNoChange(r: Request, s: Store)
    requires !PlanFor(r, s.authority).Write?
    ensures Execute(r, s).1 == s && Execute(r, s).0 != Ok(true)
  {
  }

  /** The event that the current step of a claimed transition appended, written out. */
  lemma LatestEvent(w: World, m: Manifest)
    requires Consistent(w) && w.store.authority.Some?
    requires w.store.authority.value.claim == Some(ClaimOf(m)) && 2 <= Rank(w.store.authority.value.phase)
    ensures var item, events := w.store.authority.value, w.store.events;
            var key := EventKey(m.authority.transitionId, item.revision, At(item.phase));
            && key in events
            && events[key] == EventItem(m, At(item.phase), item.revision, item.updatedAt, events[key].stepEvidence)
  {
    hide Follows, EventOf, Sound, Consistent, Rank;
    var n := LatestRecord(w);
    AdvanceAppends(ItemBefore(w.history, n), w.history[n], m);
  }

  lemma LatestRecord(w: World) returns (n: nat)
    requires Consistent(w) && w.store.authority.Some?
    ensures n < |w.history| && w.store.authority == Some(w.history[n].item) && w.history[n].item.revision == n
    ensures Follows(ItemBefore(w.history, n), w.history[n]) && Records(w.store.events, w.history[n].tx, n)
  {
    hide Follows, EventOf, Sound, Replay, Rank;
    n := |w.history| - 1;
    HistoryIsSound(w.history, n);
    LogIsGapless(w.history);
  }

  lemma AdvanceAppends(before: Option<Item>, e: Entry, m: Manifest)
    requires Follows(before, e) && e.item.claim == Some(ClaimOf(m)) && 2 <= Rank(e.item.phase)
    ensures EventOf(e.tx) == EventItem(m, At(e.item.phase), e.item.revision, e.item.updatedAt, EventOf(e.tx).stepEvidence)
  {
  }

  // ----- Outcomes -----

  lemma LatestItemIsSound(w: World)
    requires Consistent(w) && w.store.authority.Some?
    ensures Sound(w.store.authority.value)
  {
    hide Sound, Follows, Replay;
    HistoryIsSound(w.history, |w.history| - 1);
  }

  /** Initialisation happens exactly once, by a live failover manifest for generation zero. */
  lemma InitializeExactlyWhen(w: World, m: Manifest, now: nat, digest: Option<string>)
    requires Consistent(w)
    ensures var s := w.store;
            var (result, s') := Execute(Request(Initialize, m, now, digest), s);
            && (result == Ok(true) <==>
                  && s.authority.None? && 2 <= m.authority.schemaVersion <= 4 && m.authority.direction == Failover
                  && m.authority.expectedGeneration == 0 && now < m.authority.expiresAt)
            && (result != Ok(true) ==> result == Refused && s' == s)
            && (result == Ok(true) ==> s'.authority == Some(Item(0, Primary, Stable, 0, now, "", None)))
  {
    hide Consistent;
    var r := Request(Initialize, m, now, digest);
    if PlanFor(r, w.store.authority).Write? && w.store.authority.None? { PlannedWriteCommits(w, r); }
  }

  /**
   A claim commits exactly when the journal is stable at the manifest's generation and source and
   its authority is live; it is answered as resumed exactly while the manifest's own live claim
   stands at one of the two fencing phases; every other claim is refused.
   */
  lemma ClaimExactlyWhen(w: World, m: Manifest, now: nat, digest: Option<string>)
    requires Consistent(w) && w.store.authority.Some?
    ensures var s := w.store;
            var item := s.authority.value;
            var (result, s') := Execute(Request(ClaimFence, m, now, digest), s);
            && (result == Ok(true) <==>
                  && 2 <= m.authority.schemaVersion <= 4 && now < m.authority.expiresAt
                  && item.phase == Stable && item.generation == m.authority.expectedGeneration
                  && item.activeRegion == m.Source())
            && (result == Ok(false) <==>
                  && 2 <= m.authority.schemaVersion <= 4 && now < m.authority.expiresAt
                  && item.claim == Some(ClaimOf(m))
                  && (item.phase == FencingSource || item.phase == SourceFenced))
            && (result != Ok(true) ==> s' == s)
            && (result == Ok(true) ==>
                  s'.authority == Some(item.(phase := FencingSource, revision := item.revision + 1, updatedAt := now,
                                             claim := Some(ClaimOf(m)))))
  {
    hide Consistent;
    LatestItemIsSound(w);
    var r := Request(ClaimFence, m, now, digest);
    if PlanFor(r, w.store.authority).Write? { PlannedWriteCommits(w, r); }
  }

  /**
   A phase advances exactly by one rank, from the phase the journal stands at, under the
   manifest's own live claim.
   */
  lemma AdvanceExactlyWhen(w: World, m: Manifest, from: Phase, to: Phase, now: nat, digest: Option<string>)
    requires Consistent(w) && w.store.authority.Some?
    ensures var s := w.store;
            var item := s.authority.value;
            var (result, s') := Execute(Request(Advance(from, to), m, now, digest), s);
            && (result == Ok(true) <==>
                  && now < m.authority.expiresAt && 2 <= m.authority.schemaVersion <= 4
                  && item.claim == Some(ClaimOf(m)) && item.phase == from && Rank(to) == Rank(from) + 1)
            && (result != Ok(true) ==> s' == s)
            && (result == Ok(true) ==>
                  var key := EventKey(m.authority.transitionId, item.revision + 1, At(to));
                  && s'.authority == Some(item.(phase := to, revision := item.revision + 1, updatedAt := now))
                  && key !in s.events
                  && s'.events == s.events[key := Event(key, now, m.authority.direction, m.Source(), m.Target(), m.authority,
                                                        m.evidence, m.authority.approvals, digest)])
  {
    hide Consistent, ConditionHolds;
    LatestItemIsSound(w);
    AllowedByRank(from, to);
    hide Allowed, Rank;
    var r := Request(Advance(from, to), m, now, digest);
    if PlanFor(r, w.store.authority).Write? { PlannedWriteCommits(w, r); }
  }

  /** The table of phase pairs is the order of the ranks, from the first claimed phase on. */
  lemma AllowedByRank(from: Phase, to: Phase)
    ensures Allowed(from, to) <==> from != Stable && Rank(to) == Rank(from) + 1
  {
  }

  /**
   A repeated advance is answered exactly under the manifest's own live claim at the phase it
   leads to, and with step evidence only if the log holds that very evidence for the step.
   */
  lemma RepeatExactlyWhen(w: World, m: Manifest, from: Phase, to: Phase, now: nat, digest: Option<string>)
    requires Consistent(w) && w.store.authority.Some?
    ensures var item, events := w.store.authority.value, w.store.events;
            var key := EventKey(m.authority.transitionId, item.revision, At(to));
            Execute(Request(Advance(from, to), m, now, digest), w.store).0 == Ok(false) <==>
              && from != Stable && Rank(to) == Rank(from) + 1
              && now < m.authority.expiresAt && 2 <= m.authority.schemaVersion <= 4
              && item.claim == Some(ClaimOf(m)) && item.phase == to
              && (digest.Some? ==> key in events && events[key].stepEvidence == digest)
  {
    hide Consistent, ConditionHolds, EventOf, Updated;
    var r := Request(Advance(from, to), m, now, digest);
    var item := w.store.authority.value;
    LatestItemIsSound(w);
    AllowedByRank(from, to);
    hide Allowed, Rank;
    if item.claim == Some(ClaimOf(m)) && item.phase == to && from != Stable && Rank(to) == Rank(from) + 1 {
      EarliestRank(from);
      LatestEvent(w, m);
    }
  }

  lemma EarliestRank(p: Phase)
    ensures 1 <= Rank(p) <==> p != Stable
  {
  }

  /** A completion commits exactly from a verified route under the manifest's own live claim. */
  lemma CompleteExactlyWhen(w: World, m: Manifest, now: nat, digest: Option<string>)
    requires Consistent(w) && w.store.authority.Some?
    ensures var s := w.store;
            var item := s.authority.value;
            var (result, s') := Execute(Request(Complete, m, now, digest), s);
            && (result == Ok(true) <==>
                  && 3 <= m.authority.schemaVersion <= 4 && now < m.authority.expiresAt && digest.Some?
                  && item.claim == Some(ClaimOf(m)) && item.phase == VerifyingStableRoute)
            && (result != Ok(true) ==> s' == s)
            && (result == Ok(true) ==>
                  s'.authority == Some(Item(item.generation + 1, item.activeRegion.Other(), Stable, item.revision + 1, now,
                                            m.authority.transitionId, None)))
  {
    hide Consistent;
    LatestItemIsSound(w);
    var r := Request(Complete, m, now, digest);
    if PlanFor(r, w.store.authority).Write? { PlannedWriteCommits(w, r); }
  }

  /** A rollback commits exactly from a verified rollback under the manifest's own live claim. */
  lemma RollBackExactlyWhen(w: World, m: Manifest, now: nat, digest: Option<string>)
    requires Consistent(w) && w.store.authority.Some?
    ensures var s := w.store;
            var item := s.authority.value;
            var (result, s') := Execute(Request(RollBack, m, now, digest), s);
            && (result == Ok(true) <==>
                  && m.authority.schemaVersion == 4 && now < m.authority.expiresAt && digest.Some?
                  && item.claim == Some(ClaimOf(m)) && item.phase == VerifyingSourceRollback)
            && (result != Ok(true) ==> s' == s)
            && (result == Ok(true) ==>
                  s'.authority == Some(Item(item.generation + 2, item.activeRegion, Stable, item.revision + 1, now,
                                            m.authority.transitionId, None)))
  {
    hide Consistent;
    LatestItemIsSound(w);
    var r := Request(RollBack, m, now, digest);
    if PlanFor(r, w.store.authority).Write? { PlannedWriteCommits(w, r); }
  }

  /** Only initialisation can act on an absent journal. */
  lemma AbsentRefuses(w: World, r: Request)
    requires w.store.authority.None? && !r.kind.Initialize?
    ensures Execute(r, w.store) == (Refused, w.store)
  {
  }

  // ----- A claim and the record that follows it -----

  predicate Accepted(kind: Kind, m: Manifest, now: nat, digest: Option<string>, s: Store) {
    Execute(Request(kind, m, now, digest), s).0.Ok?
  }

  function Left(kind: Kind, m: Manifest, now: nat, digest: Option<string>, s: Store): Store {
    Execute(Request(kind, m, now, digest), s).1
  }

  /** The log holds `digest` as the evidence of the step that led to the current phase. */
  predicate Recorded(s: Store, m: Manifest, digest: string) {
    && s.authority.Some?
    && var item := s.authority.value;
    && var key := EventKey(m.authority.transitionId, item.revision, At(item.phase));
    && key in s.events && s.events[key].stepEvidence == Some(digest)
  }

  /** The journal stands at a phase under the manifest's own claim. */
  predicate Owns(s: Store, m: Manifest, phase: Phase) {
    s.authority.Some? && s.authority.value.phase == phase && s.authority.value.claim == Some(ClaimOf(m))
  }

  predicate Live(m: Manifest, now: nat) {
    2 <= m.authority.schemaVersion <= 4 && now < m.authority.expiresAt
  }

  /** One phase request, accepted or repeated, and where it leaves the journal. */
  lemma PhaseRequest(w: World, m: Manifest, from: Phase, to: Phase, now: nat, digest: Option<string>)
    requires Consistent(w) && w.store.authority.Some? && from != Stable && Rank(to) == Rank(from) + 1
    ensures Accepted(Advance(from, to), m, now, digest, w.store) <==>
              && Live(m, now)
              && (Owns(w.store, m, from) || (Owns(w.store, m, to) && (digest.Some? ==> Recorded(w.store, m, digest.value))))
    ensures Accepted(Advance(from, to), m, now, digest, w.store) ==>
              var s' := Left(Advance(from, to), m, now, digest, w.store);
              && Owns(s', m, to) && (digest.Some? ==> Recorded(s', m, digest.value))
              && s'.authority.value.activeRegion == w.store.authority.value.activeRegion
              && s'.authority.value.generation == w.store.authority.value.generation
              && s'.authority.value.lastCompleted == w.store.authority.value.lastCompleted
    ensures Owns(w.store, m, to) || !Accepted(Advance(from, to), m, now, digest, w.store) ==>
              Left(Advance(from, to), m, now, digest, w.store) == w.store
  {
    hide Execute, Consistent, Rank;
    AdvanceExactlyWhen(w, m, from, to, now, digest);
    RepeatExactlyWhen(w, m, from, to, now, digest);
    var result := Execute(Request(Advance(from, to), m, now, digest), w.store).0;
    TwoAnswers(result);
  }

  lemma TwoAnswers(result: Result<bool>)
    ensures result.Ok? <==> result == Ok(true) || result == Ok(false)
  {
    if result.Ok? && result.value { assert result == Ok(true); }
  }

  /** A claim and the record behind it are accepted together exactly from the claim's two phases. */
  lemma ClaimThenRecord(w: World, m: Manifest, first: Phase, from: Phase, to: Phase, now: nat, digest: Option<string>)
    requires Consistent(w) && w.store.authority.Some?
    requires first != Stable && Rank(from) == Rank(first) + 1 && Rank(to) == Rank(from) + 1
    ensures var claim, record := Advance(first, from), Advance(from, to);
            var claimed := Left(claim, m, now, None, w.store);
            && (Accepted(claim, m, now, None, w.store) <==> Live(m, now) && (Owns(w.store, m, first) || Owns(w.store, m, from)))
            && (Accepted(claim, m, now, None, w.store) ==>
                  && Owns(claimed, m, from)
                  && claimed.authority.value.activeRegion == w.store.authority.value.activeRegion
                  && claimed.authority.value.generation == w.store.authority.value.generation
                  && claimed.authority.value.lastCompleted == w.store.authority.value.lastCompleted
                  && Accepted(record, m, now, digest, claimed)
                  && Owns(Left(record, m, now, digest, claimed), m, to)
                  && (digest.Some? ==> Recorded(Left(record, m, now, digest, claimed), m, digest.value)))
            && (Owns(w.store, m, from) ==> claimed == w.store)
  {
    hide Accepted, Left, Consistent, Recorded, Rank, Live;
    PhaseRequest(w, m, first, from, now, None);
    if Accepted(Advance(first, from), m, now, None, w.store) {
      var w' := ClaimedWorld(w, Advance(first, from), m, now, None);
      FromIsClaimed(first, from);
      PhaseRequest(w', m, from, to, now, digest);
    }
  }

  lemma FromIsClaimed(first: Phase, from: Phase)
    requires Rank(from) == Rank(first) + 1
    ensures from != Stable
  {
  }

  lemma ClaimedWorld(w: World, kind: Kind, m: Manifest, now: nat, digest: Option<string>) returns (w': World)
    requires Consistent(w)
    ensures Consistent(w') && w'.store == Left(kind, m, now, digest, w.store)
  {
    hide Execute, Consistent;
    w' := CallKeepsConsistent(w, Request(kind, m, now, digest));
  }

  /** The same for the claim that opens a transition. */
  lemma FenceThenRecord(w: World, m: Manifest, now: nat, digest: string)
    requires Consistent(w) && w.store.authority.Some?
    ensures var item, record := w.store.authority.value, Advance(FencingSource, SourceFenced);
            var claimed := Left(ClaimFence, m, now, None, w.store);
            && (Accepted(ClaimFence, m, now, None, w.store) <==>
                  && Live(m, now)
                  && (|| (item.phase == Stable && item.generation == m.authority.expectedGeneration
                          && item.activeRegion == m.Source())
                      || Owns(w.store, m, FencingSource) || Owns(w.store, m, SourceFenced)))
            && (Accepted(ClaimFence, m, now, None, w.store) ==>
                  && (Owns(claimed, m, FencingSource) || (claimed == w.store && Owns(w.store, m, SourceFenced)))
                  && (Accepted(record, m, now, Some(digest), claimed) <==>
                        (Owns(w.store, m, SourceFenced) ==> Recorded(w.store, m, digest))))
            && (Accepted(ClaimFence, m, now, None, w.store) && Accepted(record, m, now, Some(digest), claimed) ==>
                  Owns(Left(record, m, now, Some(digest), claimed), m, SourceFenced)
                  && Recorded(Left(record, m, now, Some(digest), claimed), m, digest))
  {
    hide Consistent, Recorded, Rank, Execute;
    ClaimExactlyWhen(w, m, now, None);
    TwoAnswers(Execute(Request(ClaimFence, m, now, None), w.store).0);
    if Accepted(ClaimFence, m, now, None, w.store) {
      var w' := ClaimedWorld(w, ClaimFence, m, now, None);
      RanksOfFence();
      PhaseRequest(w', m, FencingSource, SourceFenced, now, Some(digest));
    }
  }

  lemma RanksOfFence()
    ensures Rank(SourceFenced) == Rank(FencingSource) + 1
  {
  }

  lemma NothingAccepted(w: World, from: Phase, to: Phase, m: Manifest, now: nat, digest: Option<string>)
    requires w.store.authority.None?
    ensures !Accepted(Advance(from, to), m, now, digest, w.store)
  {
    AbsentRefuses(w, Request(Advance(from, to), m, now, digest));
  }

  lemma LatestParses(w: World)
    requires Consistent(w) && w.store.authority.Some?
    ensures Parses(w.store.authority.value)
  {
    hide Consistent, Parses;
    LatestItemIsSound(w);
  }

  /** The stores a command of one claim and one record can leave behind once its claim is accepted. */
  predicate Stops(claim: Kind, record: Kind, m: Manifest, now: nat, digest: Option<string>, s: Store, s': Store) {
    var claimed := Left(claim, m, now, None, s);
    && Accepted(claim, m, now, None, s)
    && (s' == claimed || (Accepted(record, m, now, digest, claimed) && s' == Left(record, m, now, digest, claimed)))
  }

  lemma StoppedWorld(w: World, claim: Kind, record: Kind, m: Manifest, now: nat, digest: Option<string>, s': Store)
    returns (w': World)
    requires Consistent(w) && Stops(claim, record, m, now, digest, w.store, s')
    ensures Consistent(w') && w'.store == s'
  {
    hide Consistent, Accepted, Left;
    w' := ClaimedWorld(w, claim, m, now, None);
    if s' != w'.store { w' := ClaimedWorld(w', record, m, now, digest); }
  }
}
