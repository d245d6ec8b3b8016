/**
 What the journal guarantees to any number of concurrent clients. Each client
 reads the authority item, decides in memory and sends its transaction at any
 later moment. Every interleaving turns out to be a serial history, and the laws
 below are laws of serial histories.
 */
module JournalHistory {
  import opened Base
  import opened Journal

  /** A committed transaction and the item it left behind. */
  datatype Entry = Entry(tx: Tx, item: Item)

  function ItemBefore(h: seq<Entry>, i: nat): Option<Item>
    requires i <= |h|
  {
    if i == 0 then None else Some(h[i - 1].item)
  }

  /** `e` is a whole journal call, checks included, made on `before` with nothing in between. */
  predicate Follows(before: Option<Item>, e: Entry) {
    && PlanFor(e.tx.request, before) == Write(e.tx)
    && ConditionHolds(e.tx, before)
    && e.item == Updated(e.tx, before)
  }

  predicate Serial(h: seq<Entry>) {
    forall i :: 0 <= i < |h| ==> Follows(ItemBefore(h, i), h[i])
  }

  /** The stored authority and log after a history. */
  function Replay(h: seq<Entry>): Store {
    if |h| == 0 then EmptyStore
    else
      var e := h[|h| - 1];
      var event := EventOf(e.tx);
      Store(Some(e.item), Replay(h[..|h| - 1]).events[event.key := event])
  }

  // ----- Concurrent clients -----

  /** A transaction sent by a client that had read the authority left by `readAt` commits. */
  datatype Attempt = Attempt(tx: Tx, readAt: nat)

  datatype World = World(store: Store, history: seq<Entry>)

  predicate Planned(a: Attempt, h: seq<Entry>) {
    && a.readAt <= |h|
    && PlanFor(a.tx.request, ItemBefore(h, a.readAt)) == Write(a.tx)
    && (a.tx.request.kind.Initialize? ==> a.readAt == 0)
  }

  function Step(w: World, a: Attempt): World {
    if !Planned(a, w.history) then w
    else match Commit(a.tx, w.store)
      case None => w
      case Some(s) => World(s, w.history + [Entry(a.tx, s.authority.value)])
  }

  /** Any finite interleaving; an attempt no client could have planned changes nothing. */
  function Run(attempts: seq<Attempt>): World {
    if |attempts| == 0 then World(EmptyStore, [])
    else Step(Run(attempts[..|attempts| - 1]), attempts[|attempts| - 1])
  }

  // ----- Items of a serial history -----

  /** What every committed item satisfies, the generation-parity law included. */
  predicate Sound(item: Item) {
    && Parses(item)
    && (item.activeRegion.Primary? <==> item.generation % 2 == 0)
    && (item.claim.Some? ==>
          var c := item.claim.value;
          && c == ClaimOf(Manifest(c.authority, c.evidence))
          && c.authority.expectedGeneration == item.generation
          && c.source == item.activeRegion
          && c.authority.schemaVersion >= 2)
  }

  /** How an item relates to every later one; transitive by construction. */
  predicate Later(a: Item, b: Item) {
    && a.revision <= b.revision
    && a.generation <= b.generation
    && (a.generation == b.generation ==>
          && a.activeRegion == b.activeRegion
          && a.lastCompleted == b.lastCompleted
          && Rank(a.phase) <= Rank(b.phase)
          && (a.claim.Some? ==> b.claim == a.claim))
    && (Rank(a.phase) > Rank(VerifyingStableRoute) && a.generation < b.generation ==>
          a.generation + 2 <= b.generation)
  }

  lemma FollowsIsSound(before: Option<Item>, e: Entry)
    requires Follows(before, e)
    requires before.Some? ==> Sound(before.value)
    ensures Sound(e.item)
    ensures before.Some? ==> Later(before.value, e.item) && e.item.revision == before.value.revision + 1
    ensures before.None? ==> e.item.revision == 0
    ensures EventOf(e.tx).key.revision == e.item.revision
  {
  }

  /** A planned transaction names the revision its client read and meets its own condition there. */
  lemma PlanMeetsItsCondition(r: Request, read: Option<Item>, tx: Tx)
    requires PlanFor(r, read) == Write(tx)
    requires read.Some? ==> Sound(read.value)
    ensures tx.request == r
    ensures r.kind.Initialize? ==> tx.revision == 0 && EventOf(tx).key.revision == 0
    ensures !r.kind.Initialize? ==>
              && read.Some?
              && tx.revision == read.value.revision
              && EventOf(tx).key.revision == tx.revision + 1
              && ConditionHolds(tx, read)
  {
  }

  lemma ConditionFixesRevision(tx: Tx, current: Option<Item>)
    requires ConditionHolds(tx, current)
    ensures tx.request.kind.Initialize? <==> current.None?
    ensures current.Some? ==> current.value.revision == tx.revision
  {
  }

  lemma {:induction false} HistoryIsSound(h: seq<Entry>, i: nat)
    requires Serial(h) && i < |h|
    ensures Sound(h[i].item)
    ensures h[i].item.revision == i
    ensures EventOf(h[i].tx).key.revision == i
  {
    hide Follows, Sound, Later, EventOf;
    if i > 0 { HistoryIsSound(h, i - 1); }
    FollowsIsSound(ItemBefore(h, i), h[i]);
  }

  lemma {:induction false} HistoryIsLater(h: seq<Entry>, i: nat, j: nat)
    requires Serial(h) && i <= j < |h|
    ensures Later(h[i].item, h[j].item)
  {
    hide Follows, Sound;
    if i < j {
      HistoryIsLater(h, i, j - 1);
      HistoryIsSound(h, j - 1);
      FollowsIsSound(ItemBefore(h, j), h[j]);
    }
  }

  // ----- The log -----

  lemma SerialPrefix(h: seq<Entry>, n: nat)
    requires Serial(h) && n <= |h|
    ensures Serial(h[..n])
  {
    hide Follows;
    forall i | 0 <= i < n
      ensures Follows(ItemBefore(h[..n], i), h[..n][i])
    {
      assert ItemBefore(h[..n], i) == ItemBefore(h, i);
    }
  }

  /** Gapless log: exactly one event for each revision of the history, namely that of its commit. */
  predicate IsLogOf(events: map<EventKey, Event>, h: seq<Entry>) {
    && (forall i :: 0 <= i < |h| ==> Records(events, h[i].tx, i))
    && (forall key :: key in events ==> key.revision < |h| && key == EventOf(h[key.revision].tx).key)
  }

  predicate Records(events: map<EventKey, Event>, tx: Tx, revision: nat) {
    var event := EventOf(tx);
    event.key.revision == revision && event.key in events && events[event.key] == event
  }

  lemma {:induction false} LogIsGapless(h: seq<Entry>)
    requires Serial(h)
    ensures IsLogOf(Replay(h).events, h)
  {
    hide Follows, EventOf, IsLogOf;
    if |h| == 0 {
      EmptyLog();
    } else {
      var g := h[..|h| - 1];
      SerialPrefix(h, |g|);
      LogIsGapless(g);
      HistoryIsSound(h, |g|);
      assert h == g + [h[|g|]];
      LogAppend(Replay(g).events, g, h[|g|]);
    }
  }

  lemma EmptyLog()
    ensures IsLogOf(map[], [])
  {
  }

  lemma LogAppend(events: map<EventKey, Event>, h: seq<Entry>, e: Entry)
    requires IsLogOf(events, h) && EventOf(e.tx).key.revision == |h|
    ensures IsLogOf(events[EventOf(e.tx).key := EventOf(e.tx)], h + [e])
  {
    hide EventOf;
  }

  // ----- Serialisability -----

  predicate Consistent(w: World) {
    && Serial(w.history)
    && w.store == Replay(w.history)
    && w.store.authority == ItemBefore(w.history, |w.history|)
  }

  /**
   Compare-and-swap on `revision` loses nothing: a planned transaction commits exactly
   when no other transaction has committed since its client read the authority.
   */
  lemma CommitsExactlyWhenFresh(w: World, a: Attempt)
    requires Consistent(w) && Planned(a, w.history)
    ensures ConditionHolds(a.tx, w.store.authority) <==> a.readAt == |w.history|
    ensures Commit(a.tx, w.store).Some? <==> a.readAt == |w.history|
  {
    hide Follows, ConditionHolds, EventOf, PlanFor, Sound, Updated, Replay, Serial;
    var h := w.history;
    LogIsGapless(h);
    if |h| > 0 { HistoryIsSound(h, |h| - 1); }
    if a.readAt > 0 { HistoryIsSound(h, a.readAt - 1); }
    PlanMeetsItsCondition(a.tx.request, ItemBefore(h, a.readAt), a.tx);
    if ConditionHolds(a.tx, w.store.authority) {
      ConditionFixesRevision(a.tx, w.store.authority);
    } else if a.readAt == |h| == 0 {
      InitializeNeedsAbsence(a.tx);
    }
  }

  lemma InitializeNeedsAbsence(tx: Tx)
    requires tx.request.kind.Initialize?
    ensures ConditionHolds(tx, None)
  {
  }

  lemma SerialAppend(h: seq<Entry>, e: Entry)
    requires Serial(h) && Follows(ItemBefore(h, |h|), e)
    ensures Serial(h + [e])
  {
    hide Follows;
    forall i | 0 <= i < |h| + 1
      ensures Follows(ItemBefore(h + [e], i), (h + [e])[i])
    {
      assert ItemBefore(h + [e], i) == ItemBefore(h, i);
    }
  }

  lemma StepKeepsConsistent(w: World, a: Attempt)
    requires Consistent(w)
    ensures Consistent(Step(w, a))
  {
    hide ConditionHolds, EventOf, PlanFor, Updated;
    if Planned(a, w.history) && Commit(a.tx, w.store).Some? {
      CommitsExactlyWhenFresh(w, a);
      var e := Entry(a.tx, Commit(a.tx, w.store).value.authority.value);
      SerialAppend(w.history, e);
      assert (w.history + [e])[..|w.history|] == w.history;
    }
  }

  /** Every interleaving leaves the store of some serial history. */
  lemma {:induction false} EveryRunIsSerial(attempts: seq<Attempt>)
    ensures Consistent(Run(attempts))
  {
    hide Consistent, Step;
    if |attempts| == 0 {
      EmptyIsConsistent();
    } else {
      EveryRunIsSerial(attempts[..|attempts| - 1]);
      StepKeepsConsistent(Run(attempts[..|attempts| - 1]), attempts[|attempts| - 1]);
    }
  }

  lemma EmptyIsConsistent()
    ensures Consistent(World(EmptyStore, []))
  {
  }

  /**
   No ABA: whenever a transaction's condition holds at commit, the whole authority item
   is still the one its client read, so the checks made in memory hold as well, and the
   event it appends is new.
   */
  lemma CasSeesTheItemItRead(attempts: seq<Attempt>, a: Attempt)
    requires Planned(a, Run(attempts).history)
    requires ConditionHolds(a.tx, Run(attempts).store.authority)
    ensures Run(attempts).store.authority == ItemBefore(Run(attempts).history, a.readAt)
    ensures PlanFor(a.tx.request, Run(attempts).store.authority) == Write(a.tx)
    ensures EventOf(a.tx).key !in Run(attempts).store.events
  {
    hide ConditionHolds, EventOf, PlanFor, Updated, Follows;
    EveryRunIsSerial(attempts);
    CommitsExactlyWhenFresh(Run(attempts), a);
  }

  /** A transaction sent at once has the effect of the whole journal call. */
  lemma UndisturbedCall(r: Request, w: World, a: Attempt)
    requires Consistent(w) && a == Attempt(a.tx, |w.history|) && PlanFor(r, w.store.authority) == Write(a.tx)
    ensures Execute(r, w.store) == (if Step(w, a) != w then Ok(true) else Refused, Step(w, a).store)
  {
    hide PlanFor, Serial, Replay, EventOf, Updated;
    SomethingWasRead(r, w.store.authority);
    WritingCall(r, w.store);
    if r.kind.Initialize? && |w.history| > 0 { InitializeIsOnce(a.tx, w.store); }
  }

  lemma WritingCall(r: Request, s: Store)
    requires PlanFor(r, s.authority).Write?
    ensures Execute(r, s) == match Commit(PlanFor(r, s.authority).tx, s) { case None => (Refused, s) case Some(s') => (Ok(true), s') }
  {
  }

  lemma InitializeIsOnce(tx: Tx, s: Store)
    requires tx.request.kind.Initialize? && s.authority.Some?
    ensures Commit(tx, s).None?
  {
  }

  lemma SomethingWasRead(r: Request, read: Option<Item>)
    requires !PlanFor(r, read).Refuse?
    ensures read.None? ==> PlanFor(r, read).Write? && r.kind.Initialize?
    ensures PlanFor(r, read).Write? ==> PlanFor(r, read).tx.request == r
  {
  }

  // ----- Counting -----

  function Count(h: seq<Entry>, kind: Kind): nat {
    if |h| == 0 then 0
    else Count(h[..|h| - 1], kind) + if h[|h| - 1].tx.request.kind == kind then 1 else 0
  }

  predicate Counted(item: Item, completed: nat, rolledBack: nat) {
    && item.generation == completed + 2 * rolledBack
    && item.revision == 11 * completed + 19 * rolledBack + Rank(item.phase)
  }

  lemma CountStep(before: Option<Item>, e: Entry, c: nat, r: nat)
    requires Follows(before, e)
    requires if before.None? then c == r == 0 else Counted(before.value, c, r)
    ensures Counted(e.item,
                    c + if e.tx.request.kind == Complete then 1 else 0,
                    r + if e.tx.request.kind == RollBack then 1 else 0)
  {
  }

  /** With c completed and r rolled-back transitions: generation c + 2r, revision 11c + 19r + rank(phase). */
  lemma {:induction false} CountingLaw(h: seq<Entry>)
    requires Serial(h) && |h| > 0
    ensures Counted(h[|h| - 1].item, Count(h, Complete), Count(h, RollBack))
  {
    hide Follows, Counted;
    var n := |h| - 1;
    if n > 0 {
      SerialPrefix(h, n);
      CountingLaw(h[..n]);
    }
    CountStep(ItemBefore(h, n), h[n], Count(h[..n], Complete), Count(h[..n], RollBack));
  }

  predicate HasRevision(events: map<EventKey, Event>, n: nat) {
    exists key :: key in events && key.revision == n
  }

  /** The counting, parity and gapless-log laws, for every interleaving of clients. */
  lemma ReachableJournals(attempts: seq<Attempt>)
    requires Run(attempts).store.authority.Some?
    ensures var w := Run(attempts);
            var item := w.store.authority.value;
            && Counted(item, Count(w.history, Complete), Count(w.history, RollBack))
            && (item.activeRegion.Primary? <==> item.generation % 2 == 0)
            && (forall n: nat :: n <= item.revision <==> HasRevision(w.store.events, n))
            && (forall k1, k2 :: k1 in w.store.events && k2 in w.store.events && k1.revision == k2.revision ==> k1 == k2)
  {
    hide Follows, Counted, EventOf, Run, IsLogOf, Replay, HasRevision;
    var w := Run(attempts);
    EveryRunIsSerial(attempts);
    CountingLaw(w.history);
    HistoryIsSound(w.history, |w.history| - 1);
    LogIsGapless(w.history);
    LogRevisions(w.store.events, w.history);
  }

  /** The log of a history holds one event for each of its revisions and no other. */
  lemma LogRevisions(events: map<EventKey, Event>, h: seq<Entry>)
    requires IsLogOf(events, h)
    ensures forall n: nat :: n < |h| <==> HasRevision(events, n)
    ensures forall k1, k2 :: k1 in events && k2 in events && k1.revision == k2.revision ==> k1 == k2
  {
    hide EventOf;
    forall n: nat | n < |h|
      ensures HasRevision(events, n)
    {
      assert Records(events, h[n].tx, n);
      assert EventOf(h[n].tx).key in events;
    }
  }

  // ----- Claims and outcomes -----

  lemma ClaimFacts(before: Option<Item>, e: Entry)
    requires Follows(before, e) && e.tx.request.kind.ClaimFence?
    ensures before.Some? && before.value.claim.None?
    ensures before.value.generation == e.item.generation == e.tx.request.manifest.authority.expectedGeneration
    ensures e.item.claim == Some(ClaimOf(e.tx.request.manifest))
    ensures before.value.activeRegion == e.tx.request.manifest.Source()
  {
  }

  /** Failover is only ever claimed at an even generation and failback at an odd one. */
  lemma ClaimDirectionFollowsParity(h: seq<Entry>, i: nat)
    requires Serial(h) && i < |h| && h[i].tx.request.kind.ClaimFence?
    ensures h[i].tx.request.manifest.authority.direction.Failover? <==>
            h[i].tx.request.manifest.authority.expectedGeneration % 2 == 0
  {
    hide Follows;
    ClaimFacts(ItemBefore(h, i), h[i]);
    HistoryIsSound(h, i - 1);
  }

  /** One claim per generation, in increasing order; so no manifest ever claims twice. */
  lemma OneClaimPerGeneration(h: seq<Entry>, i: nat, j: nat)
    requires Serial(h) && i < j < |h|
    requires h[i].tx.request.kind.ClaimFence? && h[j].tx.request.kind.ClaimFence?
    ensures h[i].tx.request.manifest.authority.expectedGeneration < h[j].tx.request.manifest.authority.expectedGeneration
  {
    hide Follows;
    ClaimFacts(ItemBefore(h, i), h[i]);
    ClaimFacts(ItemBefore(h, j), h[j]);
    HistoryIsLater(h, i, j - 1);
  }

  predicate IsOutcome(tx: Tx) { tx.request.kind.Complete? || tx.request.kind.RollBack? }

  /** Every commit after initialisation is made at the generation its manifest expects. */
  lemma CommitGeneration(before: Option<Item>, e: Entry)
    requires Follows(before, e)
    ensures before.Some? ==> before.value.generation == e.tx.request.manifest.authority.expectedGeneration
    ensures IsOutcome(e.tx) ==> e.item.generation > e.tx.request.manifest.authority.expectedGeneration
  {
  }

  /**
   One outcome per manifest: once its completion or its rollback is committed, no further
   event of that manifest can ever be committed, whichever requests race.
   */
  lemma OutcomeIsFinal(h: seq<Entry>, i: nat, j: nat)
    requires Serial(h) && i < j < |h| && IsOutcome(h[i].tx)
    ensures h[i].tx.request.manifest.authority.expectedGeneration < h[j].tx.request.manifest.authority.expectedGeneration
    ensures h[j].tx.request.manifest != h[i].tx.request.manifest
  {
    hide Follows;
    CommitGeneration(ItemBefore(h, i), h[i]);
    CommitGeneration(ItemBefore(h, j), h[j]);
    HistoryIsLater(h, i, j - 1);
  }

  // ----- Retries -----

  /** The latest commit is this very request, its clock apart. */
  predicate IsLatest(h: seq<Entry>, r: Request) {
    && |h| > 0
    && h[|h| - 1].tx.request.kind == r.kind
    && h[|h| - 1].tx.request.manifest == r.manifest
    && h[|h| - 1].tx.request.stepEvidence == r.stepEvidence
  }

  lemma PhaseRetry(r: Request, before: Option<Item>, e: Entry, s: Store)
    requires r.kind.Advance?
    requires r.stepEvidence.Some?
    requires Follows(before, e) && Sound(e.item) && (before.Some? ==> Sound(before.value))
    requires s.authority == Some(e.item) && Records(s.events, e.tx, e.item.revision)
    requires forall key :: key in s.events && key.revision == e.item.revision ==> key == EventOf(e.tx).key
    ensures Execute(r, s).0 == Ok(false) <==>
              && e.tx.request.(now := r.now) == r
              && r.now < r.manifest.authority.expiresAt
    ensures Execute(r, s).0 != Ok(true) ==> Execute(r, s).1 == s
  {
    if e.tx.request.kind.Advance? { OnePhaseBefore(e.tx.request.kind.from, r.kind.from, r.kind.to); }
    hide Allowed, OwnedAt;
  }

  /** Each phase is entered from one phase only. */
  lemma OnePhaseBefore(from1: Phase, from2: Phase, to: Phase)
    ensures Allowed(from1, to) && Allowed(from2, to) ==> from1 == from2
  {
  }

  lemma CompletionRetry(r: Request, before: Option<Item>, e: Entry, s: Store)
    requires r.kind.Complete?
    requires r.stepEvidence.Some?
    requires Follows(before, e) && Sound(e.item) && (before.Some? ==> Sound(before.value))
    requires s.authority == Some(e.item) && Records(s.events, e.tx, e.item.revision)
    requires forall key :: key in s.events && key.revision == e.item.revision ==> key == EventOf(e.tx).key
    ensures Execute(r, s).0 == Ok(false) <==>
              e.tx.request.(now := r.now) == r
    ensures Execute(r, s).0 != Ok(true) ==> Execute(r, s).1 == s
  {
  }

  lemma RollbackRetry(r: Request, before: Option<Item>, e: Entry, s: Store)
    requires r.kind.RollBack?
    requires r.stepEvidence.Some?
    requires Follows(before, e) && Sound(e.item) && (before.Some? ==> Sound(before.value))
    requires s.authority == Some(e.item) && Records(s.events, e.tx, e.item.revision)
    requires forall key :: key in s.events && key.revision == e.item.revision ==> key == EventOf(e.tx).key
    ensures Execute(r, s).0 == Ok(false) <==>
              e.tx.request.(now := r.now) == r
    ensures Execute(r, s).0 != Ok(true) ==> Execute(r, s).1 == s
  {
  }

  /** The same at the level of one item, its last transaction and the event it appended. */
  lemma RetryMeetsItsEvent(r: Request, before: Option<Item>, e: Entry, s: Store)
    requires r.kind.Advance? || r.kind.Complete? || r.kind.RollBack?
    requires r.stepEvidence.Some?
    requires Follows(before, e) && Sound(e.item) && (before.Some? ==> Sound(before.value))
    requires s.authority == Some(e.item) && Records(s.events, e.tx, e.item.revision)
    requires forall key :: key in s.events && key.revision == e.item.revision ==> key == EventOf(e.tx).key
    ensures Execute(r, s).0 == Ok(false) <==>
              && e.tx.request.(now := r.now) == r
              && (r.kind.Advance? ==> r.now < r.manifest.authority.expiresAt)
    ensures Execute(r, s).0 != Ok(true) ==> Execute(r, s).1 == s
  {
    hide Execute, Follows, Sound, Records, EventOf;
    match r.kind
    case Advance(_, _) => PhaseRetry(r, before, e, s);
    case Complete => CompletionRetry(r, before, e, s);
    case RollBack => RollbackRetry(r, before, e, s);
  }

  lemma EmptyReplay()
    ensures Replay([]) == EmptyStore
  {
  }

  lemma AbsentJournalRefuses(r: Request)
    requires !r.kind.Initialize?
    ensures Execute(r, EmptyStore) == (Refused, EmptyStore)
  {
  }

  /** What an evidence-free repeat of a phase step is answered by: the live authority alone. */
  predicate StandsUnder(item: Option<Item>, r: Request) {
    && r.kind.Advance? && Allowed(r.kind.from, r.kind.to) && r.manifest.HasJournalAuthority()
    && item.Some? && item.value.phase == r.kind.to && SameAuthority(item.value, r.manifest, r.now)
  }

  lemma PlainRetry(r: Request, s: Store)
    requires r.stepEvidence.None? && (r.kind.Advance? || r.kind.Complete? || r.kind.RollBack?)
    requires s.authority.Some? ==> Sound(s.authority.value)
    ensures Execute(r, s).0 == Ok(false) <==> StandsUnder(s.authority, r)
    ensures Execute(r, s).0 != Ok(true) ==> Execute(r, s).1 == s
  {
  }

  /**
   A repeated step is accepted without a write exactly when the latest commit is that step with
   that evidence; a phase step also needs its authority to be unexpired. Without evidence only a
   phase step can be repeated, exactly while the same live authority stands at its phase.
   */
  lemma RetryIsBoundToEvidence(attempts: seq<Attempt>, r: Request)
    requires r.kind.Advance? || r.kind.Complete? || r.kind.RollBack?
    ensures var w := Run(attempts);
            && (r.stepEvidence.Some? ==>
                  (Execute(r, w.store).0 == Ok(false) <==>
                     IsLatest(w.history, r) && (r.kind.Advance? ==> r.now < r.manifest.authority.expiresAt)))
            && (r.stepEvidence.None? ==>
                  (Execute(r, w.store).0 == Ok(false) <==> StandsUnder(w.store.authority, r)))
            && (Execute(r, w.store).0 != Ok(true) ==> Execute(r, w.store).1 == w.store)
  {
    hide Follows, EventOf, Run, Sound, Execute, Replay, Records, StandsUnder;
    var w := Run(attempts);
    var h := w.history;
    EveryRunIsSerial(attempts);
    LogIsGapless(h);
    if r.stepEvidence.None? {
      if |h| > 0 { HistoryIsSound(h, |h| - 1); }
      PlainRetry(r, w.store);
    } else if |h| == 0 {
      AbsentJournalRefuses(r);
      EmptyReplay();
    } else {
      var n := |h| - 1;
      HistoryIsSound(h, n);
      if n > 0 { HistoryIsSound(h, n - 1); }
      RetryMeetsItsEvent(r, ItemBefore(h, n), h[n], w.store);
    }
  }
}
