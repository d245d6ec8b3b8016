/**
 The witness table as an object, and the journal functions as methods that read it,
 decide, and transact. Each is proved against `Journal.Execute`.
 */
module JournalTable {
  import opened Base
  import opened Journal

  class Table {
    var authority: Option<Item>
    var events: map<EventKey, Event>

    constructor ()
      ensures Contents() == EmptyStore
    {
      authority, events := None, map[];
    }

    function Contents(): Store
      reads this
    {
      Store(authority, events)
    }

    /** All writes of the transaction, or none. */
    method TransactWriteItems(tx: Tx) returns (committed: bool)
      modifies this
      ensures committed <==> Commit(tx, old(Contents())).Some?
      ensures Contents() == if committed then Commit(tx, old(Contents())).value else old(Contents())
    {
      var event := EventOf(tx);
      if !ConditionHolds(tx, authority) || event.key in events {
        return false;
      }
      authority := Some(Updated(tx, authority));
      events := events[event.key := event];
      return true;
    }

    /** Raises unless the stored item has one of the two accepted field sets. */
    method ReadState(m: Manifest) returns (r: Result<Item>)
      ensures r.Ok? <==> m.HasJournalAuthority() && authority.Some? && Parses(authority.value)
      ensures r.Ok? ==> authority == Some(r.value)
    {
      if !m.HasJournalAuthority() || authority.None? || !Parses(authority.value) {
        return Refused;
      }
      return Ok(authority.value);
    }

    method VerifyCompletedStepEvidence(key: EventKey, m: Manifest, stepEvidence: string) returns (matches: bool)
      ensures matches <==> EvidenceMatches(events, key, m, Some(stepEvidence))
    {
      if key !in events {
        return false;
      }
      var e := events[key];
      matches := && e.key == EventKey(m.authority.transitionId, key.revision, key.tag)
                 && e.direction == m.authority.direction
                 && e.source == m.Source()
                 && e.target == m.Target()
                 && e.authority == m.authority
                 && e.evidence == m.evidence
                 && e.approvals == m.authority.approvals
                 && e.stepEvidence == Some(stepEvidence)
                 && key.transitionId == m.authority.transitionId;
    }

    /** Create generation-zero primary authority exactly once. */
    method InitializeState(m: Manifest, now: nat) returns (r: Result<bool>)
      modifies this
      ensures (r, Contents()) == Execute(Request(Initialize, m, now, None), old(Contents()))
    {
      if || !m.HasJournalAuthority() || !m.authority.direction.Failover?
         || m.authority.expectedGeneration != 0 || m.authority.expiresAt <= now {
        return Refused;
      }
      var committed := TransactWriteItems(Tx(Request(Initialize, m, now, None), 0));
      return if committed then Ok(true) else Refused;
    }

    /** Move stable authority into FENCING_SOURCE, or resume the same claim. */
    method ClaimSourceFence(m: Manifest, now: nat) returns (r: Result<bool>)
      modifies this
      ensures (r, Contents()) == Execute(Request(ClaimFence, m, now, None), old(Contents()))
    {
      var read := ReadState(m);
      if read.Refused? {
        return Refused;
      }
      var state := read.value;
      if state.phase != Stable {
        if !SameAuthority(state, m, now) || (state.phase != FencingSource && state.phase != SourceFenced) {
          return Refused;
        }
        return Ok(false);
      }
      if || m.authority.expiresAt <= now || state.generation != m.authority.expectedGeneration
         || state.activeRegion != m.Source() {
        return Refused;
      }
      var committed := TransactWriteItems(Tx(Request(ClaimFence, m, now, None), state.revision));
      return if committed then Ok(true) else Refused;
    }

    /** Advance one exact phase, or accept a repeat bound to its recorded evidence. */
    method AdvancePhase(m: Manifest, from: Phase, to: Phase, now: nat, stepEvidence: Option<string>)
      returns (r: Result<bool>)
      modifies this
      ensures (r, Contents()) == Execute(Request(Advance(from, to), m, now, stepEvidence), old(Contents()))
    {
      hide Allowed, Commit, EvidenceMatches, SameAuthority, Parses;
      if !Allowed(from, to) {
        return Refused;
      }
      var read := ReadState(m);
      if read.Refused? {
        return Refused;
      }
      var state := read.value;
      if !SameAuthority(state, m, now) {
        return Refused;
      }
      if state.phase == to {
        if stepEvidence.Some? {
          var key := EventKey(m.authority.transitionId, state.revision, At(to));
          var matches := VerifyCompletedStepEvidence(key, m, stepEvidence.value);
          return if matches then Ok(false) else Refused;
        }
        return Ok(false);
      }
      if state.phase != from {
        return Refused;
      }
      var committed := TransactWriteItems(Tx(Request(Advance(from, to), m, now, stepEvidence), state.revision));
      return if committed then Ok(true) else Refused;
    }

    /** Seal a verified route as the next stable generation. */
    method CompleteTransition(m: Manifest, now: nat, stepEvidence: string) returns (r: Result<bool>)
      modifies this
      ensures (r, Contents()) == Execute(Request(Complete, m, now, Some(stepEvidence)), old(Contents()))
    {
      if !m.HasRoutingAuthority() {
        return Refused;
      }
      var read := ReadState(m);
      if read.Refused? {
        return Refused;
      }
      var state := read.value;
      if state.phase == Stable {
        if || state.generation != m.authority.expectedGeneration + 1 || state.activeRegion != m.Target()
           || state.lastCompleted != m.authority.transitionId {
          return Refused;
        }
        var key := EventKey(m.authority.transitionId, state.revision, At(Stable));
        var matches := VerifyCompletedStepEvidence(key, m, stepEvidence);
        return if matches then Ok(false) else Refused;
      }
      if state.phase != VerifyingStableRoute || !SameAuthority(state, m, now) {
        return Refused;
      }
      var committed := TransactWriteItems(Tx(Request(Complete, m, now, Some(stepEvidence)), state.revision));
      return if committed then Ok(true) else Refused;
    }

    /** Seal a proved rollback two generations on, with the source active again. */
    method CompleteRollback(m: Manifest, now: nat, stepEvidence: string) returns (r: Result<bool>)
      modifies this
      ensures (r, Contents()) == Execute(Request(RollBack, m, now, Some(stepEvidence)), old(Contents()))
    {
      if !m.HasReactivationAuthority() {
        return Refused;
      }
      var read := ReadState(m);
      if read.Refused? {
        return Refused;
      }
      var state := read.value;
      if state.phase == Stable {
        if || state.generation != m.authority.expectedGeneration + 2 || state.activeRegion != m.Source()
           || state.lastCompleted != m.authority.transitionId {
          return Refused;
        }
        var key := EventKey(m.authority.transitionId, state.revision, RolledBack);
        var matches := VerifyCompletedStepEvidence(key, m, stepEvidence);
        return if matches then Ok(false) else Refused;
      }
      if state.phase != VerifyingSourceRollback || !SameAuthority(state, m, now) {
        return Refused;
      }
      var committed := TransactWriteItems(Tx(Request(RollBack, m, now, Some(stepEvidence)), state.revision));
      return if committed then Ok(true) else Refused;
    }
  }
}
