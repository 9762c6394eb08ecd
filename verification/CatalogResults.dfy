/** What holds in every reachable state of catalog synchronization, and what one
    more event can change. */
module CatalogResults {
  import opened Text
  import opened SyncLock
  import opened CatalogProtocol
  import opened CatalogSafety

  /** At most one live operation is between publishing the lock and releasing
      it, and then the lock file is its own record. */
  lemma MutualExclusion(events: seq<Event>, a: OwnerId, b: OwnerId)
    requires var w := Run(events); Running(w, a) && Running(w, b) && Holding(w.ops[a].pc) && Holding(w.ops[b].pc)
    ensures a == b && Run(events).lock == Some(Whole(Record(a, Run(events).ops[a])))
  {
    hide Run, Inv;
    RunKeepsInv(events);
    OneHolder(Run(events), a, b);
    RunningOk(Run(events), a);
  }

  /** No reader ever sees a torn lock or candidate: each holds the record of an
      operation that has begun, and a candidate that of its own name. */
  lemma RecordsAreWhole(events: seq<Event>)
    ensures var w := Run(events);
            && (w.lock.Some? ==> w.lock.value.Whole? && Known(w.ops, w.lock.value.content))
            && forall id | id in w.candidates :: id in w.ops && w.candidates[id] == Whole(Record(id, w.ops[id]))
  {
    hide Run;
    RunKeepsInv(events);
  }

  /** The active index is absent or whole. It lists no package twice, and each of
      its Ready entries names a complete store object that records that very
      identity. */
  lemma IndexIsWhole(events: seq<Event>)
    ensures var w := Run(events);
            w.index.Some? ==>
              && w.index.value.Whole?
              && Distinct(w.index.value.content)
              && forall e | e in w.index.value.content && e.ready ::
                   e.identity.hash in w.store && Complete(w.store[e.identity.hash]) && w.store[e.identity.hash].package.identity == e.identity
  {
    hide Run;
    RunKeepsInv(events);
    var w := Run(events);
    if w.index.Some? {
      forall e | e in w.index.value.content && e.ready
        ensures e.identity.hash in w.store && Complete(w.store[e.identity.hash]) && w.store[e.identity.hash].package.identity == e.identity
      {
        assert EntryStored(w.store, e);
      }
    }
  }

  // ---- the store ---------------------------------------------------------------------

  lemma StepGrowsStore(w: World, e: Event)
    ensures StoreGrows(w, Step(w, e))
  {
    hide AfterSuccess, AfterFailure, Add, AfterRead, TemporariesAfter, CandidatesAfter, LockAfter, StagingAfter, IndexTemporariesAfter, IndexAfter;
  }

  /** Store objects are never replaced and never vanish. */
  lemma {:induction false} StoreIsImmutable(before: seq<Event>, after: seq<Event>)
    ensures StoreGrows(Run(before), Run(before + after))
  {
    if after == [] {
      assert before + after == before;
    } else {
      hide Step;
      var k := |after| - 1;
      assert (before + after)[..|before| + k] == before + after[..k];
      StoreIsImmutable(before, after[..k]);
      StepGrowsStore(Run(before + after[..k]), after[k]);
    }
  }

  // ---- publication --------------------------------------------------------------------

  ghost predicate Publishes(w: World, e: Event) {
    e.Proceed? && Running(w, e.op) && w.ops[e.op].pc.RenamingIndex?
  }

  lemma OnlyPublicationChangesIndex(w: World, e: Event)
    requires !Publishes(w, e)
    ensures Step(w, e).index == w.index
  {
    hide AfterSuccess, AfterFailure, Add, AfterRead, TemporariesAfter, CandidatesAfter, LockAfter, StagingAfter, StoreAfter, IndexTemporariesAfter;
  }

  /** A publication is by the lock's owner, and replaces the whole index by the
      one it has verified. */
  lemma PublicationIsVerified(events: seq<Event>, e: Event)
    requires Publishes(Run(events), e)
    ensures var w := Run(events);
            var index := w.ops[e.op].pc.index;
            && Step(w, e).index == Some(Whole(index)) && AllStored(w.store, index)
            && w.lock == Some(Whole(Record(e.op, w.ops[e.op])))
  {
    hide Run, Inv, AllStored, AfterSuccess, TemporariesAfter, CandidatesAfter, LockAfter, StagingAfter, StoreAfter;
    RunKeepsInv(events);
    RunningOk(Run(events), e.op);
  }

  /* None of the events after `before` publishes. */
  ghost predicate NonePublishes(before: seq<Event>, after: seq<Event>) {
    after == [] ||
    var k := |after| - 1;
    NonePublishes(before, after[..k]) && !Publishes(Run(before + after[..k]), after[k])
  }

  /** Whatever else happens, a crash or a recovery included, the index is as it
      was until the next publication. */
  lemma {:induction false} IndexStaysUntilPublication(before: seq<Event>, after: seq<Event>)
    requires NonePublishes(before, after)
    ensures Run(before + after).index == Run(before).index
  {
    hide Step, Publishes;
    if after == [] {
      assert before + after == before;
    } else {
      var k := |after| - 1;
      assert (before + after)[..|before| + k] == before + after[..k];
      IndexStaysUntilPublication(before, after[..k]);
      OnlyPublicationChangesIndex(Run(before + after[..k]), after[k]);
    }
  }

  // ---- what is removed, and by whom --------------------------------------------------------

  ghost predicate DeadOwner(w: World, id: OwnerId) { id in w.ops && w.ops[id].pid in w.dead }

  /** The lock is removed by the operation it records, or by a recovery after
      that operation's process has died; nothing replaces a lock that is there. */
  lemma LockIsNotStolen(events: seq<Event>, e: Event)
    requires var w := Run(events); w.lock.Some? && Step(w, e).lock != w.lock
    ensures var w := Run(events);
            && Step(w, e).lock.None? && e.Proceed? && Running(w, e.op)
            && var id := w.lock.value.content.id;
               (w.ops[e.op].pc.Releasing? && id == e.op) || (w.ops[e.op].pc.ClearingLock? && DeadOwner(w, id))
  {
    hide Run, Inv, AfterSuccess, AfterFailure, Add, AfterRead, TemporariesAfter, CandidatesAfter, StoreAfter, StagingAfter, IndexTemporariesAfter, IndexAfter;
    var w := Run(events);
    RunKeepsInv(events);
    RecordsAreWhole(events);
    RunningOk(w, e.op);
  }

  lemma CandidatesAreNotStolen(events: seq<Event>, e: Event, id: OwnerId)
    requires var w := Run(events); id in w.candidates && id !in Step(w, e).candidates
    ensures var w := Run(events);
            && e.Proceed? && Running(w, e.op)
            && ((w.ops[e.op].pc.DroppingCandidate? && id == e.op) || (w.ops[e.op].pc.RemovingCandidates? && DeadOwner(w, id)))
  {
    hide Run, Inv, AfterSuccess, AfterFailure, Add, AfterRead, TemporariesAfter, LockAfter, StoreAfter, StagingAfter, IndexTemporariesAfter, IndexAfter;
    var w := Run(events);
    RunKeepsInv(events);
    RunningOk(w, e.op);
    var pc := w.ops[e.op].pc;
    if pc.RemovingCandidates? {
      assert pc.found[0] in Owners(pc.owner, pc.found);
    }
  }

  /** A staging tree is removed by its own operation, or by a recovery after
      that operation's process has died. */
  lemma StagingIsNotStolen(events: seq<Event>, e: Event, id: OwnerId)
    requires var w := Run(events); id in w.staging && id !in Step(w, e).staging
    ensures var w := Run(events);
            && e.Proceed? && Running(w, e.op)
            && ((w.ops[e.op].pc.Cleaning? && id == e.op) || (w.ops[e.op].pc.RemovingStaging? && DeadOwner(w, id)))
  {
    hide Run, Inv, AfterSuccess, AfterFailure, Add, AfterRead, TemporariesAfter, LockAfter, StoreAfter, CandidatesAfter, IndexTemporariesAfter, IndexAfter;
    var w := Run(events);
    RunKeepsInv(events);
    RunningOk(w, e.op);
    var pc := w.ops[e.op].pc;
    if pc.RemovingStaging? && pc.owner.Some? {
      assert pc.owner.value in Owners(pc.owner, pc.found);
    }
  }
}
