/** Evidence that went through the queue and the workers leaves the ledgers that direct ingest would have left. */
module QueuedIngest {
  import opened Checked
  import opened Evidence
  import opened Ledger
  import opened LedgerRefinement
  import opened ArrivalOrder
  import IngestQueue

  /** The evidence a ledger takes notice of. */
  function For(l: Ledger, obs: seq<Observation>): seq<Observation> {
    if obs == [] then []
    else
      var front := For(l, obs[..|obs| - 1]);
      if Belongs(l, obs[|obs| - 1]) then front + [obs[|obs| - 1]] else front
  }

  lemma {:induction false} ForElements(l: Ledger, obs: seq<Observation>)
    ensures forall o :: o in For(l, obs) <==> o in obs && Belongs(l, o)
  {
    hide Belongs;
    if obs != [] {
      ForElements(l, obs[..|obs| - 1]);
      assert obs == obs[..|obs| - 1] + [obs[|obs| - 1]];
    }
  }

  lemma InsertedKeepsOwner(l: Ledger, o: Observation, digest: Observation -> u64)
    ensures forall x :: Belongs(Inserted(l, o, digest), x) == Belongs(l, x)
    ensures !Belongs(l, o) ==> Inserted(l, o, digest) == l
  {
    hide Place, WindowContains, AbsorbAll, KeyLess;
  }

  /** Evidence about other sources and generations passes a ledger by. */
  lemma {:induction false} OthersPassBy(l: Ledger, obs: seq<Observation>, digest: Observation -> u64)
    ensures Run(l, obs, digest) == Run(l, For(l, obs), digest)
    ensures forall x :: Belongs(Run(l, obs, digest), x) == Belongs(l, x)
  {
    hide Inserted, Belongs;
    if obs != [] {
      var front, o := obs[..|obs| - 1], obs[|obs| - 1];
      OthersPassBy(l, front, digest);
      InsertedKeepsOwner(Run(l, front, digest), o, digest);
      if Belongs(l, o) {
        assert For(l, obs)[..|For(l, obs)| - 1] == For(l, front);
      }
    }
  }

  lemma SameElements(l: Ledger, a: seq<Observation>, b: seq<Observation>)
    requires multiset(a) == multiset(b)
    ensures Elements(For(l, a)) == Elements(For(l, b))
  {
    ForElements(l, a);
    ForElements(l, b);
    forall o ensures o in a <==> o in b {
      assert o in a <==> o in multiset(a);
      assert o in b <==> o in multiset(b);
    }
  }

  /**
   * Whenever everything has settled, after any interleaving in which no step lost anything, every ledger that
   * was empty at the start and had room holds exactly what ingesting the accepted observations one after the
   * other would have left in it.
   */
  lemma QueueEqualsDirectIngest(workers: nat, clients: nat, bound: nat, maxBatch: nat,
                                actions: seq<IngestQueue.Action<Observation>>, end: IngestQueue.State<Observation>,
                                l: Ledger, digest: Observation -> u64)
    requires 0 < maxBatch && IngestQueue.Settled(end)
    requires IngestQueue.IsRun(IngestQueue.Start(workers, clients, bound, maxBatch), actions, end)
    requires !IngestQueue.LosesAlong(IngestQueue.Start(workers, clients, bound, maxBatch), actions)
    requires Inv(l, EMPTY_PREFIX, []) && l.entries == []
    requires Separates(digest, Elements(For(l, end.accepted))) && |Keys(Elements(For(l, end.accepted)))| <= l.capacity
    ensures Run(l, end.applied, digest).entries == Run(l, end.accepted, digest).entries
    ensures FoldedEvidence(Run(l, end.applied, digest), l.policy) == FoldedEvidence(Run(l, end.accepted, digest), l.policy)
  {
    IngestQueue.AppliedIffNothingLost(workers, clients, bound, maxBatch, actions, end);
    hide IngestQueue.IsRun, IngestQueue.LosesAlong, IngestQueue.Settled, Inv, Run, Separates, Keys, Belongs, FoldedEvidence;
    SameElements(l, end.accepted, end.applied);
    OthersPassBy(l, end.applied, digest);
    OthersPassBy(l, end.accepted, digest);
    ForElements(l, end.accepted);
    WithinCapacityIdentical(l, For(l, end.accepted), For(l, end.applied), digest);
  }
}
