/** From the bytes a crash leaves behind to the state a restart resumes from. */
module CrashRecovery {
  import opened Checked
  import opened Evidence
  import opened Snapshot
  import Journal
  import JournalRecovery
  import ObsCodec

  /** A log as it stands between two compactions: one snapshot, then the observations accepted since. */
  function Log(s: State, description: Text, os: seq<Observation>): seq<Record>
    requires Writable(s) && |description| <= U32_MAX && |s.sources| <= U32_MAX && |s.flows| <= U32_MAX
    requires forall k :: 0 <= k < |os| ==> ObsCodec.Writable(os[k])
  {
    Group(s, description) + ObservationRecords(os)
  }

  lemma UnclosedFrom(records: seq<Record>, i: nat)
    requires i <= |records| && forall k :: i <= k < |records| ==> records[k].kind != BEGIN && records[k].kind != END
    ensures FindEnd(records, i) == Unclosed
    decreases |records| - i
  {
    if i < |records| {
      UnclosedFrom(records, i + 1);
    }
  }

  /** A snapshot that was cut short is never taken for a state. */
  lemma HalfSnapshotRefused(s: State, description: Text, k: nat, limits: Limits, recovery: Recovery)
    requires Writable(s) && |description| <= U32_MAX && |s.sources| <= U32_MAX && |s.flows| <= U32_MAX
    requires 0 < k < |Group(s, description)|
    ensures Replay(NOTHING_REPLAYED, Group(s, description)[..k], 0, limits, recovery) == Err(IntegrityFailure)
  {
    hide DecodedGroup, ReplayStep, TrailerRecord, GroupBody, HeaderRecord;
    var group := Group(s, description);
    BodyStarts(s, description);
    WritableFormat(s);
    HeaderDecodes(s);
    forall i | 1 <= i < k ensures group[..k][i].kind != BEGIN && group[..k][i].kind != END {
      assert group[i] == GroupBody(s, description)[i];
    }
    assert group[..k][0] == group[0] == GroupBody(s, description)[0];
    UnclosedFrom(group[..k], 1);
  }

  lemma CutAfterGroup(group: seq<Record>, rest: seq<Record>, cut: nat)
    requires |Journal.EncodeAll(group)| <= cut <= |Journal.EncodeAll(group + rest)|
    ensures |group| <= JournalRecovery.WholeBefore(group + rest, cut) <= |group + rest|
  {
    var all := group + rest;
    var k := JournalRecovery.WholeBefore(all, cut);
    JournalRecovery.WholeBeforeMeaning(all, cut);
    if k < |group| {
      assert all[..k + 1] == group[..k + 1];
      JournalRecovery.EncodeAllSplit(group, k + 1);
    }
  }

  lemma ObservationPrefix(os: seq<Observation>, n: nat)
    requires n <= |os| && forall k :: 0 <= k < |os| ==> ObsCodec.Writable(os[k])
    ensures ObservationRecords(os)[..n] == ObservationRecords(os[..n])
  {
    hide ObservationRecord, ObsCodec.Writable;
  }

  /**
   * A crash at any byte after the snapshot. Truncating recovery reads back the snapshot's state and then, in
   * order, exactly the observations whose records lie wholly before the cut; strict recovery does the same when
   * the cut is on a record boundary, and refuses the log otherwise.
   */
  lemma CrashRecovers(s: State, description: Text, os: seq<Observation>, cut: nat,
                      journal: Journal.Limits, limits: Limits, recovery: Recovery) returns (n: nat)
    requires limits.Valid() && Writable(s) && |description| <= U32_MAX && |s.sources| <= U32_MAX && |s.flows| <= U32_MAX
    requires Readable(s, description, limits, recovery) && |os| <= limits.maxObservations
    requires forall k :: 0 <= k < |os| ==> ObsCodec.Writable(os[k]) && ObsCodec.KeepsLimits(os[k], limits.bounds.key, limits.maxHops)
    requires JournalRecovery.WellFormed(Log(s, description, os), journal)
    requires |Journal.EncodeAll(Group(s, description))| <= cut <= |Journal.EncodeAll(Log(s, description, os))|
    ensures n <= |os| && |Group(s, description)| + n == JournalRecovery.WholeBefore(Log(s, description, os), cut)
    ensures var bytes := Journal.EncodeAll(Log(s, description, os))[..cut];
            var kept := Log(s, description, os[..n]);
            && Journal.Parse(bytes, Journal.TruncateTornTail, journal, 0) == Journal.Ok(kept)
            && Journal.Parse(bytes, Journal.Reject, journal, 0)
               == (if JournalRecovery.OnBoundary(Log(s, description, os), cut) then Journal.Ok(kept) else Journal.Err(Journal.TruncatedRecord))
            && Replay(NOTHING_REPLAYED, kept, 0, limits, recovery) == Ok(Replayed(ValuesOf(s), true, ObservationValues(os[..n])))
  {
    hide Group, Replay, ObservationRecords, Writable, Readable, ObsCodec.Writable, ObsCodec.KeepsLimits, ValuesOf, ObservationValues,
         Journal.EncodeAll, Journal.Parse, JournalRecovery.WholeBefore, JournalRecovery.WellFormed, JournalRecovery.OnBoundary;
    var group, rest := Group(s, description), ObservationRecords(os);
    var all := group + rest;
    JournalRecovery.TornTailRecovery(all, cut, journal);
    CutAfterGroup(group, rest, cut);
    n := JournalRecovery.WholeBefore(all, cut) - |group|;
    ObservationPrefix(os, n);
    assert all[..|group| + n] == group + rest[..n];
    NothingReplays(limits, recovery);
    LastSnapshotWins([], s, description, os[..n], limits, recovery);
    assert [] + group == group;
  }

  lemma NothingReplays(limits: Limits, recovery: Recovery)
    ensures Replay(NOTHING_REPLAYED, [], 0, limits, recovery) == Ok(NOTHING_REPLAYED)
  {
  }
}
