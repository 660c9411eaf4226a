/** The evidence envelope: what was observed, by which source, under which fences. */
module Evidence {
  import opened Checked

  /** A byte of text. Keys and rendered lines are sequences of bytes written as characters. */
  type Byte = c: char | c as int < 256 witness 'a'
  type Text = seq<Byte>

  datatype FlowState = Unknown | Observed | Active | Idle | Completed | Reset | Expired | Conflicting

  predicate IsTerminal(s: FlowState) {
    s == Completed || s == Reset || s == Expired
  }

  datatype StateCause =
    | NoCause | FirstObservation | ProgressObserved | IdleThresholdReached | CompletionObserved
    | TerminalCountersObserved | ResetObserved | CounterRegressionCause | ExpiryPolicyCause | AuthorityConflict
    | ConflictResolved | RecoveredFromJournal | GenerationAdvanced | EvidenceFenced

  datatype Kind =
    | KUnknown | KOpen | KSample | KProgress | KIdle | KClose | KReset | KError | KPathChange | KCounterReset | KHeartbeat

  datatype Direction = Unspecified | Forward | Reverse | Aggregate

  datatype Claim = ClaimUnknown | Complete | Incomplete | Unsupported

  /** In the order of their numbers in records. */
  const ALL_KINDS: seq<Kind> :=
    [KUnknown, KOpen, KSample, KProgress, KIdle, KClose, KReset, KError, KPathChange, KCounterReset, KHeartbeat]
  const ALL_DIRECTIONS: seq<Direction> := [Unspecified, Forward, Reverse, Aggregate]
  const ALL_CLAIMS: seq<Claim> := [ClaimUnknown, Complete, Incomplete, Unsupported]

  /** The anomaly kinds the fold and the engine record. */
  datatype AnomalyKind =
    | SequenceConflict | StaleGenerationEvidence | LateEvidenceRejected | CounterRegression | CounterOverflow
    | ClockSkew | CapabilityUnsupported | IdentityCollision | LimitEviction | UnsupportedMetric | IncompleteEvidence
    | RestartGap | MalformedEvidence

  datatype Key = Key(source: u64, incarnation: u64, epoch: u64, revision: u64, sequence: u64)

  datatype Capabilities = Capabilities(completion: bool, reset: bool, path: bool, queue: bool,
                                       counters: bool, identity: bool)

  datatype CounterSet = CounterSet(bytes: Option<u64>, packets: Option<u64>, retransmissions: Option<u64>)

  datatype Subject = Subject(
    flow: u64, generation: u64, endpoint: u64, peerEndpoint: u64,
    path: Option<u64>, queue: Option<u64>, link: Option<u64>, pathGeneration: Option<u64>,
    hopCapacity: seq<u64>,
    flowKey: Text, endpointKey: Text, peerEndpointKey: Text, pathKey: Text, queueKey: Text, linkKey: Text)

  datatype Observation = Observation(
    key: Key, sourceKey: Text, capabilities: Capabilities, subject: Subject,
    observedAt: i64, receivedAt: i64,
    kind: Kind, direction: Direction, claim: Claim, counters: CounterSet,
    coveredDuration: Option<i64>, reportedRtt: Option<i64>, schemaVersion: u32)
  {
    predicate Valid() {
      key.source != 0 && subject.flow != 0 && subject.generation != 0
    }
  }

  predicate AnyCounter(c: CounterSet) {
    c.bytes.Some? || c.packets.Some? || c.retransmissions.Some?
  }

  datatype CounterPolicy = CounterPolicy(regressionAsReset: bool, honorExplicitReset: bool)

  const DEFAULT_COUNTER_POLICY: CounterPolicy := CounterPolicy(true, true)

  predicate AnnouncesCounterRestart(k: Kind) {
    k == KCounterReset || k == KReset
  }

  /** The kinds that declare a terminal state when they are folded. */
  predicate DeclaresTerminal(k: Kind) {
    k == KClose || k == KReset
  }

  // ---- canonical order -----------------------------------------------------

  /** Incarnation, then epoch, then revision, then sequence. */
  predicate KeyLess(a: Key, b: Key) {
    if a.incarnation != b.incarnation then a.incarnation < b.incarnation
    else if a.epoch != b.epoch then a.epoch < b.epoch
    else if a.revision != b.revision then a.revision < b.revision
    else a.sequence < b.sequence
  }

  predicate SameKey(a: Key, b: Key) {
    a.incarnation == b.incarnation && a.epoch == b.epoch && a.revision == b.revision && a.sequence == b.sequence
  }

  predicate StrictlySorted(obs: seq<Observation>) {
    forall i, j :: 0 <= i < j < |obs| ==> KeyLess(obs[i].key, obs[j].key)
  }
}
