/**
 Profile adaptation proposals: an apply call reads a proposal and later commits it by a compare-and-set
 on the profile version the proposal was computed from, while learning cycles rewrite the profile.
 */
module Proposals {
  import opened Common

  type Id = nat

  datatype Dimension = Topic | Format | MediaType | LengthBucket | PublishHour | PublishDay

  /** The best value of a dimension and its weight. */
  datatype Best = Best(value: Id, weight: real)

  datatype Profile = Profile(version: nat, topic: Option<Best>, format: Option<Best>, lengthBucket: Option<Best>)

  datatype Weight = Weight(raw: real, decayed: real, sampleSize: nat, grade: nat)

  datatype ProposalStatus = PendingReview | Applied | Rejected | Superseded

  datatype Proposal = Proposal(
    workspace: Id, account: Id, profile: Id, sourceVersion: nat, dimension: Dimension, value: Id,
    weight: real, sampleSize: nat, grade: nat, status: ProposalStatus)

  type WeightKey = (Id, Dimension, Id)

  /** What a commit or a learning cycle did, in order. */
  datatype Entry =
    | Commit(id: Id, proposal: Proposal)
    | Learning(profile: Id, topic: Option<Best>, format: Option<Best>, lengthBucket: Option<Best>,
               weights: map<WeightKey, Weight>)

  datatype Pending = Applying(id: Id, proposal: Proposal) | Rejecting(id: Id)

  datatype State = State(
    profiles: map<Id, Profile>, weights: map<WeightKey, Weight>, proposals: map<Id, Proposal>,
    pending: map<Id, Pending>, log: seq<Entry>)

  // ---- effects ----

  function Adapt(p: Profile, q: Proposal): Profile {
    var best := Some(Best(q.value, q.weight));
    match q.dimension
    case Topic => p.(version := p.version + 1, topic := best)
    case Format => p.(version := p.version + 1, format := best)
    case LengthBucket => p.(version := p.version + 1, lengthBucket := best)
    case _ => p.(version := p.version + 1)
  }

  function UpsertWeight(w: map<WeightKey, Weight>, q: Proposal): map<WeightKey, Weight> {
    var k := (q.account, q.dimension, q.value);
    w[k := Weight(q.weight, q.weight, (if k in w then w[k].sampleSize else 0) + q.sampleSize, q.grade)]
  }

  function Relearn(p: Profile, e: Entry): Profile
    requires e.Learning?
  {
    p.(topic := e.topic, format := e.format, lengthBucket := e.lengthBucket)
  }

  /** The profiles and weights after a log of effects, one after another. */
  function Replay(profiles: map<Id, Profile>, weights: map<WeightKey, Weight>, log: seq<Entry>)
    : (map<Id, Profile>, map<WeightKey, Weight>)
  {
    if log == [] then (profiles, weights)
    else
      var (p, w) := Replay(profiles, weights, log[..|log| - 1]);
      match log[|log| - 1]
      case Commit(_, q) => (if q.profile in p then p[q.profile := Adapt(p[q.profile], q)] else p, UpsertWeight(w, q))
      case Learning(i, _, _, _, learned) => (if i in p then p[i := Relearn(p[i], log[|log| - 1])] else p, w + learned)
  }

  // ---- steps ----

  datatype Event =
    | Propose(id: Id, proposal: Proposal)
    | ApplyRead(call: Id, workspace: Id, id: Id)
    | ApplyCommit(call: Id)
    | RejectRead(call: Id, workspace: Id, id: Id)
    | RejectCommit(call: Id)
    | Learn(profile: Id, topic: Option<Best>, format: Option<Best>, lengthBucket: Option<Best>,
            weights: map<WeightKey, Weight>)

  predicate Reviewable(s: State, workspace: Id, id: Id) {
    id in s.proposals && s.proposals[id].workspace == workspace && s.proposals[id].status.PendingReview?
  }

  predicate Enabled(s: State, e: Event) {
    match e
    case Propose(id, q) =>
      id !in s.proposals && q.status.PendingReview? && q.profile in s.profiles
      && q.sourceVersion <= s.profiles[q.profile].version
    case ApplyRead(call, workspace, id) => call !in s.pending && Reviewable(s, workspace, id)
    case ApplyCommit(call) => call in s.pending && s.pending[call].Applying?
    case RejectRead(call, workspace, id) => call !in s.pending && Reviewable(s, workspace, id)
    case RejectCommit(call) => call in s.pending && s.pending[call].Rejecting? && s.pending[call].id in s.proposals
    case Learn(profile, _, _, _, _) => profile in s.profiles
  }

  /** Whether the compare-and-set of a commit takes effect. */
  predicate VersionMatches(s: State, q: Proposal) {
    q.profile in s.profiles && s.profiles[q.profile].version == q.sourceVersion
  }

  function Committed(s: State, id: Id, q: Proposal): State
    requires VersionMatches(s, q)
  {
    s.(profiles := s.profiles[q.profile := Adapt(s.profiles[q.profile], q)],
       weights := UpsertWeight(s.weights, q),
       proposals := s.proposals[id := q.(status := Applied)],
       log := s.log + [Commit(id, q)])
  }

  function Next(s: State, e: Event): State
    requires Enabled(s, e)
  {
    match e
    case Propose(id, q) => s.(proposals := s.proposals[id := q])
    case ApplyRead(call, _, id) => s.(pending := s.pending[call := Applying(id, s.proposals[id])])
    case ApplyCommit(call) =>
      var p := s.pending[call];
      var done := s.(pending := s.pending - {call});
      if VersionMatches(s, p.proposal) then Committed(done, p.id, p.proposal) else done
    case RejectRead(call, _, id) => s.(pending := s.pending[call := Rejecting(id)])
    case RejectCommit(call) =>
      var id := s.pending[call].id;
      s.(pending := s.pending - {call}, proposals := s.proposals[id := s.proposals[id].(status := Rejected)])
    case Learn(profile, topic, format, lengthBucket, weights) =>
      var entry := Learning(profile, topic, format, lengthBucket, weights);
      s.(profiles := s.profiles[profile := Relearn(s.profiles[profile], entry)], weights := s.weights + weights,
         log := s.log + [entry])
  }

  ghost predicate Run(s: State, events: seq<Event>, s': State)
    decreases |events|
  {
    if events == [] then s == s' else Enabled(s, events[0]) && Run(Next(s, events[0]), events[1..], s')
  }

  // ---- invariants ----

  /** The same proposal, but perhaps for its status. */
  predicate SameProposal(p: Proposal, q: Proposal) {
    p.(status := q.status) == q
  }

  ghost predicate Start(s: State) {
    s.proposals == map[] && s.pending == map[] && s.log == []
  }

  ghost predicate Inv(s0: State, s: State) {
    && Replay(s0.profiles, s0.weights, s.log) == (s.profiles, s.weights)
    && (forall i | i in s.proposals :: Founded(s, s.proposals[i]))
    && (forall c | c in s.pending && s.pending[c].Applying? ::
          s.pending[c].id in s.proposals && SameProposal(s.pending[c].proposal, s.proposals[s.pending[c].id]))
    && (forall a | 0 <= a < |s.log| && s.log[a].Commit? :: Logged(s, s.log[a]))
    && (forall a, b | 0 <= a < b < |s.log| && s.log[a].Commit? && s.log[b].Commit? :: InOrder(s.log[a], s.log[b]))
  }

  /** A proposal was computed from a version its profile has had. */
  predicate Founded(s: State, q: Proposal) {
    q.profile in s.profiles && q.sourceVersion <= s.profiles[q.profile].version
  }

  predicate Logged(s: State, e: Entry)
    requires e.Commit?
  {
    && e.id in s.proposals && SameProposal(e.proposal, s.proposals[e.id])
    && e.proposal.profile in s.profiles && e.proposal.sourceVersion < s.profiles[e.proposal.profile].version
  }

  predicate InOrder(e: Entry, f: Entry)
    requires e.Commit? && f.Commit?
  {
    e.proposal.profile == f.proposal.profile ==> e.proposal.sourceVersion < f.proposal.sourceVersion
  }

  lemma ReplaySnoc(profiles: map<Id, Profile>, weights: map<WeightKey, Weight>, log: seq<Entry>, e: Entry)
    ensures var (p, w) := Replay(profiles, weights, log);
      Replay(profiles, weights, log + [e]) ==
        match e
        case Commit(_, q) => (if q.profile in p then p[q.profile := Adapt(p[q.profile], q)] else p, UpsertWeight(w, q))
        case Learning(i, _, _, _, learned) => (if i in p then p[i := Relearn(p[i], e)] else p, w + learned)
  {
    assert (log + [e])[..|log|] == log;
  }

  /** Versions and proposals only grow. */
  lemma StepGrows(s: State, e: Event)
    requires Enabled(s, e)
    ensures forall i | i in s.profiles :: i in Next(s, e).profiles && s.profiles[i].version <= Next(s, e).profiles[i].version
    ensures e.ApplyCommit? && s.pending[e.call].id in s.proposals
            && SameProposal(s.pending[e.call].proposal, s.proposals[s.pending[e.call].id])
      ==> forall i | i in s.proposals :: i in Next(s, e).proposals && SameProposal(s.proposals[i], Next(s, e).proposals[i])
    ensures !e.ApplyCommit?
      ==> forall i | i in s.proposals :: i in Next(s, e).proposals && SameProposal(s.proposals[i], Next(s, e).proposals[i])
  {
  }

  lemma CommitKeepsOrder(s: State, id: Id, q: Proposal)
    requires VersionMatches(s, q)
    requires forall a | 0 <= a < |s.log| && s.log[a].Commit? :: Logged(s, s.log[a])
    requires forall a, b | 0 <= a < b < |s.log| && s.log[a].Commit? && s.log[b].Commit? :: InOrder(s.log[a], s.log[b])
    ensures var log := s.log + [Commit(id, q)];
      forall a, b | 0 <= a < b < |log| && log[a].Commit? && log[b].Commit? :: InOrder(log[a], log[b])
  {
    var log := s.log + [Commit(id, q)];
    forall a, b | 0 <= a < b < |log| && log[a].Commit? && log[b].Commit? ensures InOrder(log[a], log[b]) {
      assert Logged(s, s.log[a]);
      assert b < |s.log| ==> InOrder(s.log[a], s.log[b]);
    }
  }

  lemma CommitKeepsLogged(s: State, id: Id, q: Proposal)
    requires VersionMatches(s, q) && id in s.proposals && SameProposal(q, s.proposals[id])
    requires forall a | 0 <= a < |s.log| && s.log[a].Commit? :: Logged(s, s.log[a])
    ensures var s' := Committed(s, id, q); forall a | 0 <= a < |s'.log| && s'.log[a].Commit? :: Logged(s', s'.log[a])
  {
    var s' := Committed(s, id, q);
    forall a | 0 <= a < |s'.log| && s'.log[a].Commit? ensures Logged(s', s'.log[a]) {
      assert a < |s.log| ==> Logged(s, s.log[a]);
    }
  }

  lemma CommitKeepsInv(s0: State, s: State, call: Id)
    requires Inv(s0, s) && Enabled(s, ApplyCommit(call))
    ensures Inv(s0, Next(s, ApplyCommit(call)))
  {
    var p := s.pending[call];
    if VersionMatches(s, p.proposal) {
      ReplaySnoc(s0.profiles, s0.weights, s.log, Commit(p.id, p.proposal));
      CommitKeepsOrder(s, p.id, p.proposal);
      CommitKeepsLogged(s.(pending := s.pending - {call}), p.id, p.proposal);
    }
  }

  lemma LearnKeepsInv(s0: State, s: State, e: Event)
    requires Inv(s0, s) && Enabled(s, e) && e.Learn?
    ensures Inv(s0, Next(s, e))
  {
    ReplaySnoc(s0.profiles, s0.weights, s.log, Learning(e.profile, e.topic, e.format, e.lengthBucket, e.weights));
    LearnKeepsLogged(s, e);
    LearnKeepsOrder(s, e);
  }

  lemma LearnKeepsLogged(s: State, e: Event)
    requires Enabled(s, e) && e.Learn? && forall a | 0 <= a < |s.log| && s.log[a].Commit? :: Logged(s, s.log[a])
    ensures var s' := Next(s, e); forall a | 0 <= a < |s'.log| && s'.log[a].Commit? :: Logged(s', s'.log[a])
  {
    var s' := Next(s, e);
    forall a | 0 <= a < |s'.log| && s'.log[a].Commit? ensures Logged(s', s'.log[a]) {
      assert Logged(s, s.log[a]);
    }
  }

  lemma LearnKeepsOrder(s: State, e: Event)
    requires Enabled(s, e) && e.Learn?
    requires forall a, b | 0 <= a < b < |s.log| && s.log[a].Commit? && s.log[b].Commit? :: InOrder(s.log[a], s.log[b])
    ensures var log := Next(s, e).log;
      forall a, b | 0 <= a < b < |log| && log[a].Commit? && log[b].Commit? :: InOrder(log[a], log[b])
  {
  }

  lemma StepKeepsInv(s0: State, s: State, e: Event)
    requires Inv(s0, s) && Enabled(s, e)
    ensures Inv(s0, Next(s, e))
  {
    if e.ApplyCommit? {
      CommitKeepsInv(s0, s, e.call);
    } else if e.Learn? {
      LearnKeepsInv(s0, s, e);
    } else {
      var s' := Next(s, e);
      StepGrows(s, e);
      forall a | 0 <= a < |s'.log| && s'.log[a].Commit? ensures Logged(s', s'.log[a]) {
        assert Logged(s, s.log[a]);
      }
    }
  }

  lemma {:induction false} RunKeepsInv(s0: State, s: State, events: seq<Event>, s': State)
    requires Inv(s0, s) && Run(s, events, s')
    ensures Inv(s0, s')
    decreases |events|
  {
    if events != [] {
      StepKeepsInv(s0, s, events[0]);
      RunKeepsInv(s0, Next(s, events[0]), events[1..], s');
    }
  }

  // ---- what profiles and weights are ----

  /** The dimensions whose best value a commit writes into the profile. */
  predicate HasField(d: Dimension) {
    d.Topic? || d.Format? || d.LengthBucket?
  }

  function Field(p: Profile, d: Dimension): Option<Best>
    requires HasField(d)
  {
    match d
    case Topic => p.topic
    case Format => p.format
    case _ => p.lengthBucket
  }

  /** The entry writes the field of this dimension of this profile. */
  predicate Touches(e: Entry, i: Id, d: Dimension) {
    match e
    case Commit(_, q) => q.profile == i && q.dimension == d
    case Learning(profile, _, _, _, _) => profile == i
  }

  function Given(e: Entry, d: Dimension): Option<Best>
    requires HasField(d)
  {
    match e
    case Commit(_, q) => Some(Best(q.value, q.weight))
    case Learning(_, topic, format, lengthBucket, _) => if d.Topic? then topic else if d.Format? then format else lengthBucket
  }

  predicate LastTouch(log: seq<Entry>, i: Id, d: Dimension, k: nat) {
    k < |log| && Touches(log[k], i, d) && forall l | k < l < |log| :: !Touches(log[l], i, d)
  }

  function CommitsOn(log: seq<Entry>, i: Id): nat {
    if log == [] then 0
    else CommitsOn(log[..|log| - 1], i) + if log[|log| - 1].Commit? && log[|log| - 1].proposal.profile == i then 1 else 0
  }

  function WeightKeyOf(q: Proposal): WeightKey {
    (q.account, q.dimension, q.value)
  }

  predicate TouchesWeight(e: Entry, key: WeightKey) {
    match e
    case Commit(_, q) => WeightKeyOf(q) == key
    case Learning(_, _, _, _, learned) => key in learned
  }

  function RawGiven(e: Entry, key: WeightKey): real
    requires TouchesWeight(e, key)
  {
    if e.Commit? then e.proposal.weight else e.weights[key].raw
  }

  predicate LastWeightTouch(log: seq<Entry>, key: WeightKey, k: nat) {
    k < |log| && TouchesWeight(log[k], key) && forall l | k < l < |log| :: !TouchesWeight(log[l], key)
  }

  /** The evidence committed for a weight since it was learned. */
  function Evidence(log: seq<Entry>, key: WeightKey, since: nat): nat
    requires since <= |log|
    decreases |log|
  {
    if since == |log| then 0
    else
      var e := log[|log| - 1];
      Evidence(log[..|log| - 1], key, since) + if e.Commit? && WeightKeyOf(e.proposal) == key then e.proposal.sampleSize else 0
  }

  lemma {:induction false} VersionOfReplay(profiles: map<Id, Profile>, weights: map<WeightKey, Weight>, log: seq<Entry>, i: Id)
    requires i in profiles
    ensures var p := Replay(profiles, weights, log).0; i in p && p[i].version == profiles[i].version + CommitsOn(log, i)
  {
    if log != [] { VersionOfReplay(profiles, weights, log[..|log| - 1], i); }
  }

  /** The last entry gives a field its value, or leaves it. */
  lemma FieldStep(profiles: map<Id, Profile>, weights: map<WeightKey, Weight>, log: seq<Entry>, i: Id, d: Dimension)
    requires log != [] && HasField(d) && i in Replay(profiles, weights, log[..|log| - 1]).0
    ensures i in Replay(profiles, weights, log).0
    ensures Field(Replay(profiles, weights, log).0[i], d)
         == if Touches(log[|log| - 1], i, d) then Given(log[|log| - 1], d)
            else Field(Replay(profiles, weights, log[..|log| - 1]).0[i], d)
  {
  }

  lemma {:induction false} FieldOfReplay(profiles: map<Id, Profile>, weights: map<WeightKey, Weight>, log: seq<Entry>, i: Id, d: Dimension, k: nat)
    requires i in profiles && HasField(d) && LastTouch(log, i, d, k)
    ensures i in Replay(profiles, weights, log).0 && Field(Replay(profiles, weights, log).0[i], d) == Given(log[k], d)
  {
    var front := log[..|log| - 1];
    VersionOfReplay(profiles, weights, front, i);
    FieldStep(profiles, weights, log, i, d);
    if k < |front| {
      assert LastTouch(front, i, d, k) && !Touches(log[|front|], i, d);
      FieldOfReplay(profiles, weights, front, i, d, k);
    }
  }

  lemma {:induction false} FieldUntouched(profiles: map<Id, Profile>, weights: map<WeightKey, Weight>, log: seq<Entry>, i: Id, d: Dimension)
    requires i in profiles && HasField(d) && forall k | 0 <= k < |log| :: !Touches(log[k], i, d)
    ensures i in Replay(profiles, weights, log).0 && Field(Replay(profiles, weights, log).0[i], d) == Field(profiles[i], d)
  {
    if log != [] {
      var front := log[..|log| - 1];
      assert forall k | 0 <= k < |front| :: front[k] == log[k];
      FieldUntouched(profiles, weights, front, i, d);
      FieldStep(profiles, weights, log, i, d);
    }
  }

  /**
   Whatever the interleaving: the version of a profile counts the commits on it, and each of its fields
   is that of the last commit of its dimension or, if there was one after it, of the last learning cycle.
   */
  lemma FieldsAreOfTheLastWrite(s0: State, events: seq<Event>, s: State, i: Id, d: Dimension)
    requires Start(s0) && Run(s0, events, s) && i in s0.profiles && HasField(d)
    ensures i in s.profiles && s.profiles[i].version == s0.profiles[i].version + CommitsOn(s.log, i)
    ensures forall k: nat | LastTouch(s.log, i, d, k) :: Field(s.profiles[i], d) == Given(s.log[k], d)
    ensures (forall k | 0 <= k < |s.log| :: !Touches(s.log[k], i, d)) ==> Field(s.profiles[i], d) == Field(s0.profiles[i], d)
  {
    RunKeepsInv(s0, s0, events, s);
    VersionOfReplay(s0.profiles, s0.weights, s.log, i);
    forall k: nat | LastTouch(s.log, i, d, k) ensures Field(s.profiles[i], d) == Given(s.log[k], d) {
      FieldOfReplay(s0.profiles, s0.weights, s.log, i, d, k);
    }
    if forall k | 0 <= k < |s.log| :: !Touches(s.log[k], i, d) { FieldUntouched(s0.profiles, s0.weights, s.log, i, d); }
  }

  lemma EvidenceFront(log: seq<Entry>, key: WeightKey, since: nat)
    requires since < |log|
    ensures Evidence(log, key, since) == Evidence(log[..|log| - 1], key, since)
            + if log[|log| - 1].Commit? && WeightKeyOf(log[|log| - 1].proposal) == key then log[|log| - 1].proposal.sampleSize else 0
  {
  }

  /** The weight was learned at k, and no learning cycle has computed it since. */
  predicate LastLearned(log: seq<Entry>, key: WeightKey, k: nat) {
    k < |log| && log[k].Learning? && key in log[k].weights
    && forall l | k < l < |log| && log[l].Learning? :: key !in log[l].weights
  }

  lemma {:induction false} WeightOfReplay(profiles: map<Id, Profile>, weights: map<WeightKey, Weight>, log: seq<Entry>, key: WeightKey, k: nat)
    requires LastLearned(log, key, k)
    ensures var (_, w) := Replay(profiles, weights, log);
      key in w && w[key].sampleSize == log[k].weights[key].sampleSize + Evidence(log, key, k + 1)
  {
    var front := log[..|log| - 1];
    if k < |front| {
      assert LastLearned(front, key, k);
      WeightOfReplay(profiles, weights, front, key, k);
      EvidenceFront(log, key, k + 1);
    }
  }

  lemma {:induction false} RawOfReplay(profiles: map<Id, Profile>, weights: map<WeightKey, Weight>, log: seq<Entry>, key: WeightKey, k: nat)
    requires LastWeightTouch(log, key, k)
    ensures var (_, w) := Replay(profiles, weights, log);
      key in w && w[key].raw == RawGiven(log[k], key)
  {
    var front := log[..|log| - 1];
    if k < |front| {
      assert LastWeightTouch(front, key, k) && !TouchesWeight(log[|front|], key);
      RawOfReplay(profiles, weights, front, key, k);
    }
  }

  /**
   A weight is that of its last commit or of a later learning cycle, while its evidence adds up: what the
   last learning cycle counted and the evidence of every commit since, whichever profile it was on.
   */
  lemma WeightsAddUp(s0: State, events: seq<Event>, s: State, key: WeightKey)
    requires Start(s0) && Run(s0, events, s)
    ensures forall k: nat | LastLearned(s.log, key, k) ::
      key in s.weights && s.weights[key].sampleSize == s.log[k].weights[key].sampleSize + Evidence(s.log, key, k + 1)
    ensures forall k: nat | LastWeightTouch(s.log, key, k) ::
      key in s.weights && s.weights[key].raw == RawGiven(s.log[k], key)
  {
    RunKeepsInv(s0, s0, events, s);
    forall k: nat | LastLearned(s.log, key, k)
      ensures key in s.weights && s.weights[key].sampleSize == s.log[k].weights[key].sampleSize + Evidence(s.log, key, k + 1)
    {
      WeightOfReplay(s0.profiles, s0.weights, s.log, key, k);
    }
    forall k: nat | LastWeightTouch(s.log, key, k)
      ensures key in s.weights && s.weights[key].raw == RawGiven(s.log[k], key)
    {
      RawOfReplay(s0.profiles, s0.weights, s.log, key, k);
    }
  }

  // ---- the same over the events of a run ----

  /** The step writes the field: a commit that takes effect, or a learning cycle. */
  predicate WritesField(s: State, e: Event, i: Id, d: Dimension) {
    Enabled(s, e)
    && ((e.ApplyCommit? && VersionMatches(s, s.pending[e.call].proposal)
         && s.pending[e.call].proposal.profile == i && s.pending[e.call].proposal.dimension == d)
        || (e.Learn? && e.profile == i))
  }

  function FieldWritten(s: State, e: Event, i: Id, d: Dimension): Option<Best>
    requires WritesField(s, e, i, d) && HasField(d)
  {
    if e.ApplyCommit? then Some(Best(s.pending[e.call].proposal.value, s.pending[e.call].proposal.weight))
    else if d.Topic? then e.topic else if d.Format? then e.format else e.lengthBucket
  }

  predicate NoWrites(s: State, events: seq<Event>, i: Id, d: Dimension)
    decreases |events|
  {
    events == []
    || (Enabled(s, events[0]) && !WritesField(s, events[0], i, d) && NoWrites(Next(s, events[0]), events[1..], i, d))
  }

  /** The step at position n is the last of the run that writes the field, and this is what it writes. */
  ghost predicate LastWriteAt(s: State, events: seq<Event>, n: nat, i: Id, d: Dimension, value: Option<Best>)
    requires HasField(d)
  {
    n < |events| && exists v ::
      && Run(s, events[..n], v) && WritesField(v, events[n], i, d) && FieldWritten(v, events[n], i, d) == value
      && NoWrites(Next(v, events[n]), events[n + 1..], i, d)
  }

  lemma StepWrites(s: State, e: Event, i: Id, d: Dimension)
    requires Enabled(s, e) && i in s.profiles && HasField(d)
    ensures i in Next(s, e).profiles
    ensures Field(Next(s, e).profiles[i], d)
         == if WritesField(s, e, i, d) then FieldWritten(s, e, i, d) else Field(s.profiles[i], d)
  {
  }

  /** Over any run a field is as it was, or what the last step that wrote it has written. */
  lemma {:induction false} FieldOverRun(s: State, events: seq<Event>, s': State, i: Id, d: Dimension)
    requires Run(s, events, s') && i in s.profiles && HasField(d)
    ensures i in s'.profiles
    ensures if NoWrites(s, events, i, d) then Field(s'.profiles[i], d) == Field(s.profiles[i], d)
            else exists n :: LastWriteAt(s, events, n, i, d, Field(s'.profiles[i], d))
    decreases |events|
  {
    if events != [] {
      var v := Next(s, events[0]);
      StepWrites(s, events[0], i, d);
      FieldOverRun(v, events[1..], s', i, d);
      var value := Field(s'.profiles[i], d);
      if !NoWrites(v, events[1..], i, d) {
        var n :| LastWriteAt(v, events[1..], n, i, d, value);
        LastWriteShifts(s, events, n, i, d, value);
      } else if WritesField(s, events[0], i, d) {
        assert events[..0] == [] && Run(s, events[..0], s);
        assert LastWriteAt(s, events, 0, i, d, value);
      }
    }
  }

  lemma LastWriteShifts(s: State, events: seq<Event>, n: nat, i: Id, d: Dimension, value: Option<Best>)
    requires events != [] && Enabled(s, events[0]) && HasField(d)
    requires LastWriteAt(Next(s, events[0]), events[1..], n, i, d, value)
    ensures LastWriteAt(s, events, n + 1, i, d, value)
  {
    var first, rest := Next(s, events[0]), events[1..];
    var v :| Run(first, rest[..n], v) && WritesField(v, rest[n], i, d) && FieldWritten(v, rest[n], i, d) == value
             && NoWrites(Next(v, rest[n]), rest[n + 1..], i, d);
    assert events[..n + 1][1..] == rest[..n] && events[..n + 1][0] == events[0];
    assert Run(s, events[..n + 1], v) && rest[n] == events[n + 1] && rest[n + 1..] == events[n + 2..];
  }

  function SampleOf(s: State, key: WeightKey): nat {
    if key in s.weights then s.weights[key].sampleSize else 0
  }

  /** The evidence that the commits of a run bring to a weight. */
  function EvidenceBrought(s: State, events: seq<Event>, key: WeightKey): nat
    decreases |events|
  {
    if events == [] || !Enabled(s, events[0]) then 0
    else
      var e := events[0];
      (if e.ApplyCommit? && VersionMatches(s, s.pending[e.call].proposal) && WeightKeyOf(s.pending[e.call].proposal) == key
       then s.pending[e.call].proposal.sampleSize else 0)
      + EvidenceBrought(Next(s, e), events[1..], key)
  }

  /** Over any run without a learning cycle for a weight, its evidence grows by exactly what commits bring to it. */
  lemma {:induction false} EvidenceOverRun(s: State, events: seq<Event>, s': State, key: WeightKey)
    requires Run(s, events, s') && forall e | e in events :: !(e.Learn? && key in e.weights)
    ensures SampleOf(s', key) == SampleOf(s, key) + EvidenceBrought(s, events, key)
    decreases |events|
  {
    if events != [] {
      assert events[0] in events && forall e | e in events[1..] :: e in events;
      EvidenceOverRun(Next(s, events[0]), events[1..], s', key);
    }
  }

  // ---- what the compare-and-set guarantees ----

  /** Commits on one profile are in the order of their source versions, no two with the same. */
  lemma CommitsFollowVersions(s0: State, events: seq<Event>, s: State, a: nat, b: nat)
    requires Start(s0) && Run(s0, events, s) && a < b < |s.log| && s.log[a].Commit? && s.log[b].Commit?
    ensures s.log[a].proposal.profile == s.log[b].proposal.profile
      ==> s.log[a].proposal.sourceVersion < s.log[b].proposal.sourceVersion
  {
    RunKeepsInv(s0, s0, events, s);
    assert InOrder(s.log[a], s.log[b]);
  }

  /** The effects of a proposal are committed at most once, even if it is rejected in between. */
  lemma CommittedOnce(s0: State, events: seq<Event>, s: State, a: nat, b: nat)
    requires Start(s0) && Run(s0, events, s) && a < b < |s.log| && s.log[a].Commit? && s.log[b].Commit?
    ensures s.log[a].id != s.log[b].id
  {
    RunKeepsInv(s0, s0, events, s);
    assert Logged(s, s.log[a]) && Logged(s, s.log[b]) && InOrder(s.log[a], s.log[b]);
  }

  /** A step commits effects if and only if it moves the version of a profile, by one from the source version. */
  lemma VersionCountsCommits(s: State, e: Event, i: Id)
    requires Enabled(s, e) && i in s.profiles
    ensures i in Next(s, e).profiles
    ensures var v, v' := s.profiles[i].version, Next(s, e).profiles[i].version;
      if e.ApplyCommit? && s.pending[e.call].proposal.profile == i && s.pending[e.call].proposal.sourceVersion == v
      then v' == v + 1 && Next(s, e).log == s.log + [Commit(s.pending[e.call].id, s.pending[e.call].proposal)]
      else v' == v && (Next(s, e).log == s.log || e.Learn? || s.pending[e.call].proposal.profile != i)
  {
  }

  // ---- runs from a reachable state ----

  ghost predicate Reachable(s: State) {
    exists s0, events :: Start(s0) && Run(s0, events, s)
  }

  lemma {:induction false} RunSnoc(s: State, events: seq<Event>, s': State, e: Event)
    requires Run(s, events, s') && Enabled(s', e)
    ensures Run(s, events + [e], Next(s', e))
    decreases |events|
  {
    if events == [] {
      assert (events + [e])[1..] == [];
    } else {
      RunSnoc(Next(s, events[0]), events[1..], s', e);
      assert (events + [e])[1..] == events[1..] + [e];
    }
  }

  lemma Step(s: State, e: Event) returns (s': State)
    requires Reachable(s) && Enabled(s, e)
    ensures s' == Next(s, e) && Reachable(s')
  {
    s' := Next(s, e);
    var s0, events :| Start(s0) && Run(s0, events, s);
    RunSnoc(s0, events, s, e);
  }

  lemma {:induction false} CommitsOnAppend(log: seq<Entry>, more: seq<Entry>, i: Id)
    ensures CommitsOn(log + more, i) == CommitsOn(log, i) + CommitsOn(more, i)
  {
    if more == [] {
      assert log + more == log;
    } else {
      CommitsOnAppend(log, more[..|more| - 1], i);
      assert (log + more)[..|log + more| - 1] == log + more[..|more| - 1];
    }
  }

  lemma StepLogs(s: State, e: Event, i: Id)
    requires Enabled(s, e) && i in s.profiles
    ensures var s' := Next(s, e);
      && i in s'.profiles && s.log <= s'.log
      && s'.profiles[i].version == s.profiles[i].version + CommitsOn(s'.log[|s.log|..], i)
  {
    var s' := Next(s, e);
    var more := s'.log[|s.log|..];
    if more != [] { assert more[..|more| - 1] == []; }
  }

  /** What a run adds to the log, and to the version of a profile. */
  lemma {:induction false} RunLogs(s: State, events: seq<Event>, s': State, i: Id)
    requires Run(s, events, s') && i in s.profiles
    ensures i in s'.profiles && s.log <= s'.log
    ensures s'.profiles[i].version == s.profiles[i].version + CommitsOn(s'.log[|s.log|..], i)
    decreases |events|
  {
    if events != [] {
      var m := Next(s, events[0]);
      StepLogs(s, events[0], i);
      RunLogs(m, events[1..], s', i);
      CommitsOnAppend(m.log[|s.log|..], s'.log[|m.log|..], i);
      assert s'.log[|s.log|..] == m.log[|s.log|..] + s'.log[|m.log|..];
    }
  }

  lemma {:induction false} NoCommitsOn(log: seq<Entry>, i: Id)
    ensures CommitsOn(log, i) == 0 <==> forall k | 0 <= k < |log| && log[k].Commit? :: log[k].proposal.profile != i
  {
    if log != [] {
      NoCommitsOn(log[..|log| - 1], i);
      assert forall k | 0 <= k < |log| - 1 :: log[..|log| - 1][k] == log[k];
    }
  }

  /** No commit on the profile was made between the two states. */
  predicate NoCommitSince(s: State, s': State, i: Id) {
    forall k | |s.log| <= k < |s'.log| && s'.log[k].Commit? :: s'.log[k].proposal.profile != i
  }

  lemma NoCommitSinceIff(s: State, events: seq<Event>, s': State, i: Id)
    requires Run(s, events, s') && i in s.profiles
    ensures i in s'.profiles && |s.log| <= |s'.log|
    ensures s'.profiles[i].version == s.profiles[i].version <==> NoCommitSince(s, s', i)
    ensures s.profiles[i].version <= s'.profiles[i].version
  {
    RunLogs(s, events, s', i);
    var more := s'.log[|s.log|..];
    NoCommitsOn(more, i);
    assert forall k | |s.log| <= k < |s'.log| :: s'.log[k] == more[k - |s.log|];
    assert forall k | 0 <= k < |more| :: more[k] == s'.log[|s.log| + k];
  }

  // ---- what the compare-and-set does not notice ----

  /** The commit of this call takes effect. */
  predicate TakesEffect(s: State, call: Id)
    requires Enabled(s, ApplyCommit(call))
  {
    Next(s, ApplyCommit(call)).log != s.log
  }

  /**
   An apply call that has read its proposal takes effect if and only if the profile had the proposal's
   version then and no commit was made on it since. Learning cycles make no difference.
   */
  lemma CommitTakesEffectIff(s: State, events: seq<Event>, s': State, call: Id)
    requires Reachable(s) && Enabled(s, ApplyCommit(call)) && Run(s, events, s')
    requires call in s'.pending && s'.pending[call] == s.pending[call]
    ensures var q := s.pending[call].proposal;
      TakesEffect(s', call) <==> VersionMatches(s, q) && NoCommitSince(s, s', q.profile)
  {
    var s0, before :| Start(s0) && Run(s0, before, s);
    RunKeepsInv(s0, s0, before, s);
    var q := s.pending[call].proposal;
    assert Founded(s, s.proposals[s.pending[call].id]);
    NoCommitSinceIff(s, events, s', q.profile);
  }

  /** What a learning cycle since `s` has put into the field of the proposal stands in `s'`, and the commit replaces it. */
  predicate OverwritesField(s: State, s': State, call: Id)
    requires Enabled(s', ApplyCommit(call)) && s'.pending[call].proposal.profile in s'.profiles
    requires HasField(s'.pending[call].proposal.dimension)
  {
    var q, after := s'.pending[call].proposal, Next(s', ApplyCommit(call));
    && TakesEffect(s', call)
    && Field(after.profiles[q.profile], q.dimension) == Some(Best(q.value, q.weight))
    && exists k {:trigger s'.log[k]} :: |s.log| <= k < |s'.log| && s'.log[k].Learning? && LastTouch(s'.log, q.profile, q.dimension, k)
                      && Field(s'.profiles[q.profile], q.dimension) == Given(s'.log[k], q.dimension)
  }

  predicate LearnedSince(s: State, s': State, i: Id) {
    exists k :: |s.log| <= k < |s'.log| && s'.log[k].Learning? && s'.log[k].profile == i
  }

  lemma LastLearningTouch(log: seq<Entry>, i: Id, d: Dimension, since: nat) returns (k: nat)
    requires exists k :: since <= k < |log| && log[k].Learning? && log[k].profile == i
    requires forall k | since <= k < |log| && log[k].Commit? :: log[k].proposal.profile != i
    ensures since <= k && LastTouch(log, i, d, k) && log[k].Learning?
  {
    k := |log| - 1;
    while !(log[k].Learning? && log[k].profile == i)
      invariant since <= k < |log|
      invariant forall l | k < l < |log| :: !Touches(log[l], i, d)
      invariant exists j :: since <= j <= k && log[j].Learning? && log[j].profile == i
      decreases k
    {
      k := k - 1;
    }
  }

  /**
   In every dimension a profile has a field for, a commit replaces what a learning cycle has computed
   since the proposal was read if and only if there was such a cycle, the version was that of the
   proposal at the read, and no other commit came in between.
   */
  lemma LearningGoesUnnoticed(s: State, events: seq<Event>, s': State, call: Id)
    requires Reachable(s) && Enabled(s, ApplyCommit(call)) && Run(s, events, s')
    requires call in s'.pending && s'.pending[call] == s.pending[call] && HasField(s.pending[call].proposal.dimension)
    ensures var q := s.pending[call].proposal;
      && q.profile in s'.profiles
      && (OverwritesField(s, s', call)
          <==> VersionMatches(s, q) && NoCommitSince(s, s', q.profile) && LearnedSince(s, s', q.profile))
  {
    var q := s.pending[call].proposal;
    CommitTakesEffectIff(s, events, s', call);
    ReachesBoth(s, events, s', call);
    if VersionMatches(s, q) && NoCommitSince(s, s', q.profile) && LearnedSince(s, s', q.profile) {
      var k := LastLearningTouch(s'.log, q.profile, q.dimension, |s.log|);
      StandsInField(s, events, s', q.profile, q.dimension, k);
      assert s'.log[k].Learning?;
    }
  }

  lemma ReachesBoth(s: State, events: seq<Event>, s': State, call: Id)
    requires Reachable(s) && Enabled(s, ApplyCommit(call)) && Run(s, events, s')
    ensures s.pending[call].proposal.profile in s'.profiles
  {
    var s0, before :| Start(s0) && Run(s0, before, s);
    RunKeepsInv(s0, s0, before, s);
    assert Founded(s, s.proposals[s.pending[call].id]);
    NoCommitSinceIff(s, events, s', s.pending[call].proposal.profile);
  }

  lemma StandsInField(s: State, events: seq<Event>, s': State, i: Id, d: Dimension, k: nat)
    requires Reachable(s) && Run(s, events, s') && i in s'.profiles && HasField(d) && LastTouch(s'.log, i, d, k)
    ensures Field(s'.profiles[i], d) == Given(s'.log[k], d)
  {
    var s0, before :| Start(s0) && Run(s0, before, s);
    RunConcat(s0, before, s, events, s');
    ProfilesAreFixed(s0, before + events, s', i);
    FieldsAreOfTheLastWrite(s0, before + events, s', i, d);
  }

  lemma {:induction false} RunConcat(r: State, first: seq<Event>, s: State, second: seq<Event>, s': State)
    requires Run(r, first, s) && Run(s, second, s')
    ensures Run(r, first + second, s')
    decreases |first|
  {
    if first == [] {
      assert first + second == second;
    } else {
      RunConcat(Next(r, first[0]), first[1..], s, second, s');
      assert (first + second)[1..] == first[1..] + second;
    }
  }

  lemma {:induction false} ProfilesAreFixed(s: State, events: seq<Event>, s': State, i: Id)
    requires Run(s, events, s') && i in s'.profiles
    ensures i in s.profiles
    decreases |events|
  {
    if events != [] { ProfilesAreFixed(Next(s, events[0]), events[1..], s', i); }
  }

  /**
   In every dimension, a weight computed by a learning cycle since the read gives way to the proposal's
   under the same condition, while its evidence is kept and added to.
   */
  lemma LearnedWeightIsReplaced(s: State, events: seq<Event>, s': State, call: Id, k: nat)
    requires Reachable(s) && Enabled(s, ApplyCommit(call)) && Run(s, events, s')
    requires call in s'.pending && s'.pending[call] == s.pending[call] && |s.log| <= k
    requires LastLearned(s'.log, WeightKeyOf(s.pending[call].proposal), k)
    ensures var q, after := s.pending[call].proposal, Next(s', ApplyCommit(call));
      var key, evidence := WeightKeyOf(q), s'.log[k].weights[WeightKeyOf(q)].sampleSize + Evidence(s'.log, WeightKeyOf(q), k + 1);
      && key in s'.weights && key in after.weights
      && if VersionMatches(s, q) && NoCommitSince(s, s', q.profile)
         then after.weights[key] == Weight(q.weight, q.weight, evidence + q.sampleSize, q.grade)
         else after.weights[key] == s'.weights[key] && s'.weights[key].sampleSize == evidence
  {
    CommitTakesEffectIff(s, events, s', call);
    var s0, before :| Start(s0) && Run(s0, before, s);
    RunConcat(s0, before, s, events, s');
    WeightsAddUp(s0, before + events, s', WeightKeyOf(s.pending[call].proposal));
  }

  /** It happens, in each of these dimensions. */
  lemma LearningCanBeOverwritten(d: Dimension, learned: Option<Best>)
    requires HasField(d)
    ensures exists s: State, s': State, call: Id {:trigger s.pending[call], s'.pending[call]} ::
      && Reachable(s) && Enabled(s, ApplyCommit(call)) && (exists e :: Enabled(s, e) && s' == Next(s, e))
      && Enabled(s', ApplyCommit(call)) && s'.pending[call].proposal.dimension == d
      && s'.pending[call].proposal.profile in s'.profiles && OverwritesField(s, s', call)
  {
    var s := ReadProposal(d);
    var e := Learn(0, learned, learned, learned, map[]);
    var s' := Step(s, e);
    assert Run(s', [], s') && [e][1..] == [];
    assert Run(s, [e], s');
    assert s'.log[0].Learning? && LearnedSince(s, s', 0);
    LearningGoesUnnoticed(s, [e], s', 0);
    assert s.pending[0] == s'.pending[0];
  }

  lemma ReadProposal(d: Dimension) returns (s: State)
    ensures Reachable(s) && s.profiles.Keys == {0} && s.profiles[0].version == 0 && s.log == []
    ensures s.proposals == map[0 := Proposal(0, 0, 0, 0, d, 0, 0.0, 0, 0, PendingReview)]
    ensures s.pending == map[0 := Applying(0, s.proposals[0])]
  {
    s := State(map[0 := Profile(0, None, None, None)], map[], map[], map[], []);
    assert Start(s) && Run(s, [], s);
    s := Step(s, Propose(0, Proposal(0, 0, 0, 0, d, 0, 0.0, 0, 0, PendingReview)));
    s := Step(s, ApplyRead(0, 0, 0));
  }

  // ---- rejections ----

  predicate IsCommitted(s: State, id: Id) {
    exists k :: 0 <= k < |s.log| && s.log[k].Commit? && s.log[k].id == id
  }

  /** The rejection that this call has read ends the proposal as REJECTED after its effects were committed. */
  ghost predicate RejectsCommitted(s: State, other: Id, id: Id) {
    exists events, s' ::
      && Run(s, events, s') && other in s'.pending && s'.pending[other] == Rejecting(id) && id in s'.proposals
      && IsCommitted(s', id) && Enabled(s', RejectCommit(other))
      && Next(s', RejectCommit(other)).proposals[id].status.Rejected? && IsCommitted(Next(s', RejectCommit(other)), id)
  }

  /** The proposal can still be committed: by a call that has read it, or by one that can read it yet. */
  predicate Committable(s: State, id: Id)
    requires id in s.proposals
  {
    VersionMatches(s, s.proposals[id])
    && (s.proposals[id].status.PendingReview?
        || exists c | c in s.pending :: s.pending[c].Applying? && s.pending[c].id == id)
  }

  lemma CommitsNow(s: State, c: Id) returns (s': State)
    requires Reachable(s) && c in s.pending && s.pending[c].Applying?
    requires s.pending[c].id in s.proposals && VersionMatches(s, s.proposals[s.pending[c].id])
    ensures Run(s, [ApplyCommit(c)], s') && s'.pending == s.pending - {c} && IsCommitted(s', s.pending[c].id)
    ensures s.pending[c].id in s'.proposals
  {
    var s0, before :| Start(s0) && Run(s0, before, s);
    RunKeepsInv(s0, s0, before, s);
    s' := Next(s, ApplyCommit(c));
    assert s'.log[|s.log|].Commit? && Run(s', [], s') && [ApplyCommit(c)][1..] == [];
  }

  lemma CommittableCommits(s: State, other: Id, id: Id)
    requires Reachable(s) && other in s.pending && s.pending[other] == Rejecting(id) && id in s.proposals && Committable(s, id)
    ensures RejectsCommitted(s, other, id)
  {
    if c :| c in s.pending && s.pending[c].Applying? && s.pending[c].id == id {
      var s' := CommitsNow(s, c);
      assert Enabled(s', RejectCommit(other));
    } else {
      var c := Unused(s.pending.Keys);
      var e := ApplyRead(c, s.proposals[id].workspace, id);
      var m := Step(s, e);
      var s' := CommitsNow(m, c);
      assert [e, ApplyCommit(c)][1..] == [ApplyCommit(c)];
      assert Run(s, [e, ApplyCommit(c)], s') && Enabled(s', RejectCommit(other));
    }
  }

  lemma CommitComes(s: State, e: Event, id: Id)
    requires Enabled(s, e) && IsCommitted(Next(s, e), id) && !IsCommitted(s, id)
    ensures e.ApplyCommit? && s.pending[e.call].id == id && VersionMatches(s, s.pending[e.call].proposal)
  {
    var k :| 0 <= k < |Next(s, e).log| && Next(s, e).log[k].Commit? && Next(s, e).log[k].id == id;
    assert s.log <= Next(s, e).log;
  }

  /** Once a proposal cannot be committed any more it stays so. */
  lemma StaysUncommittable(s0: State, s: State, e: Event, id: Id)
    requires Inv(s0, s) && Enabled(s, e) && id in s.proposals && !IsCommitted(s, id) && !Committable(s, id)
    ensures id in Next(s, e).proposals && !IsCommitted(Next(s, e), id) && !Committable(Next(s, e), id)
  {
    StepGrows(s, e);
    assert Founded(s, s.proposals[id]);
    if IsCommitted(Next(s, e), id) { CommitComes(s, e, id); }
  }

  lemma {:induction false} NeverCommitted(s0: State, s: State, events: seq<Event>, s': State, id: Id)
    requires Inv(s0, s) && Run(s, events, s') && id in s.proposals && !IsCommitted(s, id) && !Committable(s, id)
    ensures !IsCommitted(s', id)
    decreases |events|
  {
    if events != [] {
      StaysUncommittable(s0, s, events[0], id);
      StepKeepsInv(s0, s, events[0]);
      NeverCommitted(s0, Next(s, events[0]), events[1..], s', id);
    }
  }

  /**
   A rejection that has been read can end a proposal as REJECTED whose effects are in place if and only if
   they are already committed or still can be: nothing ties the rejection to the status it has read.
   */
  lemma RejectionCanFollowCommit(s: State, other: Id, id: Id)
    requires Reachable(s) && other in s.pending && s.pending[other] == Rejecting(id) && id in s.proposals
    ensures RejectsCommitted(s, other, id) <==> IsCommitted(s, id) || Committable(s, id)
  {
    if IsCommitted(s, id) {
      assert Run(s, [], s) && Enabled(s, RejectCommit(other));
    } else if Committable(s, id) {
      CommittableCommits(s, other, id);
    } else if RejectsCommitted(s, other, id) {
      var events, s' :| Run(s, events, s') && IsCommitted(s', id);
      var s0, before :| Start(s0) && Run(s0, before, s);
      RunKeepsInv(s0, s0, before, s);
      NeverCommitted(s0, s, events, s', id);
    }
  }

  lemma CommitBeforeReject() returns (s: State)
    ensures Reachable(s) && s.pending == map[1 := Rejecting(0)] && 0 in s.proposals && |s.log| == 1
    ensures s.log[0].Commit? && s.log[0].id == 0
  {
    s := ReadProposal(Topic);
    s := Step(s, RejectRead(1, 0, 0));
    s := Step(s, ApplyCommit(0));
  }

  /** It happens: both calls have read the proposal before either writes. */
  lemma CommittedAndRejected()
    ensures exists s, id :: Reachable(s) && id in s.proposals && s.proposals[id].status.Rejected? && IsCommitted(s, id)
  {
    var s := CommitBeforeReject();
    s := Step(s, RejectCommit(1));
    assert s.log[0].Commit?;
    assert IsCommitted(s, 0);
  }

  /** The commit has read this proposal, and the version it was computed from is still the profile's. */
  predicate CommitsProposal(s: State, e: Event, i: Id) {
    e.ApplyCommit? && e.call in s.pending && s.pending[e.call].Applying? && s.pending[e.call].id == i
    && s.pending[e.call].proposal.profile in s.profiles
    && s.profiles[s.pending[e.call].proposal.profile].version == s.pending[e.call].proposal.sourceVersion
  }

  /**
   What a step makes of a proposal: a commit that takes effect marks it APPLIED, a rejection REJECTED, and
   no other step of any call touches it once it is there.
   */
  lemma ProposalAfter(s: State, e: Event, i: Id)
    requires Reachable(s) && Enabled(s, e)
    ensures i in Next(s, e).proposals <==> i in s.proposals || (e.Propose? && e.id == i)
    ensures e.Propose? ==> Next(s, e).proposals[e.id] == e.proposal
    ensures i in s.proposals ==>
      Next(s, e).proposals[i] ==
        if CommitsProposal(s, e, i) then s.proposals[i].(status := Applied)
        else if e.RejectCommit? && s.pending[e.call] == Rejecting(i) then s.proposals[i].(status := Rejected)
        else s.proposals[i]
  {
    var s0, events :| Start(s0) && Run(s0, events, s);
    RunKeepsInv(s0, s0, events, s);
  }

  /** Only the workspace of a proposal applies or rejects it, and only while it is pending. */
  lemma ReviewedByItsWorkspace(s: State, call: Id, workspace: Id, id: Id)
    ensures var mine := && call !in s.pending && id in s.proposals
                        && s.proposals[id].workspace == workspace && s.proposals[id].status == PendingReview;
      (Enabled(s, ApplyRead(call, workspace, id)) <==> mine) && (Enabled(s, RejectRead(call, workspace, id)) <==> mine)
  {
  }

  // ---- the service ----

  class Service {
    var state: State

    constructor (profiles: map<Id, Profile>)
      ensures state == State(profiles, map[], map[], map[], []) && Start(state)
    {
      state := State(profiles, map[], map[], map[], []);
    }

    /** The transaction of an apply call that has read its proposal. */
    method ApplyProposal(call: Id) returns (ok: bool)
      requires Enabled(state, ApplyCommit(call))
      modifies this
      ensures state == Next(old(state), ApplyCommit(call))
      ensures ok <==> VersionMatches(old(state), old(state).pending[call].proposal)
    {
      var id, proposal := state.pending[call].id, state.pending[call].proposal;
      state := state.(pending := state.pending - {call});
      if proposal.profile !in state.profiles || state.profiles[proposal.profile].version != proposal.sourceVersion {
        return false;
      }
      var updated := state.profiles[proposal.profile];
      updated := updated.(version := updated.version + 1);
      if proposal.dimension == Topic {
        updated := updated.(topic := Some(Best(proposal.value, proposal.weight)));
      } else if proposal.dimension == Format {
        updated := updated.(format := Some(Best(proposal.value, proposal.weight)));
      } else if proposal.dimension == LengthBucket {
        updated := updated.(lengthBucket := Some(Best(proposal.value, proposal.weight)));
      }
      state := state.(profiles := state.profiles[proposal.profile := updated]);
      var key := (proposal.account, proposal.dimension, proposal.value);
      var weight := Weight(proposal.weight, proposal.weight, proposal.sampleSize, proposal.grade);
      if key in state.weights {
        weight := weight.(sampleSize := state.weights[key].sampleSize + proposal.sampleSize);
      }
      state := state.(weights := state.weights[key := weight], proposals := state.proposals[id := proposal.(status := Applied)],
                      log := state.log + [Commit(id, proposal)]);
      return true;
    }
  }
}
