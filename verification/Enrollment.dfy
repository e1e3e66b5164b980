/**
 One-time enrollment tokens (src/server/enrollment.py). The store's operations run under a lock, so each is one step;
 an enrollment is two of them, consume and persist, and any number may be under way between the two.
 */
module Enrollment {
  import opened Wrappers
  import opened Collections
  import opened Text

  type Time = int

  type AgentId = nat

  type EnrollId = nat

  datatype Token = Token(node: Str, labels: seq<Str>, hostKey: Str, expires: Time, used: bool, disabled: bool)

  datatype Record = Record(hash: Str, node: Str, labels: seq<Str>, hostKey: Str)

  datatype Agent = Agent(node: Str, labels: seq<Str>, hostKey: Str)

  predicate Active(t: Token) {
    !t.used && !t.disabled
  }

  /** The loop of `create_enrollment_token`. */
  function DisableFor(tokens: map<Str, Token>, node: Str): map<Str, Token> {
    map h | h in tokens :: if tokens[h].node == node && Active(tokens[h]) then tokens[h].(disabled := true) else tokens[h]
  }

  function Created(tokens: map<Str, Token>, hash: Str, node: Str, labels: seq<Str>, hostKey: Str, expires: Time):
    map<Str, Token>
  {
    DisableFor(tokens, node)[hash := Token(node, labels, hostKey, expires, false, false)]
  }

  /** Whether `consume_enrollment_token` finds its token. */
  predicate Matches(tokens: map<Str, Token>, hash: Str, node: Str, now: Time) {
    hash in tokens && tokens[hash].node == node && Active(tokens[hash]) && now < tokens[hash].expires
  }

  function Consumed(tokens: map<Str, Token>, hash: Str, node: Str, now: Time): (map<Str, Token>, Option<Record>) {
    if !Matches(tokens, hash, node, now) then (tokens, None)
    else
      var t := tokens[hash];
      (tokens[hash := t.(used := true)], Some(Record(hash, node, t.labels, t.hostKey)))
  }

  class InMemoryEnrollmentStore {
    var tokens: map<Str, Token>
    var agents: map<AgentId, Agent>

    constructor ()
      ensures tokens == map[] && agents == map[]
    {
      tokens, agents := map[], map[];
    }

    method CreateEnrollmentToken(hash: Str, node: Str, labels: seq<Str>, hostKey: Str, expires: Time)
      modifies this`tokens
      ensures tokens == Created(old(tokens), hash, node, labels, hostKey, expires)
      ensures tokens.Keys == old(tokens).Keys + {hash}
      ensures tokens[hash] == Token(node, labels, hostKey, expires, false, false)
      ensures forall h :: h in old(tokens) && h != hash ==>
                tokens[h] == old(tokens)[h].(disabled := old(tokens)[h].disabled
                                                         || (old(tokens)[h].node == node && !old(tokens)[h].used))
    {
      var todo := tokens.Keys;
      while todo != {}
        invariant todo <= tokens.Keys == old(tokens).Keys
        invariant forall h :: h in tokens ==>
          tokens[h] == if h in todo then old(tokens)[h] else DisableFor(old(tokens), node)[h]
      {
        var h :| h in todo;
        if tokens[h].node == node && !tokens[h].used && !tokens[h].disabled {
          tokens := tokens[h := tokens[h].(disabled := true)];
        }
        todo := todo - {h};
      }
      assert tokens == DisableFor(old(tokens), node);
      tokens := tokens[hash := Token(node, labels, hostKey, expires, false, false)];
    }

    method ConsumeEnrollmentToken(hash: Str, node: Str, now: Time) returns (record: Option<Record>)
      modifies this`tokens
      ensures (tokens, record) == Consumed(old(tokens), hash, node, now)
      ensures record.Some? <==>
                hash in old(tokens) && old(tokens)[hash].node == node
                && !old(tokens)[hash].used && !old(tokens)[hash].disabled && now < old(tokens)[hash].expires
      ensures record.Some? ==>
                record.value == Record(hash, node, old(tokens)[hash].labels, old(tokens)[hash].hostKey)
                && tokens == old(tokens)[hash := old(tokens)[hash].(used := true)]
      ensures record.None? ==> tokens == old(tokens)
    {
      if hash !in tokens { return None; }
      var row := tokens[hash];
      if row.node != node { return None; }
      if row.used || row.disabled { return None; }
      if row.expires <= now { return None; }
      tokens := tokens[hash := row.(used := true)];
      return Some(Record(hash, node, row.labels, row.hostKey));
    }

    method PersistAgent(id: AgentId, agent: Agent)
      modifies this`agents
      ensures agents == old(agents)[id := agent]
    {
      agents := agents[id := agent];
    }
  }

  // ---------------------------------------------------------------- enrollments under way

  /** `pending` are the enrollments between consume and persist; `origin` is the token that each agent came from. */
  datatype System = System(
    tokens: map<Str, Token>,
    agents: map<AgentId, Agent>,
    pending: map<EnrollId, Record>,
    origin: map<AgentId, Str>)

  datatype Step =
    | Create(hash: Str, node: Str, labels: seq<Str>, hostKey: Str, expires: Time)
    | Consume(id: EnrollId, hash: Str, node: Str, now: Time)
    | Persist(id: EnrollId, agent: AgentId, presentedHostKey: Str)
    | Abandon(id: EnrollId)

  /** Token hashes, enrollments and agent ids are fresh when they are made. */
  predicate Enabled(s: System, step: Step) {
    match step
    case Create(hash, _, _, _, _) => hash !in s.tokens
    case Consume(id, _, _, _) => id !in s.pending
    case Persist(id, agent, _) => id in s.pending && agent !in s.agents
    case Abandon(id) => id in s.pending
  }

  /** What `enroll` does with a consumed token: persist the agent if the host key presented is the pinned one. */
  function Persisted(s: System, id: EnrollId, agent: AgentId, presentedHostKey: Str): System
    requires id in s.pending
  {
    var r := s.pending[id];
    if presentedHostKey != r.hostKey then s.(pending := s.pending - {id})
    else s.(pending := s.pending - {id},
            agents := s.agents[agent := Agent(r.node, r.labels, r.hostKey)],
            origin := s.origin[agent := r.hash])
  }

  function Next(s: System, step: Step): System
    requires Enabled(s, step)
  {
    match step
    case Create(hash, node, labels, hostKey, expires) =>
      s.(tokens := Created(s.tokens, hash, node, labels, hostKey, expires))
    case Consume(id, hash, node, now) =>
      var r := Consumed(s.tokens, hash, node, now);
      s.(tokens := r.0, pending := if r.1.Some? then s.pending[id := r.1.value] else s.pending)
    case Persist(id, agent, presentedHostKey) => Persisted(s, id, agent, presentedHostKey)
    case Abandon(id) => s.(pending := s.pending - {id})
  }

  // ---------------------------------------------------------------- the invariant

  ghost predicate OneActive(tokens: map<Str, Token>) {
    forall g, h ::
      g in tokens && h in tokens && Active(tokens[g]) && Active(tokens[h]) && tokens[g].node == tokens[h].node ==> g == h
  }

  /** A used token with these particulars. */
  predicate Spent(tokens: map<Str, Token>, hash: Str, node: Str, labels: seq<Str>, hostKey: Str) {
    hash in tokens && tokens[hash].used
    && tokens[hash].node == node && tokens[hash].labels == labels && tokens[hash].hostKey == hostKey
  }

  predicate RecordSpent(tokens: map<Str, Token>, r: Record) {
    Spent(tokens, r.hash, r.node, r.labels, r.hostKey)
  }

  predicate AgentSpent(tokens: map<Str, Token>, hash: Str, a: Agent) {
    Spent(tokens, hash, a.node, a.labels, a.hostKey)
  }

  ghost predicate PendingOk(s: System) {
    && (forall i :: i in s.pending ==> RecordSpent(s.tokens, s.pending[i]))
    && (forall i, j :: i in s.pending && j in s.pending && s.pending[i].hash == s.pending[j].hash ==> i == j)
  }

  ghost predicate AgentsOk(s: System) {
    && s.agents.Keys == s.origin.Keys
    && (forall a :: a in s.agents ==> AgentSpent(s.tokens, s.origin[a], s.agents[a]))
    && (forall a, b :: a in s.origin && b in s.origin && s.origin[a] == s.origin[b] ==> a == b)
  }

  ghost predicate Disjoint(s: System) {
    forall i, a :: i in s.pending && a in s.origin ==> s.pending[i].hash != s.origin[a]
  }

  /**
   Each node has at most one active token; the agents map one to one into used tokens with the same node name, labels
   and host key, and the enrollments under way into further ones.
   */
  ghost predicate Inv(s: System) {
    OneActive(s.tokens) && PendingOk(s) && AgentsOk(s) && Disjoint(s)
  }

  /** Between two states no token is lost, changes its particulars or becomes active again. */
  ghost predicate TokensAge(before: map<Str, Token>, after: map<Str, Token>) {
    forall h :: h in before ==> Aged(before, after, h)
  }

  predicate Aged(before: map<Str, Token>, after: map<Str, Token>, h: Str)
    requires h in before
  {
    h in after && (before[h].used ==> after[h].used) && (before[h].disabled ==> after[h].disabled)
    && after[h] == before[h].(used := after[h].used, disabled := after[h].disabled)
  }

  lemma CreateAges(tokens: map<Str, Token>, hash: Str, node: Str, labels: seq<Str>, hostKey: Str, expires: Time)
    requires hash !in tokens
    ensures TokensAge(tokens, Created(tokens, hash, node, labels, hostKey, expires))
  {
  }

  lemma StepAges(s: System, step: Step)
    requires Enabled(s, step)
    ensures TokensAge(s.tokens, Next(s, step).tokens)
  {
    match step
    case Create(hash, node, labels, hostKey, expires) => CreateAges(s.tokens, hash, node, labels, hostKey, expires);
    case _ =>
  }

  lemma CreateOneActive(tokens: map<Str, Token>, hash: Str, node: Str, labels: seq<Str>, hostKey: Str, expires: Time)
    requires OneActive(tokens)
    ensures OneActive(Created(tokens, hash, node, labels, hostKey, expires))
  {
  }

  lemma SpentAges(before: map<Str, Token>, after: map<Str, Token>, hash: Str, node: Str, labels: seq<Str>, hostKey: Str)
    requires TokensAge(before, after) && Spent(before, hash, node, labels, hostKey)
    ensures Spent(after, hash, node, labels, hostKey)
  {
    assert Aged(before, after, hash);
  }

  lemma AgeKeeps(s: System, after: map<Str, Token>)
    requires Inv(s) && TokensAge(s.tokens, after) && OneActive(after)
    ensures Inv(s.(tokens := after))
  {
    forall i | i in s.pending ensures RecordSpent(after, s.pending[i]) {
      var r := s.pending[i];
      SpentAges(s.tokens, after, r.hash, r.node, r.labels, r.hostKey);
    }
    forall a | a in s.agents ensures AgentSpent(after, s.origin[a], s.agents[a]) {
      var agent := s.agents[a];
      SpentAges(s.tokens, after, s.origin[a], agent.node, agent.labels, agent.hostKey);
    }
  }

  lemma ConsumeKeeps(s: System, id: EnrollId, hash: Str, node: Str, now: Time)
    requires Inv(s) && id !in s.pending && Matches(s.tokens, hash, node, now)
    ensures Inv(Next(s, Consume(id, hash, node, now)))
  {
    var t := Next(s, Consume(id, hash, node, now));
    StepAges(s, Consume(id, hash, node, now));
    AgeKeeps(s, t.tokens);
    forall i | i in s.pending ensures s.pending[i].hash != hash {
      assert RecordSpent(s.tokens, s.pending[i]);
    }
    forall a | a in s.origin ensures s.origin[a] != hash {
      assert AgentSpent(s.tokens, s.origin[a], s.agents[a]);
    }
  }

  lemma PersistKeeps(s: System, id: EnrollId, agent: AgentId, presentedHostKey: Str)
    requires Inv(s) && id in s.pending && agent !in s.agents
    ensures Inv(Persisted(s, id, agent, presentedHostKey))
  {
    assert RecordSpent(s.tokens, s.pending[id]);
  }

  lemma StepKeeps(s: System, step: Step)
    requires Inv(s) && Enabled(s, step)
    ensures Inv(Next(s, step))
  {
    match step
    case Create(hash, node, labels, hostKey, expires) =>
      CreateAges(s.tokens, hash, node, labels, hostKey, expires);
      CreateOneActive(s.tokens, hash, node, labels, hostKey, expires);
      AgeKeeps(s, Created(s.tokens, hash, node, labels, hostKey, expires));
    case Consume(id, hash, node, now) =>
      if Matches(s.tokens, hash, node, now) { ConsumeKeeps(s, id, hash, node, now); }
    case Persist(id, agent, presentedHostKey) => PersistKeeps(s, id, agent, presentedHostKey);
    case Abandon(id) =>
  }

  // ---------------------------------------------------------------- runs

  function Empty(): System {
    System(map[], map[], map[], map[])
  }

  predicate IsRun(s: System, steps: seq<Step>)
    decreases |steps|
  {
    steps == [] || (Enabled(s, steps[0]) && IsRun(Next(s, steps[0]), steps[1..]))
  }

  function After(s: System, steps: seq<Step>): System
    requires IsRun(s, steps)
    decreases |steps|
  {
    if steps == [] then s else After(Next(s, steps[0]), steps[1..])
  }

  lemma {:induction false} RunKeeps(s: System, steps: seq<Step>)
    requires Inv(s) && IsRun(s, steps)
    ensures Inv(After(s, steps))
    decreases |steps|
  {
    if steps != [] {
      StepKeeps(s, steps[0]);
      RunKeeps(Next(s, steps[0]), steps[1..]);
    }
  }

  /** A used or disabled token is never active again, and keeps its node, labels, host key and expiry. */
  lemma {:induction false} NeverActiveAgain(s: System, steps: seq<Step>, hash: Str)
    requires IsRun(s, steps) && hash in s.tokens
    ensures hash in After(s, steps).tokens && Aged(s.tokens, After(s, steps).tokens, hash)
    ensures !Active(s.tokens[hash]) ==> !Active(After(s, steps).tokens[hash])
    decreases |steps|
  {
    if steps != [] {
      StepAges(s, steps[0]);
      assert Aged(s.tokens, Next(s, steps[0]).tokens, hash);
      NeverActiveAgain(Next(s, steps[0]), steps[1..], hash);
    }
  }

  /** The enrollments of a run that get hold of one token. */
  function Winners(s: System, steps: seq<Step>, hash: Str): nat
    requires IsRun(s, steps)
    decreases |steps|
  {
    if steps == [] then 0
    else
      (if steps[0].Consume? && steps[0].hash == hash && Matches(s.tokens, hash, steps[0].node, steps[0].now) then 1
       else 0)
      + Winners(Next(s, steps[0]), steps[1..], hash)
  }

  lemma {:induction false} SpentHasNoWinner(s: System, steps: seq<Step>, hash: Str)
    requires IsRun(s, steps) && hash in s.tokens && !Active(s.tokens[hash])
    ensures Winners(s, steps, hash) == 0
    decreases |steps|
  {
    if steps != [] {
      StepAges(s, steps[0]);
      assert Aged(s.tokens, Next(s, steps[0]).tokens, hash);
      SpentHasNoWinner(Next(s, steps[0]), steps[1..], hash);
    }
  }

  /** However many enrollments race for a token, at most one wins. */
  lemma {:induction false} AtMostOneWinner(s: System, steps: seq<Step>, hash: Str)
    requires IsRun(s, steps)
    ensures Winners(s, steps, hash) <= 1
    decreases |steps|
  {
    if steps != [] {
      var t := Next(s, steps[0]);
      if steps[0].Consume? && steps[0].hash == hash && Matches(s.tokens, hash, steps[0].node, steps[0].now) {
        SpentHasNoWinner(t, steps[1..], hash);
      } else {
        AtMostOneWinner(t, steps[1..], hash);
      }
    }
  }

  // ---------------------------------------------------------------- only in time, and only with the pinned key

  /** An enrollment gets hold of its token if and only if the token is the node's, active and not yet expired. */
  lemma ConsumeWinsIff(s: System, id: EnrollId, hash: Str, node: Str, now: Time)
    requires Enabled(s, Consume(id, hash, node, now))
    ensures var t := Next(s, Consume(id, hash, node, now));
            && (id in t.pending <==>
                  hash in s.tokens && s.tokens[hash].node == node
                  && !s.tokens[hash].used && !s.tokens[hash].disabled && now < s.tokens[hash].expires)
            && (id in t.pending ==>
                  t.pending == s.pending[id := Record(hash, node, s.tokens[hash].labels, s.tokens[hash].hostKey)]
                  && t.tokens == s.tokens[hash := s.tokens[hash].(used := true)])
            && (id !in t.pending ==> t == s)
  {
  }

  /** An enrollment under way ends with an agent if and only if the host key presented is the one pinned by its token. */
  lemma PersistIff(s: System, id: EnrollId, agent: AgentId, presentedHostKey: Str)
    requires Enabled(s, Persist(id, agent, presentedHostKey))
    ensures var t, r := Next(s, Persist(id, agent, presentedHostKey)), s.pending[id];
            && t.tokens == s.tokens && t.pending == s.pending - {id}
            && (agent in t.agents <==> presentedHostKey == r.hostKey)
            && (agent in t.agents ==>
                  t.agents == s.agents[agent := Agent(r.node, r.labels, r.hostKey)]
                  && t.origin == s.origin[agent := r.hash])
            && (agent !in t.agents ==> t.agents == s.agents && t.origin == s.origin)
    ensures Next(s, Abandon(id)) == s.(pending := s.pending - {id})
  {
  }

  /** A whole enrollment: a token is created, consumed in time and, with the pinned host key, turned into an agent. */
  lemma WholeEnrollment(hash: Str, node: Str, labels: seq<Str>, hostKey: Str, expires: Time, now: Time)
    requires now < expires
    ensures var steps := [Create(hash, node, labels, hostKey, expires)]
                         + ([Consume(0, hash, node, now)] + ([Persist(0, 1, hostKey)] + []));
            IsRun(Empty(), steps)
            && After(Empty(), steps).agents == map[1 := Agent(node, labels, hostKey)]
            && After(Empty(), steps).tokens == map[hash := Token(node, labels, hostKey, expires, true, false)]
  {
    var a, b, c := Create(hash, node, labels, hostKey, expires), Consume(0, hash, node, now), Persist(0, 1, hostKey);
    var s := Next(Empty(), a);
    assert s.tokens == map[hash := Token(node, labels, hostKey, expires, false, false)];
    ConsumeWinsIff(s, 0, hash, node, now);
    var t := Next(s, b);
    PersistIff(t, 0, 1, hostKey);
    RunCons(t, c, []);
    RunCons(s, b, [c] + []);
    RunCons(Empty(), a, [b] + ([c] + []));
  }

  lemma RunCons(s: System, step: Step, rest: seq<Step>)
    requires Enabled(s, step) && IsRun(Next(s, step), rest)
    ensures IsRun(s, [step] + rest) && After(s, [step] + rest) == After(Next(s, step), rest)
  {
    assert ([step] + rest)[1..] == rest;
  }

  /** In step `k` of the run an enrollment takes the token: for its own node, active, and before its expiry. */
  ghost predicate TakenAt(s: System, steps: seq<Step>, k: nat, hash: Str)
    requires IsRun(s, steps)
    decreases |steps|
  {
    steps != []
    && if k > 0 then TakenAt(Next(s, steps[0]), steps[1..], k - 1, hash)
       else steps[0].Consume? && steps[0].hash == hash && hash in s.tokens
            && s.tokens[hash].node == steps[0].node && !s.tokens[hash].used && !s.tokens[hash].disabled
            && steps[0].now < s.tokens[hash].expires
  }

  ghost predicate Taking(s: System, steps: seq<Step>, hash: Str)
    requires IsRun(s, steps)
  {
    exists k: nat :: TakenAt(s, steps, k, hash)
  }

  /** The token is one that an enrollment under way or an agent has. */
  ghost predicate Held(s: System, hash: Str) {
    (exists i :: i in s.pending && s.pending[i].hash == hash) || (exists a :: a in s.origin && s.origin[a] == hash)
  }

  lemma TakingLater(s: System, steps: seq<Step>, hash: Str)
    requires IsRun(s, steps) && steps != [] && Taking(Next(s, steps[0]), steps[1..], hash)
    ensures Taking(s, steps, hash)
  {
    var k: nat :| TakenAt(Next(s, steps[0]), steps[1..], k, hash);
    assert TakenAt(s, steps, k + 1, hash);
  }

  lemma HeldBefore(s: System, step: Step, hash: Str)
    requires Enabled(s, step) && Held(Next(s, step), hash) && !Held(s, hash)
    ensures step.Consume? && step.hash == hash && hash in s.tokens && s.tokens[hash].node == step.node
            && !s.tokens[hash].used && !s.tokens[hash].disabled && step.now < s.tokens[hash].expires
  {
    match step
    case Consume(id, h, node, now) => ConsumeWinsIff(s, id, h, node, now);
    case Persist(id, agent, key) => PersistIff(s, id, agent, key);
    case _ =>
  }

  lemma {:induction false} HeldWasTaken(s: System, steps: seq<Step>, hash: Str)
    requires IsRun(s, steps) && Held(After(s, steps), hash) && !Held(s, hash)
    ensures Taking(s, steps, hash)
    decreases |steps|
  {
    if steps != [] {
      var t := Next(s, steps[0]);
      if Held(t, hash) {
        HeldBefore(s, steps[0], hash);
        assert TakenAt(s, steps, 0, hash);
      } else {
        HeldWasTaken(t, steps[1..], hash);
        TakingLater(s, steps, hash);
      }
    }
  }

  /**
   From an empty store: every agent and every enrollment under way has a token that was taken, at some step of the run,
   for the token's node, while it was active and before it expired.
   */
  lemma OnlyInTime(steps: seq<Step>)
    requires IsRun(Empty(), steps)
    ensures var s := After(Empty(), steps);
            && (forall i :: i in s.pending ==> Taking(Empty(), steps, s.pending[i].hash))
            && (forall a :: a in s.agents ==> a in s.origin && Taking(Empty(), steps, s.origin[a]))
  {
    RunKeeps(Empty(), steps);
    var s := After(Empty(), steps);
    forall i | i in s.pending ensures Taking(Empty(), steps, s.pending[i].hash) {
      HeldWasTaken(Empty(), steps, s.pending[i].hash);
    }
    forall a | a in s.origin ensures Taking(Empty(), steps, s.origin[a]) {
      HeldWasTaken(Empty(), steps, s.origin[a]);
    }
  }

  /** From an empty store, after any interleaving: the main facts of the invariant, in plain terms. */
  lemma EnrollmentConserved(steps: seq<Step>)
    requires IsRun(Empty(), steps)
    ensures var s := After(Empty(), steps);
            && OneActive(s.tokens)
            && (forall a :: a in s.agents ==>
                  a in s.origin && s.origin[a] in s.tokens && s.tokens[s.origin[a]].used
                  && s.agents[a] == Agent(s.tokens[s.origin[a]].node, s.tokens[s.origin[a]].labels,
                                          s.tokens[s.origin[a]].hostKey))
            && (forall a, b :: a in s.agents && b in s.agents && s.origin[a] == s.origin[b] ==> a == b)
            && |s.agents| + |s.pending| <= |UsedTokens(s.tokens)|
  {
    RunKeeps(Empty(), steps);
    var s := After(Empty(), steps);
    forall a | a in s.agents
      ensures s.origin[a] in s.tokens && s.tokens[s.origin[a]].used
              && s.agents[a] == Agent(s.tokens[s.origin[a]].node, s.tokens[s.origin[a]].labels, s.tokens[s.origin[a]].hostKey)
    {
      assert AgentSpent(s.tokens, s.origin[a], s.agents[a]);
    }
    CountSpent(s);
  }

  function UsedTokens(tokens: map<Str, Token>): set<Str> {
    set h | h in tokens && tokens[h].used
  }

  ghost predicate Injective(m: map<nat, Str>) {
    forall a, b :: a in m && b in m && m[a] == m[b] ==> a == b
  }

  lemma ValuesSplit(m: map<nat, Str>, k: nat)
    requires k in m && Injective(m)
    ensures m.Values == (m - {k}).Values + {m[k]} && m[k] !in (m - {k}).Values
    ensures m.Keys == (m - {k}).Keys + {k} && Injective(m - {k})
  {
    var rest := m - {k};
    forall v | v in m.Values ensures v in rest.Values + {m[k]} {
      var a :| a in m && m[a] == v;
      if a != k { assert a in rest && rest[a] == v; }
    }
  }

  lemma {:induction false} InjectiveSize(m: map<nat, Str>)
    requires Injective(m)
    ensures |m.Values| == |m.Keys|
    decreases |m.Keys|
  {
    if m.Keys == {} {
      assert m.Values == {};
    } else {
      var k :| k in m.Keys;
      ValuesSplit(m, k);
      InjectiveSize(m - {k});
    }
  }

  function Taken(s: System): map<EnrollId, Str> {
    map i | i in s.pending :: s.pending[i].hash
  }

  lemma HashesAreUsed(s: System, h: Str)
    requires PendingOk(s) && AgentsOk(s) && h in Taken(s).Values + s.origin.Values
    ensures h in UsedTokens(s.tokens)
  {
    if h in Taken(s).Values {
      var i :| i in s.pending && Taken(s)[i] == h;
      assert RecordSpent(s.tokens, s.pending[i]);
    } else {
      var a :| a in s.origin && s.origin[a] == h;
      assert AgentSpent(s.tokens, s.origin[a], s.agents[a]);
    }
  }

  lemma TakenSize(s: System)
    requires PendingOk(s)
    ensures |Taken(s).Values| == |s.pending|
  {
    InjectiveSize(Taken(s));
    assert Taken(s).Keys == s.pending.Keys;
    assert |s.pending| == |s.pending.Keys|;
  }

  lemma OriginSize(s: System)
    requires AgentsOk(s)
    ensures |s.origin.Values| == |s.agents|
  {
    InjectiveSize(s.origin);
    assert |s.agents| == |s.agents.Keys|;
  }

  lemma CountSpent(s: System)
    requires PendingOk(s) && AgentsOk(s) && Disjoint(s)
    ensures |s.agents| + |s.pending| <= |UsedTokens(s.tokens)|
  {
    var hashes := Taken(s).Values + s.origin.Values;
    TakenSize(s);
    OriginSize(s);
    forall h | h in hashes ensures h in UsedTokens(s.tokens) {
      HashesAreUsed(s, h);
    }
    assert Taken(s).Values !! s.origin.Values;
    SubsetSize(hashes, UsedTokens(s.tokens));
  }
}
