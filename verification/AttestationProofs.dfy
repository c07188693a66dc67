/**
  What every entry point of the attestation pallet keeps: the life cycle of
  an attestation, the per-pair counters, the model index and the reserve.
*/
module AttestationProofs {
  import opened Prelude
  import opened MapSum
  import opened Currency
  import opened AttestationSpec

  // ---- The obligations and the counters are sums over the attestation table.

  ghost function PendingDeposit(who: AccountId): (AttestationId, Attestation) -> nat {
    (id: AttestationId, a: Attestation) => if a.attester == who && a.status == Pending then a.deposit else 0
  }

  /** What the pallet owes `who` out of the reserve: the deposits still pending. */
  ghost function Owed(s: State, who: AccountId): nat {
    Sum(s.attestations, PendingDeposit(who))
  }

  ghost function ForPair(who: AccountId, task: TaskId): (AttestationId, Attestation) -> nat {
    (id: AttestationId, a: Attestation) => if a.attester == who && a.taskId == task then 1 else 0
  }

  /** Number of stored attestations of `who` for `task`. */
  ghost function StoredFor(s: State, who: AccountId, task: TaskId): nat {
    Sum(s.attestations, ForPair(who, task))
  }

  // ---- The invariant.

  ghost predicate IdsBelowNext(s: State) {
    forall id :: id in s.attestations ==> id < s.nextId
  }

  /** A final status says whether the attestation had been challenged. */
  ghost predicate VerdictsMatchChallenges(s: State) {
    forall id :: id in s.attestations ==>
      && (s.attestations[id].status == Confirmed ==> s.attestations[id].challenger.None?)
      && (s.attestations[id].status in {Slashed, Defended} ==> s.attestations[id].challenger.Some?)
  }

  /** The stored counter is the number of attestations of the pair, capped at its width. */
  ghost predicate CountsExact(s: State) {
    forall who, task :: TaskCount(s, who, task) == Min(StoredFor(s, who, task), U32_MAX)
  }

  /** `ModelProviders` is the inverse of the capability table. */
  ghost predicate IndexInverse(s: State) {
    forall m, who :: (m, who) in s.providers <==> who in s.capabilities && m in s.capabilities[who].models
  }

  ghost predicate NodesActive(s: State) {
    && (forall who :: who in s.nodes ==> s.nodes[who].isActive)
    && s.capabilities.Keys <= s.nodes.Keys
  }

  ghost predicate Inv(s: State) {
    IdsBelowNext(s) && VerdictsMatchChallenges(s) && CountsExact(s) && IndexInverse(s) && NodesActive(s)
  }

  // ---- One attestation over one step.

  /** The ways in which a step at block `now` may change a stored attestation. */
  ghost predicate Moves(a: Attestation, a': Attestation, now: BlockNumber) {
    || a' == a
    || (a.status == Pending && a.challenger.None? && now <= a.challengeEnd && a'.challenger.Some?
        && a' == a.(challenger := a'.challenger))
    || (a.status == Pending && a.challenger.None? && a.challengeEnd < now && a' == a.(status := Confirmed))
    || (a.status == Pending && a.challenger.Some? && a' in {a.(status := Slashed), a.(status := Defended)})
  }

  /** Every stored attestation moves legally, and new ones start pending and unchallenged under unused ids. */
  ghost predicate Evolves(s: State, s': State, now: BlockNumber) {
    && s.nextId <= s'.nextId
    && (forall id :: id in s.attestations ==> id in s'.attestations && Moves(s.attestations[id], s'.attestations[id], now))
    && (forall id :: id in s'.attestations && id !in s.attestations ==>
          && s.nextId <= id < s'.nextId
          && s'.attestations[id].status == Pending && s'.attestations[id].challenger.None?)
  }

  /** What one call must keep: the invariant, the life cycle, and each account's reserve beyond what is owed. */
  ghost predicate Keeps(s: State, l: Ledger, t: Step, now: BlockNumber) {
    && Inv(t.s)
    && Evolves(s, t.s, now)
    && (forall who :: Owed(s, who) <= Reserved(l, who) ==>
          Reserved(t.l, who) - Owed(t.s, who) == Reserved(l, who) - Owed(s, who))
  }

  lemma EmptyInv()
    ensures Inv(Empty) && forall who :: Owed(Empty, who) == 0
  {
  }

  // ---- A new attestation.

  lemma StoredKeeps(c: Config, s: State, l: Ledger, l': Ledger, now: BlockNumber, who: AccountId, task: TaskId, hash: Hash,
                    model: Model, input: u64, output: u64)
    requires Inv(s) && s.nextId < U64_MAX && Reserve(l, who, c.deposit) == Ok(l')
    ensures Keeps(s, l, Step(Stored(c, s, now, who, task, hash, model, input, output), l', Ok(())), now)
  {
    var s' := Stored(c, s, now, who, task, hash, model, input, output);
    var a := s'.attestations[s.nextId];
    forall w, t
      ensures TaskCount(s', w, t) == Min(StoredFor(s', w, t), U32_MAX)
    {
      SumUpdate(s.attestations, s.nextId, a, ForPair(w, t));
      assert TaskCount(s, w, t) == Min(StoredFor(s, w, t), U32_MAX);
    }
    forall w
      ensures Reserved(l', w) - Owed(s', w) == Reserved(l, w) - Owed(s, w)
    {
      SumUpdate(s.attestations, s.nextId, a, PendingDeposit(w));
    }
  }

  lemma SubmitKeeps(c: Config, s: State, l: Ledger, now: BlockNumber, who: AccountId, task: TaskId, hash: Hash,
                    model: Model, input: u64, output: u64)
    requires Inv(s)
    ensures Keeps(s, l, SubmitAttestation(c, s, l, now, who, task, hash, model, input, output), now)
    ensures SubmitAttestation(c, s, l, now, who, task, hash, model, input, output).r.Ok? ==> StoredFor(s, who, task) == 0
  {
    assert TaskCount(s, who, task) == Min(StoredFor(s, who, task), U32_MAX);
    if SubmitAttestation(c, s, l, now, who, task, hash, model, input, output).r.Ok? {
      StoredKeeps(c, s, l, Reserve(l, who, c.deposit).value, now, who, task, hash, model, input, output);
    }
  }

  /** The table only grows: stored attestations and nodes stay as they are, and new attestations are pending under unused ids. */
  ghost predicate Extends(s: State, s': State) {
    && s.nextId <= s'.nextId && s'.nodes == s.nodes
    && (forall id :: id in s.attestations ==> id in s'.attestations && s'.attestations[id] == s.attestations[id])
    && (forall id :: id in s'.attestations && id !in s.attestations ==>
          && s.nextId <= id < s'.nextId
          && s'.attestations[id].status == Pending && s'.attestations[id].challenger.None?)
  }

  lemma IdTakenKeeps(s: State, l: Ledger, now: BlockNumber, e: Error)
    requires Inv(s) && s.nextId < U64_MAX
    ensures Keeps(s, l, Step(s.(nextId := s.nextId + 1), l, Err(e)), now)
  {
    var s' := s.(nextId := s.nextId + 1);
    assert forall w, k :: TaskCount(s', w, k) == TaskCount(s, w, k) && StoredFor(s', w, k) == StoredFor(s, w, k);
    assert forall w :: Owed(s', w) == Owed(s, w);
  }

  /** Even a failing completion handler leaves a legal state, and it never hands out an id twice. */
  lemma OnTaskCompletedKeeps(c: Config, s: State, l: Ledger, now: BlockNumber, who: AccountId, task: TaskId, hash: Hash,
                             model: Model, input: u64, output: u64)
    requires Inv(s)
    ensures Keeps(s, l, OnTaskCompleted(c, s, l, now, who, task, hash, model, input, output), now)
    ensures var t := OnTaskCompleted(c, s, l, now, who, task, hash, model, input, output);
            && Extends(s, t.s)
            && t.s.nextId == if s.nextId == U64_MAX then U64_MAX else s.nextId + 1
  {
    var t := OnTaskCompleted(c, s, l, now, who, task, hash, model, input, output);
    if t.r.Ok? {
      StoredKeeps(c, s, l, Reserve(l, who, c.deposit).value, now, who, task, hash, model, input, output);
    } else if s.nextId < U64_MAX {
      IdTakenKeeps(s, l, now, t.r.error);
    }
  }

  // ---- A stored attestation is updated in place.

  /** Changing status or challenger of one attestation leaves the counters alone and shifts one sum. */
  lemma UpdateSums(s: State, id: AttestationId, a': Attestation)
    requires id in s.attestations
    requires a'.attester == s.attestations[id].attester && a'.taskId == s.attestations[id].taskId
    ensures var s' := s.(attestations := s.attestations[id := a']);
            && (CountsExact(s) ==> CountsExact(s'))
            && (forall who :: Owed(s', who) + PendingDeposit(who)(id, s.attestations[id]) == Owed(s, who) + PendingDeposit(who)(id, a'))
            && (forall who :: PendingDeposit(who)(id, s.attestations[id]) <= Owed(s, who))
  {
    var s' := s.(attestations := s.attestations[id := a']);
    forall who
      ensures Owed(s', who) + PendingDeposit(who)(id, s.attestations[id]) == Owed(s, who) + PendingDeposit(who)(id, a')
      ensures PendingDeposit(who)(id, s.attestations[id]) <= Owed(s, who)
    {
      SumUpdate(s.attestations, id, a', PendingDeposit(who));
      SumAtLeast(s.attestations, id, PendingDeposit(who));
    }
    if CountsExact(s) {
      forall w, t
        ensures TaskCount(s', w, t) == Min(StoredFor(s', w, t), U32_MAX)
      {
        SumUpdate(s.attestations, id, a', ForPair(w, t));
        assert TaskCount(s, w, t) == Min(StoredFor(s, w, t), U32_MAX);
      }
    }
  }

  lemma ChallengeKeeps(s: State, l: Ledger, now: BlockNumber, who: AccountId, id: AttestationId)
    requires Inv(s)
    ensures Keeps(s, l, ChallengeAttestation(s, l, now, who, id), now)
  {
    if ChallengeAttestation(s, l, now, who, id).r.Ok? {
      UpdateSums(s, id, s.attestations[id].(challenger := Some(who)));
    }
  }

  /** A confirmation frees the whole deposit for the attester. */
  lemma ConfirmKeeps(s: State, l: Ledger, now: BlockNumber, id: AttestationId)
    requires Inv(s)
    ensures Keeps(s, l, ConfirmAttestation(s, l, now, id), now)
    ensures var t := ConfirmAttestation(s, l, now, id);
            t.r.Ok? ==>
              var a := s.attestations[id];
              && a.status == Pending && a.challenger.None? && a.challengeEnd < now
              && (Owed(s, a.attester) <= Reserved(l, a.attester) ==>
                    && Reserved(t.l, a.attester) == Reserved(l, a.attester) - a.deposit
                    && Free(t.l, a.attester) == SatAdd128(Free(l, a.attester), a.deposit))
  {
    if ConfirmAttestation(s, l, now, id).r.Ok? {
      UpdateSums(s, id, s.attestations[id].(status := Confirmed));
    }
  }

  /**
    A resolution gives back exactly what it does not slash: the attester's
    reserve falls by the whole deposit, and only the slashed part is lost.
  */
  lemma ResolveKeeps(c: Config, s: State, l: Ledger, now: BlockNumber, id: AttestationId, guilty: bool)
    requires Inv(s)
    ensures Keeps(s, l, ResolveChallenge(c, s, l, id, guilty), now)
    ensures var t := ResolveChallenge(c, s, l, id, guilty);
            t.r.Ok? ==>
              var a := s.attestations[id];
              var slashed := if guilty then SlashAmount(c, a.deposit) else 0;
              Owed(s, a.attester) <= Reserved(l, a.attester) ==>
                && Reserved(t.l, a.attester) == Reserved(l, a.attester) - a.deposit
                && Free(t.l, a.attester) == SatAdd128(Free(l, a.attester), a.deposit - slashed)
  {
    var t := ResolveChallenge(c, s, l, id, guilty);
    if t.r.Ok? {
      UpdateSums(s, id, t.s.attestations[id]);
      assert PendingDeposit(s.attestations[id].attester)(id, s.attestations[id]) == s.attestations[id].deposit;
    }
  }

  // ---- The model index and the nodes.

  lemma NodeUpdateKeeps(s: State, l: Ledger, now: BlockNumber, who: AccountId, n: Node)
    requires Inv(s) && n.isActive
    ensures Keeps(s, l, Step(s.(nodes := s.nodes[who := n]), l, Ok(())), now)
  {
    var s' := s.(nodes := s.nodes[who := n]);
    assert forall w, k :: TaskCount(s', w, k) == TaskCount(s, w, k) && StoredFor(s', w, k) == StoredFor(s, w, k);
    assert forall w :: Owed(s', w) == Owed(s, w);
  }

  lemma UpdateCapabilityKeeps(c: Config, s: State, l: Ledger, now: BlockNumber, who: AccountId, models: seq<Model>,
                              maxConcurrent: u32, price: Balance, region: seq<nat>)
    requires Inv(s)
    ensures Keeps(s, l, UpdateCapability(c, s, l, now, who, models, maxConcurrent, price, region), now)
  {
    var s' := UpdateCapability(c, s, l, now, who, models, maxConcurrent, price, region).s;
    assert forall w, k :: TaskCount(s', w, k) == TaskCount(s, w, k) && StoredFor(s', w, k) == StoredFor(s, w, k);
    assert forall w :: Owed(s', w) == Owed(s, w);
  }

  /** No code path ever deactivates a node, so the query returns exactly the accounts that list the model. */
  lemma ProvidersAreListers(s: State, model: Model)
    requires Inv(s)
    ensures forall who :: who in ProvidersForModel(s, model) <==>
                          who in s.capabilities && model in s.capabilities[who].models
  {
    forall who
      ensures who in ProvidersForModel(s, model) <==> who in s.capabilities && model in s.capabilities[who].models
    {
      assert (model, who) in s.providers <==> who in s.capabilities && model in s.capabilities[who].models;
      if (model, who) in s.providers {
        assert who in s.nodes && s.nodes[who].isActive;
      }
    }
  }

  // ---- Nodes.

  /** What a node registered with stays, and its heartbeat moves only to now, a full interval after the last one. */
  ghost predicate NodeMoves(c: Config, n: Node, n': Node, now: BlockNumber) {
    || n' == n
    || (n' == n.(lastHeartbeat := now, isActive := true) && SatAdd32(n.lastHeartbeat, c.heartbeatInterval) <= now)
  }

  /** Nodes stay, and a new one starts now. */
  ghost predicate NodesEvolve(c: Config, s: State, s': State, now: BlockNumber) {
    && (forall who :: who in s.nodes ==> who in s'.nodes && NodeMoves(c, s.nodes[who], s'.nodes[who], now))
    && (forall who :: who in s'.nodes && who !in s.nodes ==>
          s'.nodes[who].registeredAt == now && s'.nodes[who].lastHeartbeat == now && s'.nodes[who].isActive)
  }

  // ---- Any sequence of calls.

  datatype Call =
    | DoRegisterNode(who: AccountId, gpuUuid: seq<nat>, tflops: u32)
    | DoHeartbeat(who: AccountId)
    | DoSubmit(who: AccountId, task: TaskId, hash: Hash, model: Model, input: u64, output: u64)
    | DoChallenge(who: AccountId, id: AttestationId)
    | DoConfirm(id: AttestationId)
    | DoResolve(id: AttestationId, guilty: bool)
    | DoUpdateCapability(who: AccountId, models: seq<Model>, maxConcurrent: u32, price: Balance, region: seq<nat>)

  function Exec(c: Config, s: State, l: Ledger, now: BlockNumber, call: Call): Step {
    match call
    case DoRegisterNode(who, gpuUuid, tflops) => RegisterNode(c, s, l, now, who, gpuUuid, tflops)
    case DoHeartbeat(who) => Heartbeat(c, s, l, now, who)
    case DoSubmit(who, task, hash, model, input, output) => SubmitAttestation(c, s, l, now, who, task, hash, model, input, output)
    case DoChallenge(who, id) => ChallengeAttestation(s, l, now, who, id)
    case DoConfirm(id) => ConfirmAttestation(s, l, now, id)
    case DoResolve(id, guilty) => ResolveChallenge(c, s, l, id, guilty)
    case DoUpdateCapability(who, models, maxConcurrent, price, region) =>
      UpdateCapability(c, s, l, now, who, models, maxConcurrent, price, region)
  }

  /** Whatever is called, the invariant, the life cycle and every account's surplus survive. */
  lemma ExecKeeps(c: Config, s: State, l: Ledger, now: BlockNumber, call: Call)
    requires Inv(s)
    ensures Keeps(s, l, Exec(c, s, l, now, call), now)
  {
    match call
    case DoRegisterNode(who, gpuUuid, tflops) =>
      if RegisterNode(c, s, l, now, who, gpuUuid, tflops).r.Ok? {
        NodeUpdateKeeps(s, l, now, who, Node(gpuUuid, tflops, now, now, true));
      }
    case DoHeartbeat(who) =>
      if Heartbeat(c, s, l, now, who).r.Ok? {
        NodeUpdateKeeps(s, l, now, who, s.nodes[who].(lastHeartbeat := now, isActive := true));
      }
    case DoSubmit(who, task, hash, model, input, output) => SubmitKeeps(c, s, l, now, who, task, hash, model, input, output);
    case DoChallenge(who, id) => ChallengeKeeps(s, l, now, who, id);
    case DoConfirm(id) => ConfirmKeeps(s, l, now, id);
    case DoResolve(id, guilty) => ResolveKeeps(c, s, l, now, id, guilty);
    case DoUpdateCapability(who, models, maxConcurrent, price, region) =>
      UpdateCapabilityKeeps(c, s, l, now, who, models, maxConcurrent, price, region);
  }

  /** A heartbeat of `who` that was accepted. */
  predicate Beats(c: Config, s: State, l: Ledger, now: BlockNumber, call: Call, who: AccountId) {
    call == DoHeartbeat(who) && Exec(c, s, l, now, call).r.Ok?
  }

  /** A new node was registered by its own call, with what that call named, and a node that changed beat. */
  ghost predicate NodesAnswer(s: State, s': State, call: Call, now: BlockNumber) {
    && (forall who :: who in s'.nodes && who !in s.nodes ==>
          call.DoRegisterNode? && call.who == who && s'.nodes[who] == Node(call.gpuUuid, call.tflops, now, now, true))
    && (forall who :: who in s.nodes && who in s'.nodes && s'.nodes[who] != s.nodes[who] ==> call == DoHeartbeat(who))
  }

  lemma ExecAnswers(c: Config, s: State, l: Ledger, now: BlockNumber, call: Call)
    ensures NodesAnswer(s, Exec(c, s, l, now, call).s, call, now)
  {
  }

  lemma ExecNodes(c: Config, s: State, l: Ledger, now: BlockNumber, call: Call)
    ensures NodesEvolve(c, s, Exec(c, s, l, now, call).s, now)
    ensures forall who :: Beats(c, s, l, now, call, who) ==>
              who in s.nodes && SatAdd32(s.nodes[who].lastHeartbeat, c.heartbeatInterval) <= now
              && Exec(c, s, l, now, call).s.nodes[who].lastHeartbeat == now
  {
  }
}
