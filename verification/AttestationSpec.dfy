/**
  Storage of the agent-attestation pallet and what each entry point does to
  it and to the native currency, as functions on values.
*/
module AttestationSpec {
  import opened Prelude
  import opened Perbill
  import opened Currency

  type AttestationId = u64
  type TaskId = u64
  type Model = seq<nat>

  datatype AttestationStatus = Pending | Confirmed | Slashed | Defended

  datatype Attestation = Attestation(
    attester: AccountId,
    taskId: TaskId,
    resultHash: Hash,
    modelId: Model,
    inputTokens: u64,
    outputTokens: u64,
    deposit: Balance,
    status: AttestationStatus,
    submittedAt: BlockNumber,
    challengeEnd: BlockNumber,
    challenger: Option<AccountId>)

  datatype Node = Node(gpuUuid: seq<nat>, tflops: u32, registeredAt: BlockNumber, lastHeartbeat: BlockNumber, isActive: bool)

  datatype Capability = Capability(
    models: seq<Model>,
    maxConcurrent: u32,
    pricePerToken: Balance,
    region: seq<nat>,
    updatedAt: BlockNumber)

  datatype Config = Config(
    deposit: Balance,
    challengeWindow: BlockNumber,
    slashPercent: u32,
    heartbeatInterval: BlockNumber,
    maxModelIdLen: nat,
    maxGpuUuidLen: nat,
    maxModelsPerAgent: nat)

  const MAX_REGION_LEN := 16

  datatype State = State(
    nextId: AttestationId,
    attestations: map<AttestationId, Attestation>,
    nodes: map<AccountId, Node>,
    taskCount: map<(AccountId, TaskId), u32>,
    capabilities: map<AccountId, Capability>,
    providers: set<(Model, AccountId)>)

  const Empty := State(0, map[], map[], map[], map[], {})

  datatype Error =
    | NodeAlreadyRegistered | NodeNotRegistered | HeartbeatTooEarly | AttestationNotFound
    | AlreadyChallenged | ChallengeWindowExpired | ChallengeWindowNotExpired | InvalidStatus
    | InsufficientDeposit | ArithmeticOverflow | InvalidModelId | TooManyModels | InvalidRegion
    | DuplicateAttestation

  /** Storage and currency after a call, and what the call returned. */
  datatype Step = Step(s: State, l: Ledger, r: Result<(), Error>)

  function Fail(s: State, l: Ledger, e: Error): Step {
    Step(s, l, Err(e))
  }

  function TaskCount(s: State, who: AccountId, task: TaskId): u32 {
    if (who, task) in s.taskCount then s.taskCount[(who, task)] else 0
  }

  function RegisterNode(c: Config, s: State, l: Ledger, now: BlockNumber, who: AccountId, gpuUuid: seq<nat>, tflops: u32): Step {
    if who in s.nodes then Fail(s, l, NodeAlreadyRegistered)
    else if |gpuUuid| > c.maxGpuUuidLen then Fail(s, l, ArithmeticOverflow)
    else Step(s.(nodes := s.nodes[who := Node(gpuUuid, tflops, now, now, true)]), l, Ok(()))
  }

  function Heartbeat(c: Config, s: State, l: Ledger, now: BlockNumber, who: AccountId): Step {
    if who !in s.nodes then Fail(s, l, NodeNotRegistered)
    else if now < SatAdd32(s.nodes[who].lastHeartbeat, c.heartbeatInterval) then Fail(s, l, HeartbeatTooEarly)
    else Step(s.(nodes := s.nodes[who := s.nodes[who].(lastHeartbeat := now, isActive := true)]), l, Ok(()))
  }

  /** A fresh pending attestation under the next id, counted for its attester and task. */
  function Stored(c: Config, s: State, now: BlockNumber, who: AccountId, task: TaskId, hash: Hash,
                  model: Model, input: u64, output: u64): State
    requires s.nextId < U64_MAX
  {
    s.(nextId := s.nextId + 1,
       attestations := s.attestations[s.nextId := Attestation(
                                        who, task, hash, model, input, output, c.deposit, Pending,
                                        now, SatAdd32(now, c.challengeWindow), None)],
       taskCount := s.taskCount[(who, task) := SatAdd32(TaskCount(s, who, task), 1)])
  }

  function SubmitAttestation(c: Config, s: State, l: Ledger, now: BlockNumber, who: AccountId, task: TaskId, hash: Hash,
                             model: Model, input: u64, output: u64): Step {
    if who !in s.nodes then Fail(s, l, NodeNotRegistered)
    else if TaskCount(s, who, task) != 0 then Fail(s, l, DuplicateAttestation)
    else match Reserve(l, who, c.deposit)
      case Err(_) => Fail(s, l, InsufficientDeposit)
      case Ok(l') =>
        if |model| > c.maxModelIdLen then Fail(s, l, ArithmeticOverflow)
        else if s.nextId == U64_MAX then Fail(s, l, ArithmeticOverflow)
        else Step(Stored(c, s, now, who, task, hash, model, input, output), l', Ok(()))
  }

  /**
    The completion handler called by the scheduler. It is not a dispatchable:
    when it fails after taking an id, that id stays taken.
  */
  function OnTaskCompleted(c: Config, s: State, l: Ledger, now: BlockNumber, who: AccountId, task: TaskId, hash: Hash,
                           model: Model, input: u64, output: u64): Step {
    if s.nextId == U64_MAX then Fail(s, l, ArithmeticOverflow)
    else
      var taken := s.(nextId := s.nextId + 1);
      if |model| > c.maxModelIdLen then Fail(taken, l, InvalidModelId)
      else match Reserve(l, who, c.deposit)
        case Err(_) => Fail(taken, l, InsufficientDeposit)
        case Ok(l') => Step(Stored(c, s, now, who, task, hash, model, input, output), l', Ok(()))
  }

  function ChallengeAttestation(s: State, l: Ledger, now: BlockNumber, who: AccountId, id: AttestationId): Step {
    if id !in s.attestations then Fail(s, l, AttestationNotFound)
    else
      var att := s.attestations[id];
      if att.status != Pending then Fail(s, l, InvalidStatus)
      else if att.challenger.Some? then Fail(s, l, AlreadyChallenged)
      else if now > att.challengeEnd then Fail(s, l, ChallengeWindowExpired)
      else Step(s.(attestations := s.attestations[id := att.(challenger := Some(who))]), l, Ok(()))
  }

  function ConfirmAttestation(s: State, l: Ledger, now: BlockNumber, id: AttestationId): Step {
    if id !in s.attestations then Fail(s, l, AttestationNotFound)
    else
      var att := s.attestations[id];
      if att.status != Pending then Fail(s, l, InvalidStatus)
      else if att.challenger.Some? then Fail(s, l, AlreadyChallenged)
      else if now <= att.challengeEnd then Fail(s, l, ChallengeWindowNotExpired)
      else Step(s.(attestations := s.attestations[id := att.(status := Confirmed)]),
                Unreserve(l, att.attester, att.deposit).0, Ok(()))
  }

  function SlashAmount(c: Config, deposit: Balance): (amount: Balance)
    ensures amount <= deposit
  {
    PartAtMostWhole(FromPercent(c.slashPercent), deposit);
    Part(FromPercent(c.slashPercent), deposit)
  }

  function ResolveChallenge(c: Config, s: State, l: Ledger, id: AttestationId, guilty: bool): Step {
    if id !in s.attestations then Fail(s, l, AttestationNotFound)
    else
      var att := s.attestations[id];
      if att.status != Pending || att.challenger.None? then Fail(s, l, InvalidStatus)
      else if guilty then
        var slash := SlashAmount(c, att.deposit);
        Step(s.(attestations := s.attestations[id := att.(status := Slashed)]),
             Unreserve(SlashReserved(l, att.attester, slash).0, att.attester, att.deposit - slash).0, Ok(()))
      else
        Step(s.(attestations := s.attestations[id := att.(status := Defended)]),
             Unreserve(l, att.attester, att.deposit).0, Ok(()))
  }

  function Listings(models: seq<Model>, who: AccountId): set<(Model, AccountId)> {
    set m | m in models :: (m, who)
  }

  function UpdateCapability(c: Config, s: State, l: Ledger, now: BlockNumber, who: AccountId, models: seq<Model>,
                            maxConcurrent: u32, price: Balance, region: seq<nat>): Step {
    if who !in s.nodes then Fail(s, l, NodeNotRegistered)
    else if exists m :: m in models && |m| > c.maxModelIdLen then Fail(s, l, InvalidModelId)
    else if |models| > c.maxModelsPerAgent then Fail(s, l, TooManyModels)
    else if |region| > MAX_REGION_LEN then Fail(s, l, InvalidRegion)
    else
      var stale := if who in s.capabilities then s.capabilities[who].models else [];
      Step(s.(providers := s.providers - Listings(stale, who) + Listings(models, who),
              capabilities := s.capabilities[who := Capability(models, maxConcurrent, price, region, now)]),
           l, Ok(()))
  }

  /** The accounts listed for a model whose node is active. */
  function ProvidersForModel(s: State, model: Model): set<AccountId> {
    set p | p in s.providers && p.0 == model && p.1 in s.nodes && s.nodes[p.1].isActive :: p.1
  }
}
