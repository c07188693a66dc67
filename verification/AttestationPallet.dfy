/**
  The agent-attestation pallet with its storage updated in place. Each entry
  point is proved to do to the storage and to the shared currency exactly
  what its function in AttestationSpec says.
*/
module AttestationPallet {
  import opened Prelude
  import opened Currency
  import opened AttestationSpec
  import AttestationProofs

  class Pallet {
    const config: Config
    const currency: Balances

    var nextId: AttestationId
    var attestations: map<AttestationId, Attestation>
    var nodes: map<AccountId, Node>
    var taskCount: map<(AccountId, TaskId), u32>
    var capabilities: map<AccountId, Capability>
    var providers: set<(Model, AccountId)>

    function Snapshot(): State
      reads this
    {
      State(nextId, attestations, nodes, taskCount, capabilities, providers)
    }

    /** Ids, verdicts, counters, model index and nodes agree. */
    ghost predicate Valid()
      reads this
    {
      AttestationProofs.Inv(Snapshot())
    }

    constructor (config: Config, currency: Balances)
      ensures Valid() && Snapshot() == Empty && this.config == config && this.currency == currency
    {
      this.config, this.currency := config, currency;
      nextId, attestations, nodes, taskCount, capabilities, providers := 0, map[], map[], map[], map[], {};
      AttestationProofs.EmptyInv();
    }

    /** Puts back the storage a failed dispatchable started from. */
    method Rollback(s: State)
      modifies this
      ensures Snapshot() == s
    {
      nextId, attestations, nodes, taskCount, capabilities, providers :=
        s.nextId, s.attestations, s.nodes, s.taskCount, s.capabilities, s.providers;
    }

    method RegisterNode(now: BlockNumber, who: AccountId, gpuUuid: seq<nat>, tflops: u32) returns (r: Result<(), Error>)
      modifies this
      ensures Step(Snapshot(), currency.Snapshot(), r) ==
              AttestationSpec.RegisterNode(config, old(Snapshot()), old(currency.Snapshot()), now, who, gpuUuid, tflops)
    {
      if who in nodes { return Err(NodeAlreadyRegistered); }
      if |gpuUuid| > config.maxGpuUuidLen { return Err(ArithmeticOverflow); }
      nodes := nodes[who := Node(gpuUuid, tflops, now, now, true)];
      return Ok(());
    }

    method Heartbeat(now: BlockNumber, who: AccountId) returns (r: Result<(), Error>)
      modifies this
      ensures Step(Snapshot(), currency.Snapshot(), r) ==
              AttestationSpec.Heartbeat(config, old(Snapshot()), old(currency.Snapshot()), now, who)
    {
      if who !in nodes { return Err(NodeNotRegistered); }
      var node := nodes[who];
      if now < SatAdd32(node.lastHeartbeat, config.heartbeatInterval) { return Err(HeartbeatTooEarly); }
      node := node.(lastHeartbeat := now);
      node := node.(isActive := true);
      nodes := nodes[who := node];
      return Ok(());
    }

    method SubmitAttestation(now: BlockNumber, who: AccountId, task: TaskId, hash: Hash, model: Model, input: u64, output: u64)
      returns (r: Result<(), Error>)
      modifies this, currency
      ensures Step(Snapshot(), currency.Snapshot(), r) ==
              AttestationSpec.SubmitAttestation(config, old(Snapshot()), old(currency.Snapshot()), now, who, task, hash, model, input, output)
    {
      var before := currency.Snapshot();
      if who !in nodes { return Err(NodeNotRegistered); }
      var count := if (who, task) in taskCount then taskCount[(who, task)] else 0;
      if count != 0 { return Err(DuplicateAttestation); }
      var reserved := currency.TryReserve(who, config.deposit);
      if !reserved { return Err(InsufficientDeposit); }
      if |model| > config.maxModelIdLen || nextId == U64_MAX {
        currency.Rollback(before);
        return Err(ArithmeticOverflow);
      }
      var id := nextId;
      nextId := nextId + 1;
      attestations := attestations[id := Attestation(who, task, hash, model, input, output, config.deposit, Pending,
                                                     now, SatAdd32(now, config.challengeWindow), None)];
      taskCount := taskCount[(who, task) := SatAdd32(count, 1)];
      return Ok(());
    }

    /** Not a dispatchable: what was written before an error stays written. */
    method OnTaskCompleted(now: BlockNumber, who: AccountId, task: TaskId, hash: Hash, model: Model, input: u64, output: u64)
      returns (r: Result<(), Error>)
      modifies this, currency
      ensures Step(Snapshot(), currency.Snapshot(), r) ==
              AttestationSpec.OnTaskCompleted(config, old(Snapshot()), old(currency.Snapshot()), now, who, task, hash, model, input, output)
    {
      if nextId == U64_MAX { return Err(ArithmeticOverflow); }
      var id := nextId;
      nextId := nextId + 1;
      if |model| > config.maxModelIdLen { return Err(InvalidModelId); }
      var reserved := currency.TryReserve(who, config.deposit);
      if !reserved { return Err(InsufficientDeposit); }
      attestations := attestations[id := Attestation(who, task, hash, model, input, output, config.deposit, Pending,
                                                     now, SatAdd32(now, config.challengeWindow), None)];
      var count := if (who, task) in taskCount then taskCount[(who, task)] else 0;
      taskCount := taskCount[(who, task) := SatAdd32(count, 1)];
      return Ok(());
    }

    method ChallengeAttestation(now: BlockNumber, who: AccountId, id: AttestationId) returns (r: Result<(), Error>)
      modifies this
      ensures Step(Snapshot(), currency.Snapshot(), r) ==
              AttestationSpec.ChallengeAttestation(old(Snapshot()), old(currency.Snapshot()), now, who, id)
    {
      if id !in attestations { return Err(AttestationNotFound); }
      var att := attestations[id];
      if att.status != Pending { return Err(InvalidStatus); }
      if att.challenger.Some? { return Err(AlreadyChallenged); }
      if now > att.challengeEnd { return Err(ChallengeWindowExpired); }
      attestations := attestations[id := att.(challenger := Some(who))];
      return Ok(());
    }

    method ConfirmAttestation(now: BlockNumber, id: AttestationId) returns (r: Result<(), Error>)
      modifies this, currency
      ensures Step(Snapshot(), currency.Snapshot(), r) ==
              AttestationSpec.ConfirmAttestation(old(Snapshot()), old(currency.Snapshot()), now, id)
    {
      if id !in attestations { return Err(AttestationNotFound); }
      var att := attestations[id];
      if att.status != Pending { return Err(InvalidStatus); }
      if att.challenger.Some? { return Err(AlreadyChallenged); }
      if now <= att.challengeEnd { return Err(ChallengeWindowNotExpired); }
      attestations := attestations[id := att.(status := Confirmed)];
      currency.DoUnreserve(att.attester, att.deposit);
      return Ok(());
    }

    method ResolveChallenge(id: AttestationId, guilty: bool) returns (r: Result<(), Error>)
      modifies this, currency
      ensures Step(Snapshot(), currency.Snapshot(), r) ==
              AttestationSpec.ResolveChallenge(config, old(Snapshot()), old(currency.Snapshot()), id, guilty)
    {
      if id !in attestations { return Err(AttestationNotFound); }
      var att := attestations[id];
      if att.status != Pending || att.challenger.None? { return Err(InvalidStatus); }
      if guilty {
        var slash := SlashAmount(config, att.deposit);
        var _ := currency.DoSlashReserved(att.attester, slash);
        currency.DoUnreserve(att.attester, SatSub(att.deposit, slash));
        attestations := attestations[id := att.(status := Slashed)];
      } else {
        currency.DoUnreserve(att.attester, att.deposit);
        attestations := attestations[id := att.(status := Defended)];
      }
      return Ok(());
    }

    method UpdateCapability(now: BlockNumber, who: AccountId, models: seq<Model>, maxConcurrent: u32, price: Balance, region: seq<nat>)
      returns (r: Result<(), Error>)
      modifies this
      ensures Step(Snapshot(), currency.Snapshot(), r) ==
              AttestationSpec.UpdateCapability(config, old(Snapshot()), old(currency.Snapshot()), now, who, models, maxConcurrent, price, region)
    {
      if who !in nodes { return Err(NodeNotRegistered); }
      for i := 0 to |models|
        invariant forall j :: 0 <= j < i ==> |models[j]| <= config.maxModelIdLen
      {
        if |models[i]| > config.maxModelIdLen { return Err(InvalidModelId); }
      }
      if |models| > config.maxModelsPerAgent { return Err(TooManyModels); }
      if |region| > MAX_REGION_LEN { return Err(InvalidRegion); }
      if who in capabilities {
        var stale := capabilities[who].models;
        for i := 0 to |stale|
          modifies `providers
          invariant providers == old(providers) - Listings(stale[..i], who)
        {
          assert Listings(stale[..i + 1], who) == Listings(stale[..i], who) + {(stale[i], who)};
          providers := providers - {(stale[i], who)};
        }
        assert stale[..|stale|] == stale;
      } else {
        assert Listings([], who) == {};
      }
      ghost var cleared := providers;
      for i := 0 to |models|
        modifies `providers
        invariant providers == cleared + Listings(models[..i], who)
      {
        assert Listings(models[..i + 1], who) == Listings(models[..i], who) + {(models[i], who)};
        providers := providers + {(models[i], who)};
      }
      assert models[..|models|] == models;
      capabilities := capabilities[who := Capability(models, maxConcurrent, price, region, now)];
      return Ok(());
    }

    /** One call from outside: it keeps storage in agreement, moves attestations legally and keeps every surplus of the reserve. */
    method Dispatch(now: BlockNumber, call: AttestationProofs.Call) returns (r: Result<(), Error>)
      requires Valid()
      modifies this, currency
      ensures Step(Snapshot(), currency.Snapshot(), r) ==
              AttestationProofs.Exec(config, old(Snapshot()), old(currency.Snapshot()), now, call)
      ensures Valid()
      ensures AttestationProofs.Keeps(old(Snapshot()), old(currency.Snapshot()), Step(Snapshot(), currency.Snapshot(), r), now)
    {
      AttestationProofs.ExecKeeps(config, Snapshot(), currency.Snapshot(), now, call);
      match call
      case DoRegisterNode(who, gpuUuid, tflops) => r := RegisterNode(now, who, gpuUuid, tflops);
      case DoHeartbeat(who) => r := Heartbeat(now, who);
      case DoSubmit(who, task, hash, model, input, output) => r := SubmitAttestation(now, who, task, hash, model, input, output);
      case DoChallenge(who, id) => r := ChallengeAttestation(now, who, id);
      case DoConfirm(id) => r := ConfirmAttestation(now, id);
      case DoResolve(id, guilty) => r := ResolveChallenge(id, guilty);
      case DoUpdateCapability(who, models, maxConcurrent, price, region) =>
        r := UpdateCapability(now, who, models, maxConcurrent, price, region);
    }
  }
}
