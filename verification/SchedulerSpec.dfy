/**
  Storage of the compute-pool scheduler and what each dispatchable, the block
  hook and their helpers do to it, to the native currency and to the
  attestation pallet, as functions on values.
*/
module SchedulerSpec {
  import opened Prelude
  import opened Currency
  import A = AttestationSpec

  type PoolId = u64
  type TaskId = u64

  datatype PoolStatus = Active | Inactive | Deregistered
  datatype TaskPriority = Low | Normal | High | Critical
  datatype TaskStatus = Pending | Assigned | Computing | ProofSubmitted | Verifying | Completed | Failed
  datatype Dimensions = Dimensions(m: u32, n: u32, k: u32)
  datatype PoolScore = PoolScore(reputation: u32, successRate: u32, price: u32, nvlink: u32, final: u32)

  datatype Pool = Pool(
    owner: AccountId,
    gpuMemory: u32,
    hasNvlink: bool,
    nvlinkEfficiency: u32,
    price: Balance,
    reputation: u32,
    successRate: u32,
    totalTasks: u32,
    completedTasks: u32,
    failedTasks: u32,
    status: PoolStatus,
    depositHeld: Balance,
    score: PoolScore)

  datatype Task = Task(
    user: AccountId,
    poolId: PoolId,
    dimensions: Dimensions,
    priority: TaskPriority,
    status: TaskStatus,
    submittedAt: BlockNumber,
    proofHash: Option<Hash>,
    verificationResult: Option<bool>,
    rewardAmount: Option<Balance>,
    disputed: bool)

  datatype Reputation = Reputation(reputation: u32, total: u32, successful: u32, failed: u32)

  datatype Escrow = Escrow(user: AccountId, poolOwner: AccountId, reward: Balance, deposit: Balance, claimed: bool)

  datatype Config = Config(
    poolDeposit: Balance,
    taskDeposit: Balance,
    failureSlash: Balance,
    taskTimeout: BlockNumber,
    verificationTimeout: BlockNumber,
    maxTasksPerPool: u32,
    initialReputation: u32,
    attestation: A.Config)

  datatype State = State(
    nextPoolId: PoolId,
    nextTaskId: TaskId,
    pools: map<PoolId, Pool>,
    poolByOwner: map<AccountId, PoolId>,
    tasks: map<TaskId, Task>,
    poolTasks: map<PoolId, seq<TaskId>>,
    activeCount: map<PoolId, u32>,
    minerReputation: map<AccountId, Reputation>,
    rewards: map<TaskId, Balance>,
    escrows: map<TaskId, Escrow>,
    poolStakes: map<(PoolId, AccountId), Balance>,
    totalPoolStake: map<PoolId, Balance>,
    proofSubmittedAt: map<TaskId, BlockNumber>)

  const Empty := State(0, 0, map[], map[], map[], map[], map[], map[], map[], map[], map[], map[], map[])

  /** What the scheduler shares with the rest of the runtime. */
  datatype World = World(ledger: Ledger, att: A.State, now: BlockNumber)

  datatype Error =
    | PoolAlreadyExists | PoolNotFound | NotPoolOwner | PoolInactive | InvalidNvlinkEfficiency
    | InvalidDimensions | TaskNotFound | NoAvailablePool | InvalidTaskState | NotTaskUser
    | NotAssignedPoolOwner | InvalidProof | RewardNotAvailable | RewardAlreadyClaimed | TaskExpired
    | DisputeNotAllowed | TooManyActiveTasks | ActiveTasksExist | InsufficientBalance | ArithmeticOverflow
    | StakeNotFound | DisputeAlreadyFiled | SelfVerificationNotAllowed | ProofNotSubmitted

  datatype Step = Step(s: State, w: World, r: Result<(), Error>)

  function Fail(s: State, w: World, e: Error): Step {
    Step(s, w, Err(e))
  }

  function Done(s: State, w: World): Step {
    Step(s, w, Ok(()))
  }

  /** A dispatchable that returns an error leaves storage as it was. */
  function Transactional(s: State, w: World, t: Step): Step {
    if t.r.Ok? then t else Fail(s, w, t.r.error)
  }

  function TasksOf(poolTasks: map<PoolId, seq<TaskId>>, p: PoolId): seq<TaskId> {
    if p in poolTasks then poolTasks[p] else []
  }

  function ActiveTasks(activeCount: map<PoolId, u32>, p: PoolId): u32 {
    if p in activeCount then activeCount[p] else 0
  }

  function ReputationOf(minerReputation: map<AccountId, Reputation>, who: AccountId): Reputation {
    if who in minerReputation then minerReputation[who] else Reputation(80, 0, 0, 0)
  }

  function StakeOf(s: State, p: PoolId, who: AccountId): Balance {
    if (p, who) in s.poolStakes then s.poolStakes[(p, who)] else 0
  }

  function TotalStake(s: State, p: PoolId): Balance {
    if p in s.totalPoolStake then s.totalPoolStake[p] else 0
  }

  predicate IsTerminal(status: TaskStatus) {
    status == Completed || status == Failed
  }

  // ---- Reward and score arithmetic.

  predicate NvlinkOk(hasNvlink: bool, efficiency: u32) {
    if hasNvlink then 120 <= efficiency <= 150 else efficiency == 100
  }

  function ComplexityFactor(d: Dimensions): nat {
    Max(1, Quotient(d.m * d.n * d.k, 1_000_000))
  }

  function CalculateReward(d: Dimensions, price: Balance, hasNvlink: bool, efficiency: u32): Result<Balance, Error> {
    if d.m * d.n > U128_MAX || d.m * d.n * d.k > U128_MAX then Err(ArithmeticOverflow)
    else
      var base := price * ComplexityFactor(d);
      if base > U128_MAX then Err(ArithmeticOverflow)
      else if !hasNvlink then Ok(base)
      else if base * efficiency > U128_MAX then Err(ArithmeticOverflow)
      else Ok(Quotient(base * efficiency, 100))
  }

  function PriceScore(price: Balance, lo: Balance, hi: Balance): u32 {
    if hi == lo then 100
    else if hi < lo then 0 // a zero spread: never asked for
    else SatSub(100, Quotient(SatMul128(SatSub(price, lo), 100), SatSub(hi, lo)))
  }

  function NvlinkScore(hasNvlink: bool, efficiency: u32): u32 {
    if hasNvlink then Quotient(SatMul32(Min(efficiency, 150), 100), 150) else 0
  }

  function CalculatePoolScore(pool: Pool, lo: Balance, hi: Balance): PoolScore {
    var reputation := SatMul32(Min(pool.reputation, 100), 40);
    var successRate := SatMul32(Min(pool.successRate, 100), 30);
    var price := SatMul32(PriceScore(pool.price, lo, hi), 20);
    var nvlink := SatMul32(NvlinkScore(pool.hasNvlink, pool.nvlinkEfficiency), 10);
    PoolScore(reputation, successRate, price, nvlink,
              SatAdd32(SatAdd32(SatAdd32(reputation, successRate), price), nvlink))
  }

  // ---- Pool selection over one iteration order of the pool table.

  const SCAN_LIMIT := 50

  function Scanned(order: seq<PoolId>): seq<PoolId> {
    if |order| <= SCAN_LIMIT then order else order[..SCAN_LIMIT]
  }

  predicate Eligible(c: Config, pools: map<PoolId, Pool>, active: map<PoolId, u32>, p: PoolId, k: u32) {
    && p in pools
    && pools[p].status == Active
    && ActiveTasks(active, p) < c.maxTasksPerPool
    && pools[p].gpuMemory >= k
  }

  function Candidates(c: Config, pools: map<PoolId, Pool>, active: map<PoolId, u32>, scanned: seq<PoolId>, k: u32): (r: seq<PoolId>)
    ensures forall p :: p in r <==> p in scanned && Eligible(c, pools, active, p, k)
  {
    if scanned == [] then []
    else
      var init := Candidates(c, pools, active, scanned[..|scanned| - 1], k);
      var p := scanned[|scanned| - 1];
      if Eligible(c, pools, active, p, k) then init + [p] else init
  }

  function LowestPrice(pools: map<PoolId, Pool>, ps: seq<PoolId>): Balance
    requires forall p :: p in ps ==> p in pools
  {
    if ps == [] then U128_MAX
    else
      var init := LowestPrice(pools, ps[..|ps| - 1]);
      var price := pools[ps[|ps| - 1]].price;
      if price < init then price else init
  }

  function HighestPrice(pools: map<PoolId, Pool>, ps: seq<PoolId>): Balance
    requires forall p :: p in ps ==> p in pools
  {
    if ps == [] then 0
    else
      var init := HighestPrice(pools, ps[..|ps| - 1]);
      var price := pools[ps[|ps| - 1]].price;
      if price > init then price else init
  }

  function BestOf(pools: map<PoolId, Pool>, ps: seq<PoolId>, lo: Balance, hi: Balance): Option<(PoolId, PoolScore)>
    requires forall p :: p in ps ==> p in pools
  {
    if ps == [] then None
    else
      var init := BestOf(pools, ps[..|ps| - 1], lo, hi);
      var p := ps[|ps| - 1];
      var score := CalculatePoolScore(pools[p], lo, hi);
      if init.Some? && init.value.1.final >= score.final then init else Some((p, score))
  }

  function SelectBestPool(c: Config, pools: map<PoolId, Pool>, active: map<PoolId, u32>, order: seq<PoolId>, k: u32)
    : Option<(PoolId, PoolScore)> {
    var candidates := Candidates(c, pools, active, Scanned(order), k);
    BestOf(pools, candidates, LowestPrice(pools, candidates), HighestPrice(pools, candidates))
  }

  function ChoosePool(c: Config, pools: map<PoolId, Pool>, active: map<PoolId, u32>, k: u32, preferred: Option<PoolId>, order: seq<PoolId>)
    : Result<(PoolId, PoolScore), Error> {
    match preferred
    case Some(p) =>
      if p !in pools then Err(PoolNotFound)
      else if pools[p].status != Active then Err(PoolInactive)
      else if ActiveTasks(active, p) >= c.maxTasksPerPool then Err(TooManyActiveTasks)
      else if pools[p].gpuMemory < k then Err(NoAvailablePool)
      else Ok((p, CalculatePoolScore(pools[p], pools[p].price, pools[p].price)))
    case None =>
      match SelectBestPool(c, pools, active, order, k)
      case Some(best) => Ok(best)
      case None => Err(NoAvailablePool)
  }

  // ---- Pools.

  /** The storage after a pool with these terms is entered under the next id. */
  function WithPool(c: Config, s: State, owner: AccountId, gpuMemory: u32, hasNvlink: bool, efficiency: u32,
                    price: Balance): State
    requires s.nextPoolId < U64_MAX
  {
    var p := s.nextPoolId;
    var reputation := Min(c.initialReputation, 100);
    s.(pools := s.pools[p := Pool(owner, gpuMemory, hasNvlink, efficiency, price, reputation, 100, 0, 0, 0,
                                  Active, c.poolDeposit, PoolScore(0, 0, 0, 0, 0))],
       poolByOwner := s.poolByOwner[owner := p],
       minerReputation := s.minerReputation[owner := Reputation(reputation, 0, 0, 0)],
       activeCount := s.activeCount[p := 0],
       nextPoolId := p + 1)
  }

  function RegisterPool(c: Config, s: State, w: World, owner: AccountId, gpuMemory: u32, hasNvlink: bool,
                        efficiency: u32, price: Balance): Step {
    if owner in s.poolByOwner then Fail(s, w, PoolAlreadyExists)
    else if gpuMemory == 0 then Fail(s, w, InvalidDimensions)
    else if price == 0 then Fail(s, w, InsufficientBalance)
    else if !NvlinkOk(hasNvlink, efficiency) then Fail(s, w, InvalidNvlinkEfficiency)
    else match Reserve(w.ledger, owner, c.poolDeposit)
      case Err(_) => Fail(s, w, InsufficientBalance)
      case Ok(ledger) =>
        if s.nextPoolId == U64_MAX then Fail(s, w, ArithmeticOverflow)
        else Done(WithPool(c, s, owner, gpuMemory, hasNvlink, efficiency, price), w.(ledger := ledger))
  }

  function UpdatePoolConfig(s: State, w: World, sender: AccountId, p: PoolId, gpuMemory: u32, hasNvlink: bool,
                            efficiency: u32, price: Balance): Step {
    if gpuMemory == 0 then Fail(s, w, InvalidDimensions)
    else if price == 0 then Fail(s, w, InsufficientBalance)
    else if !NvlinkOk(hasNvlink, efficiency) then Fail(s, w, InvalidNvlinkEfficiency)
    else if p !in s.pools then Fail(s, w, PoolNotFound)
    else if s.pools[p].owner != sender then Fail(s, w, NotPoolOwner)
    else if s.pools[p].status == Deregistered then Fail(s, w, PoolInactive)
    else Done(s.(pools := s.pools[p := s.pools[p].(gpuMemory := gpuMemory, hasNvlink := hasNvlink,
                                                   nvlinkEfficiency := efficiency, price := price)]), w)
  }

  function WithoutPool(s: State, p: PoolId, owner: AccountId): State {
    s.(pools := s.pools - {p},
       poolTasks := s.poolTasks - {p},
       activeCount := s.activeCount - {p},
       poolByOwner := s.poolByOwner - {owner})
  }

  function DeregisterPool(s: State, w: World, sender: AccountId, p: PoolId): Step {
    if p !in s.pools then Fail(s, w, PoolNotFound)
    else if s.pools[p].owner != sender then Fail(s, w, NotPoolOwner)
    else if ActiveTasks(s.activeCount, p) != 0 then Fail(s, w, ActiveTasksExist)
    else Done(WithoutPool(s, p, sender), w.(ledger := Unreserve(w.ledger, sender, s.pools[p].depositHeld).0))
  }

  // ---- Helpers shared by the paths that finish a task.

  /** `xs` without the entries equal to `x`, in order. */
  function Without(xs: seq<TaskId>, x: TaskId): seq<TaskId> {
    if xs == [] then []
    else if xs[0] == x then Without(xs[1..], x)
    else [xs[0]] + Without(xs[1..], x)
  }

  function DecrementActivity(s: State, p: PoolId, t: TaskId): State {
    s.(activeCount := s.activeCount[p := SatSub(ActiveTasks(s.activeCount, p), 1)],
       poolTasks := s.poolTasks[p := Without(TasksOf(s.poolTasks, p), t)])
  }

  function ReputedPool(pool: Pool, success: bool): Pool {
    var total := SatAdd32(pool.totalTasks, 1);
    var completed := if success then SatAdd32(pool.completedTasks, 1) else pool.completedTasks;
    var failed := if success then pool.failedTasks else SatAdd32(pool.failedTasks, 1);
    pool.(totalTasks := total,
          completedTasks := completed,
          failedTasks := failed,
          successRate := Min(Quotient(SatMul32(completed, 100), total), 100),
          reputation := if success then Min(SatAdd32(pool.reputation, 1), 100) else SatSub(pool.reputation, 2))
  }

  function ReputedMiner(rep: Reputation, success: bool): Reputation {
    if success then
      Reputation(Min(SatAdd32(rep.reputation, 1), 100), SatAdd32(rep.total, 1), SatAdd32(rep.successful, 1), rep.failed)
    else
      Reputation(SatSub(rep.reputation, 2), SatAdd32(rep.total, 1), rep.successful, SatAdd32(rep.failed, 1))
  }

  function UpdateReputation(s: State, p: PoolId, success: bool): State {
    if p !in s.pools then s
    else
      var owner := s.pools[p].owner;
      s.(pools := s.pools[p := ReputedPool(s.pools[p], success)],
         minerReputation := s.minerReputation[owner := ReputedMiner(ReputationOf(s.minerReputation, owner), success)])
  }

  function EscrowTotal(e: Escrow): Balance {
    SatAdd128(e.reward, e.deposit)
  }

  /** Pays the escrow back to the user; it does not look at `claimed`. */
  function ReleaseEscrow(s: State, w: World, t: TaskId): (State, World) {
    var s1 := s.(rewards := s.rewards - {t});
    if t !in s.escrows then (s1, w)
    else (s1.(escrows := s.escrows - {t}),
          w.(ledger := Unreserve(w.ledger, s.escrows[t].user, EscrowTotal(s.escrows[t])).0))
  }

  function SlashAmount(c: Config, held: Balance): Balance {
    if held > c.failureSlash then c.failureSlash else held
  }

  function SlashPool(c: Config, s: State, w: World, p: PoolId): Step {
    if p !in s.pools then Fail(s, w, PoolNotFound)
    else
      var pool := s.pools[p];
      if pool.depositHeld == 0 then Done(s, w)
      else
        var amount := SlashAmount(c, pool.depositHeld);
        var (ledger, unslashed) := SlashReserved(w.ledger, pool.owner, amount);
        var slashed := SatSub(amount, unslashed);
        Done(s.(pools := s.pools[p := pool.(depositHeld := SatSub(pool.depositHeld, slashed))]), w.(ledger := ledger))
  }

  /** The status, index, reputation and proof-time writes shared by both verdicts. */
  function Concluded(s: State, t: TaskId, p: PoolId, result: bool): State
    requires t in s.tasks
  {
    var s1 := s.(tasks := s.tasks[t := s.tasks[t].(verificationResult := Some(result),
                                                   status := if result then Completed else Failed)]);
    var s2 := UpdateReputation(DecrementActivity(s1, p, t), p, result);
    s2.(proofSubmittedAt := s2.proofSubmittedAt - {t})
  }

  function Offered(s: State, t: TaskId, reward: Option<Balance>): State {
    if reward.Some? then s.(rewards := s.rewards[t := reward.value]) else s
  }

  function NotifyCompletion(c: Config, w: World, owner: AccountId, t: TaskId, hash: Hash): World {
    var step := A.OnTaskCompleted(c.attestation, w.att, w.ledger, w.now, owner, t, hash, [], 0, 0);
    w.(att := step.s, ledger := step.l)
  }

  function FinalizeVerification(c: Config, s: State, w: World, t: TaskId, p: PoolId, result: bool): Step {
    if t !in s.tasks || s.tasks[t].proofHash.None? then Fail(s, w, ProofNotSubmitted)
    else
      var task := s.tasks[t];
      var s1 := Concluded(s, t, p, result);
      if result then
        var s2 := Offered(s1, t, task.rewardAmount);
        if task.poolId !in s2.pools then Fail(s2, w, PoolNotFound)
        else Done(s2, NotifyCompletion(c, w, s2.pools[task.poolId].owner, t, task.proofHash.value))
      else
        var (s2, w2) := ReleaseEscrow(s1, w, t);
        SlashPool(c, s2, w2, p)
  }

  function MarkTaskFailed(c: Config, s: State, w: World, t: TaskId): Step {
    if t !in s.tasks then Fail(s, w, TaskNotFound)
    else if IsTerminal(s.tasks[t].status) then Done(s, w)
    else
      var p := s.tasks[t].poolId;
      var (s2, w2) := ReleaseEscrow(Concluded(s, t, p, false), w, t);
      SlashPool(c, s2, w2, p)
  }

  // ---- Tasks.

  function WithTask(c: Config, s: State, now: BlockNumber, user: AccountId, d: Dimensions, priority: TaskPriority,
                    p: PoolId, score: PoolScore, reward: Balance): State
    requires p in s.pools && s.nextTaskId < U64_MAX
  {
    var t := s.nextTaskId;
    s.(pools := s.pools[p := s.pools[p].(score := score)],
       tasks := s.tasks[t := Task(user, p, d, priority, Computing, now, None, None, Some(reward), false)],
       poolTasks := s.poolTasks[p := TasksOf(s.poolTasks, p) + [t]],
       activeCount := s.activeCount[p := SatAdd32(ActiveTasks(s.activeCount, p), 1)],
       escrows := s.escrows[t := Escrow(user, s.pools[p].owner, reward, c.taskDeposit, false)],
       nextTaskId := t + 1)
  }

  /** A submission once its pool is chosen. */
  function Settled(c: Config, s: State, w: World, user: AccountId, d: Dimensions, priority: TaskPriority,
                   p: PoolId, score: PoolScore): Step {
    if p !in s.pools then Fail(s, w, PoolNotFound)
    else if ActiveTasks(s.activeCount, p) >= c.maxTasksPerPool then Fail(s, w, TooManyActiveTasks)
    else
      var pool := s.pools[p];
      match CalculateReward(d, pool.price, pool.hasNvlink, pool.nvlinkEfficiency)
      case Err(e) => Fail(s, w, e)
      case Ok(reward) =>
        match Reserve(w.ledger, user, SatAdd128(reward, c.taskDeposit))
        case Err(_) => Fail(s, w, InsufficientBalance)
        case Ok(ledger) =>
          if |TasksOf(s.poolTasks, p)| >= c.maxTasksPerPool then Fail(s, w, TooManyActiveTasks)
          else if s.nextTaskId == U64_MAX then Fail(s, w, ArithmeticOverflow)
          else Done(WithTask(c, s, w.now, user, d, priority, p, score, reward), w.(ledger := ledger))
  }

  function SubmitTask(c: Config, s: State, w: World, user: AccountId, d: Dimensions, priority: TaskPriority,
                      preferred: Option<PoolId>, order: seq<PoolId>): Step {
    if d.m == 0 || d.n == 0 || d.k == 0 then Fail(s, w, InvalidDimensions)
    else match ChoosePool(c, s.pools, s.activeCount, d.k, preferred, order)
      case Err(e) => Fail(s, w, e)
      case Ok(chosen) => Settled(c, s, w, user, d, priority, chosen.0, chosen.1)
  }

  function SubmitProof(c: Config, s: State, w: World, sender: AccountId, t: TaskId, hash: Hash): Step {
    if hash == 0 then Fail(s, w, InvalidProof)
    else if t !in s.tasks then Fail(s, w, TaskNotFound)
    else
      var task := s.tasks[t];
      if task.status != Computing then Fail(s, w, InvalidTaskState)
      else if task.poolId !in s.pools then Fail(s, w, PoolNotFound)
      else if s.pools[task.poolId].owner != sender then Fail(s, w, NotAssignedPoolOwner)
      else if w.now > SatAdd32(task.submittedAt, c.taskTimeout) then Fail(s, w, TaskExpired)
      else Done(s.(tasks := s.tasks[t := task.(proofHash := Some(hash), status := ProofSubmitted)],
                   proofSubmittedAt := s.proofSubmittedAt[t := w.now]), w)
  }

  function VerifyProof(c: Config, s: State, w: World, sender: AccountId, t: TaskId, result: bool): Step {
    if t !in s.tasks then Fail(s, w, TaskNotFound)
    else
      var task := s.tasks[t];
      if task.status != ProofSubmitted then Fail(s, w, InvalidTaskState)
      else if task.proofHash.None? then Fail(s, w, ProofNotSubmitted)
      else if task.poolId !in s.pools then Fail(s, w, PoolNotFound)
      else if s.pools[task.poolId].owner == sender then Fail(s, w, SelfVerificationNotAllowed)
      else Transactional(s, w, FinalizeVerification(c, s, w, t, task.poolId, result))
  }

  function ClaimReward(s: State, w: World, sender: AccountId, t: TaskId): Step {
    if t !in s.tasks then Fail(s, w, TaskNotFound)
    else
      var task := s.tasks[t];
      if task.status != Completed then Fail(s, w, InvalidTaskState)
      else if task.verificationResult != Some(true) then Fail(s, w, RewardNotAvailable)
      else if task.poolId !in s.pools then Fail(s, w, PoolNotFound)
      else if s.pools[task.poolId].owner != sender then Fail(s, w, NotAssignedPoolOwner)
      else if t !in s.rewards then Fail(s, w, RewardNotAvailable)
      else if t !in s.escrows then Fail(s, w, RewardNotAvailable)
      else if s.escrows[t].claimed then Fail(s, w, RewardAlreadyClaimed)
      else
        var escrow := s.escrows[t];
        match RepatriateReserved(w.ledger, escrow.user, sender, s.rewards[t])
        case Err(_) => Fail(s, w, InsufficientBalance)
        case Ok((ledger, remainder)) =>
          if remainder != 0 then Fail(s, w, InsufficientBalance)
          else Done(s.(escrows := s.escrows[t := escrow.(claimed := true)], rewards := s.rewards - {t}),
                    w.(ledger := Unreserve(ledger, escrow.user, escrow.deposit).0))
  }

  /** A dispute turns an approval into a failure. */
  function Revoke(c: Config, s: State, w: World, t: TaskId): Step
    requires t in s.tasks
  {
    var task := s.tasks[t];
    var s1 := s.(tasks := s.tasks[t := task.(status := Failed, verificationResult := Some(false), disputed := true)]);
    var (s2, w2) := ReleaseEscrow(UpdateReputation(s1, task.poolId, false), w, t);
    SlashPool(c, s2, w2, task.poolId)
  }

  /** A dispute turns a failure into an approval. */
  function Restore(s: State, t: TaskId): State
    requires t in s.tasks
  {
    var task := s.tasks[t];
    var s1 := s.(tasks := s.tasks[t := task.(status := Completed, verificationResult := Some(true), disputed := true)]);
    UpdateReputation(Offered(s1, t, task.rewardAmount), task.poolId, true)
  }

  function DisputeVerification(c: Config, s: State, w: World, sender: AccountId, t: TaskId): Step {
    if t !in s.tasks then Fail(s, w, TaskNotFound)
    else
      var task := s.tasks[t];
      if task.user != sender then Fail(s, w, NotTaskUser)
      else if !IsTerminal(task.status) then Fail(s, w, DisputeNotAllowed)
      else if task.disputed then Fail(s, w, DisputeAlreadyFiled)
      else if task.verificationResult == Some(true) then Transactional(s, w, Revoke(c, s, w, t))
      else if task.verificationResult == Some(false) then Done(Restore(s, t), w)
      else Fail(s, w, DisputeNotAllowed)
  }

  // ---- Stakes.

  function StakeToPool(s: State, w: World, who: AccountId, p: PoolId, amount: Balance): Step {
    if p !in s.pools then Fail(s, w, PoolNotFound)
    else match Reserve(w.ledger, who, amount)
      case Err(_) => Fail(s, w, InsufficientBalance)
      case Ok(ledger) =>
        Done(s.(poolStakes := s.poolStakes[(p, who) := SatAdd128(StakeOf(s, p, who), amount)],
                totalPoolStake := s.totalPoolStake[p := SatAdd128(TotalStake(s, p), amount)]),
             w.(ledger := ledger))
  }

  function UnstakeFromPool(s: State, w: World, who: AccountId, p: PoolId, amount: Balance): Step {
    if StakeOf(s, p, who) < amount then Fail(s, w, StakeNotFound)
    else Done(s.(poolStakes := s.poolStakes[(p, who) := SatSub(StakeOf(s, p, who), amount)],
                 totalPoolStake := s.totalPoolStake[p := SatSub(TotalStake(s, p), amount)]),
              w.(ledger := Unreserve(w.ledger, who, amount).0))
  }

  // ---- The block hook.

  /** A proof that nobody verified in time. */
  predicate ProofOverdue(c: Config, s: State, now: BlockNumber, t: TaskId) {
    && t in s.tasks && s.tasks[t].status == ProofSubmitted && t in s.proofSubmittedAt
    && now > SatAdd32(s.proofSubmittedAt[t], c.verificationTimeout)
  }

  /** An unfinished task past its deadline whose proof is not overdue. */
  predicate TaskOverdue(c: Config, s: State, now: BlockNumber, t: TaskId) {
    && t in s.tasks && !IsTerminal(s.tasks[t].status) && !ProofOverdue(c, s, now, t)
    && now > SatAdd32(s.tasks[t].submittedAt, c.taskTimeout)
  }

  function OverdueProofs(c: Config, s: State, now: BlockNumber, ts: seq<TaskId>): (r: seq<TaskId>)
    ensures forall t :: t in r <==> t in ts && ProofOverdue(c, s, now, t)
  {
    if ts == [] then []
    else
      var init := OverdueProofs(c, s, now, ts[..|ts| - 1]);
      var t := ts[|ts| - 1];
      if ProofOverdue(c, s, now, t) then init + [t] else init
  }

  function OverdueTasks(c: Config, s: State, now: BlockNumber, ts: seq<TaskId>): (r: seq<TaskId>)
    ensures forall t :: t in r <==> t in ts && TaskOverdue(c, s, now, t)
  {
    if ts == [] then []
    else
      var init := OverdueTasks(c, s, now, ts[..|ts| - 1]);
      var t := ts[|ts| - 1];
      if TaskOverdue(c, s, now, t) then init + [t] else init
  }

  /** The task lists of the given pools, one after the other. */
  function Listed(s: State, order: seq<PoolId>): seq<TaskId> {
    if order == [] then [] else Listed(s, order[..|order| - 1]) + TasksOf(s.poolTasks, order[|order| - 1])
  }

  /** Finalizes the given tasks as verified, ignoring errors and keeping partial writes. */
  function ApproveAll(c: Config, s: State, w: World, ts: seq<TaskId>): (State, World) {
    if ts == [] then (s, w)
    else
      var (s1, w1) := ApproveAll(c, s, w, ts[..|ts| - 1]);
      var t := ts[|ts| - 1];
      if t !in s1.tasks then (s1, w1)
      else
        var step := FinalizeVerification(c, s1, w1, t, s1.tasks[t].poolId, true);
        (step.s, step.w)
  }

  /** Fails the given tasks, ignoring errors and keeping partial writes. */
  function FailAll(c: Config, s: State, w: World, ts: seq<TaskId>): (State, World) {
    if ts == [] then (s, w)
    else
      var (s1, w1) := FailAll(c, s, w, ts[..|ts| - 1]);
      var step := MarkTaskFailed(c, s1, w1, ts[|ts| - 1]);
      (step.s, step.w)
  }

  /** `order` is the storage iteration order of `PoolTasks`. */
  function OnInitialize(c: Config, s: State, w: World, order: seq<PoolId>): (State, World) {
    var listed := Listed(s, order);
    var (s1, w1) := ApproveAll(c, s, w, OverdueProofs(c, s, w.now, listed));
    FailAll(c, s1, w1, OverdueTasks(c, s, w.now, listed))
  }

  // ---- One dispatch.

  datatype Call =
    | DoRegisterPool(who: AccountId, gpuMemory: u32, hasNvlink: bool, efficiency: u32, price: Balance)
    | DoUpdatePoolConfig(who: AccountId, pool: PoolId, gpuMemory: u32, hasNvlink: bool, efficiency: u32, price: Balance)
    | DoDeregisterPool(who: AccountId, pool: PoolId)
    | DoSubmitTask(who: AccountId, d: Dimensions, priority: TaskPriority, preferred: Option<PoolId>, order: seq<PoolId>)
    | DoSubmitProof(who: AccountId, task: TaskId, hash: Hash)
    | DoVerifyProof(who: AccountId, task: TaskId, result: bool)
    | DoClaimReward(who: AccountId, task: TaskId)
    | DoDispute(who: AccountId, task: TaskId)
    | DoStake(who: AccountId, pool: PoolId, amount: Balance)
    | DoUnstake(who: AccountId, pool: PoolId, amount: Balance)

  function Exec(c: Config, s: State, w: World, call: Call): Step {
    match call
    case DoRegisterPool(who, gpuMemory, hasNvlink, efficiency, price) =>
      RegisterPool(c, s, w, who, gpuMemory, hasNvlink, efficiency, price)
    case DoUpdatePoolConfig(who, pool, gpuMemory, hasNvlink, efficiency, price) =>
      UpdatePoolConfig(s, w, who, pool, gpuMemory, hasNvlink, efficiency, price)
    case DoDeregisterPool(who, pool) => DeregisterPool(s, w, who, pool)
    case DoSubmitTask(who, d, priority, preferred, order) => SubmitTask(c, s, w, who, d, priority, preferred, order)
    case DoSubmitProof(who, task, hash) => SubmitProof(c, s, w, who, task, hash)
    case DoVerifyProof(who, task, result) => VerifyProof(c, s, w, who, task, result)
    case DoClaimReward(who, task) => ClaimReward(s, w, who, task)
    case DoDispute(who, task) => DisputeVerification(c, s, w, who, task)
    case DoStake(who, pool, amount) => StakeToPool(s, w, who, pool, amount)
    case DoUnstake(who, pool, amount) => UnstakeFromPool(s, w, who, pool, amount)
  }
}
