/**
  One asset of the assets pallet: its record, holders, approvals and time
  locks, and what each dispatchable does to them, as functions on values.
  Storage of different asset ids never meets, so one id is the whole model.
*/
module AssetsSpec {
  import opened Prelude

  datatype AssetStatus = Live | Frozen | Destroying
  datatype AccountStatus = Liquid | Halted | Blocked
  datatype Reason =
    | Consumer
    | Sufficient
    | DepositHeld(deposit: Balance)
    | DepositRefunded
    | DepositFrom(depositor: AccountId, deposit: Balance)

  datatype Details = Details(
    owner: AccountId,
    issuer: AccountId,
    admin: AccountId,
    freezer: AccountId,
    supply: Balance,
    deposit: Balance,
    minBalance: Balance,
    isSufficient: bool,
    accounts: u32,
    sufficients: u32,
    approvals: u32,
    status: AssetStatus)

  datatype Account = Account(balance: Balance, status: AccountStatus, reason: Reason)
  datatype Approval = Approval(amount: Balance, deposit: Balance)
  datatype Lock = Lock(from: AccountId, balance: Balance, unlockTime: BlockNumber)

  type Accounts = map<AccountId, Account>
  type Approvals = map<(AccountId, AccountId), Approval>
  type LockMap = map<u32, Lock>
  type Locks = map<AccountId, LockMap>
  type Cache = map<AccountId, Balance>

  datatype State = State(details: Option<Details>, accounts: Accounts, approvals: Approvals, locks: Locks, locked: Cache)

  const Empty := State(None, map[], map[], map[], map[])

  datatype Config = Config(
    minLockAmount: Balance,
    maxLockDuration: BlockNumber,
    accountDeposit: Balance,
    approvalDeposit: Balance,
    assetDeposit: Balance,
    removeLimit: u32)

  const LOCK_LIMIT: u32 := 1000

  /**
    What the rest of the runtime answers during one call: the block number, the
    accounts that can take two more consumer references, the balances another
    pallet froze, whether a native reserve goes through and whether the
    creation and destruction callbacks agree.
  */
  datatype Env = Env(now: BlockNumber, consumers: set<AccountId>, frozen: map<AccountId, Balance>, reserveOk: bool, callbackOk: bool)

  datatype Error =
    | BalanceLow | NoAccount | NoPermission | Unknown | IsFrozen | InUse | MinBalanceZero | UnavailableConsumer
    | Unapproved | AlreadyExists | NoDeposit | WouldBurn | LiveAsset | AssetNotLive | IncorrectStatus | NotFrozen
    | CallbackFailed | TooManyLocks | TimeNowAllowed | LockAmountTooSmall | LockDurationTooLong
    | Token(TokenError) | Overflow | Underflow | ReserveFailed

  datatype TokenError = FundsUnavailable | OnlyProvider | BelowMinimum | CannotCreate | UnknownAsset | TokenFrozen | NotExpendable | TokenBlocked

  datatype DebitFlags = DebitFlags(keepAlive: bool, bestEffort: bool)
  datatype TransferFlags = TransferFlags(keepAlive: bool, bestEffort: bool, burnDust: bool)

  function Debits(f: TransferFlags): DebitFlags {
    DebitFlags(f.keepAlive, f.bestEffort)
  }

  /** The result carries what the source computes along the way: a credit, a burnt amount, or the number of entries removed. */
  datatype Step = Step(s: State, r: Result<nat, Error>)

  function Fail(s: State, e: Error): Step {
    Step(s, Err(e))
  }

  function Done(s: State, n: nat): Step {
    Step(s, Ok(n))
  }

  // ---- Queries.

  predicate IsHalted(status: AccountStatus) {
    status == Halted || status == Blocked
  }

  /** Why a deposit cannot be made, if it cannot. */
  function CanIncrease(e: Env, details: Option<Details>, accounts: Accounts, who: AccountId, amount: Balance, increaseSupply: bool)
    : Result<(), Error> {
    if details.None? then Err(Token(UnknownAsset))
    else
      var d := details.value;
      if increaseSupply && d.supply + amount > U128_MAX then Err(Overflow)
      else if who in accounts then
        if accounts[who].status == Blocked then Err(Token(TokenBlocked))
        else if accounts[who].balance + amount > U128_MAX then Err(Overflow)
        else Ok(())
      else if amount < d.minBalance then Err(Token(BelowMinimum))
      else if !d.isSufficient && who !in e.consumers then Err(Token(CannotCreate))
      else if d.isSufficient && d.sufficients == U32_MAX then Err(Overflow)
      else Ok(())
  }

  datatype WithdrawConsequence =
    | LowBalance | WouldDie | NoSuchAsset | SupplyUnderflow | FreezeOverflow | Stuck | ReducedToZero(rest: Balance) | Success

  function CanDecrease(e: Env, details: Option<Details>, accounts: Accounts, who: AccountId, amount: Balance, keepAlive: bool)
    : WithdrawConsequence {
    if details.None? then NoSuchAsset
    else
      var d := details.value;
      if d.supply < amount then SupplyUnderflow
      else if d.status == Frozen then Stuck
      else if amount == 0 then Success
      else if who !in accounts then LowBalance
      else if IsHalted(accounts[who].status) then Stuck
      else if accounts[who].balance < amount then LowBalance
      else
        var rest := accounts[who].balance - amount;
        if who in e.frozen && e.frozen[who] + d.minBalance > U128_MAX then FreezeOverflow
        else if who in e.frozen && rest < e.frozen[who] + d.minBalance then Stuck
        else if rest < d.minBalance then (if keepAlive then WouldDie else ReducedToZero(rest))
        else Success
  }

  /** The dust that goes with a withdrawal, or why it is refused. */
  function WithdrawResult(conseq: WithdrawConsequence, keepAlive: bool): Result<Balance, Error> {
    match conseq
    case LowBalance => Err(Token(FundsUnavailable))
    case WouldDie => Err(Token(OnlyProvider))
    case NoSuchAsset => Err(Token(UnknownAsset))
    case SupplyUnderflow => Err(Underflow)
    case FreezeOverflow => Err(Overflow)
    case Stuck => Err(Token(TokenFrozen))
    case ReducedToZero(rest) => if keepAlive then Err(Token(NotExpendable)) else Ok(rest)
    case Success => Ok(0)
  }

  function ReducibleBalance(e: Env, details: Option<Details>, accounts: Accounts, who: AccountId, keepAlive: bool)
    : Result<Balance, Error> {
    if details.None? then Err(Unknown)
    else
      var d := details.value;
      if d.status != Live then Err(AssetNotLive)
      else if who !in accounts then Err(NoAccount)
      else if IsHalted(accounts[who].status) then Err(IsFrozen)
      else if who in e.frozen && e.frozen[who] + d.minBalance > U128_MAX then Err(Overflow)
      else
        var amount := if who in e.frozen then SatSub(accounts[who].balance, e.frozen[who] + d.minBalance)
                      else if keepAlive then SatSub(accounts[who].balance, d.minBalance)
                      else accounts[who].balance;
        Ok(Min(amount, d.supply))
  }

  function PrepDebit(e: Env, details: Option<Details>, accounts: Accounts, who: AccountId, amount: Balance, f: DebitFlags)
    : (r: Result<Balance, Error>)
    ensures r.Ok? ==> details.Some? && who in accounts
  {
    match ReducibleBalance(e, details, accounts, who, f.keepAlive)
    case Err(x) => Err(x)
    case Ok(reducible) =>
      var actual := Min(reducible, amount);
      if !f.bestEffort && actual < amount then Err(BalanceLow)
      else match WithdrawResult(CanDecrease(e, details, accounts, who, actual, f.keepAlive), f.keepAlive)
        case Err(x) => Err(x)
        case Ok(dust) => Ok(SatAdd128(actual, dust))
  }

  /** What the destination is credited with, and the dust to burn. */
  function PrepCredit(e: Env, details: Option<Details>, accounts: Accounts, dest: AccountId, amount: Balance, debit: Balance, burnDust: bool)
    : Result<(Balance, Balance), Error> {
    var (credit, burn) := if burnDust && amount <= debit then (amount, debit - amount) else (debit, 0);
    match CanIncrease(e, details, accounts, dest, credit, false)
    case Err(x) => Err(x)
    case Ok(_) => Ok((credit, burn))
  }

  // ---- Holders.

  /** A new holder never finds the counter of sufficient holders full. */
  predicate HasRoom(d: Details, accounts: Accounts, who: AccountId) {
    who in accounts || !d.isSufficient || d.sufficients < U32_MAX
  }

  function NewAccount(e: Env, d: Details, who: AccountId, deposit: Option<(AccountId, Balance)>): Result<(Details, Reason), Error>
    requires deposit.Some? || !d.isSufficient || d.sufficients < U32_MAX
  {
    if d.accounts == U32_MAX then Err(Overflow)
    else if deposit.Some? then
      var (depositor, amount) := deposit.value;
      Ok((d.(accounts := d.accounts + 1), if depositor == who then DepositHeld(amount) else DepositFrom(depositor, amount)))
    else if d.isSufficient then Ok((d.(accounts := d.accounts + 1, sufficients := d.sufficients + 1), Sufficient))
    else if who !in e.consumers then Err(UnavailableConsumer)
    else Ok((d.(accounts := d.accounts + 1), Consumer))
  }

  /** Whether a holder without a balance goes away, and the record after that. */
  function DeadAccount(d: Details, reason: Reason, force: bool): (Details, bool) {
    if (reason.DepositHeld? || reason.DepositFrom?) && !force then (d, false)
    else
      var sufficients := if reason.Sufficient? then SatSub(d.sufficients, 1) else d.sufficients;
      (d.(sufficients := sufficients, accounts := SatSub(d.accounts, 1)), true)
  }

  function Credit(e: Env, d: Details, accounts: Accounts, who: AccountId, amount: Balance): Result<(Details, Accounts), Error>
    requires HasRoom(d, accounts, who)
  {
    if who in accounts then
      Ok((d, accounts[who := accounts[who].(balance := SatAdd128(accounts[who].balance, amount))]))
    else match NewAccount(e, d, who, None)
      case Err(x) => Err(x)
      case Ok((d1, reason)) => Ok((d1, accounts[who := Account(amount, Liquid, reason)]))
  }

  function Debit(d: Details, accounts: Accounts, who: AccountId, amount: Balance): (Details, Accounts)
    requires who in accounts
  {
    var account := accounts[who].(balance := SatSub(accounts[who].balance, amount));
    if account.balance >= d.minBalance then (d, accounts[who := account])
    else
      var (d1, removed) := DeadAccount(d, account.reason, false);
      (d1, if removed then accounts - {who} else accounts[who := account])
  }

  // ---- Supply.

  function Mint(e: Env, s: State, beneficiary: AccountId, amount: Balance, checkIssuer: Option<AccountId>): Step {
    if amount == 0 then Done(s, 0)
    else match CanIncrease(e, s.details, s.accounts, beneficiary, amount, true)
      case Err(x) => Fail(s, x)
      case Ok(_) =>
        var d := s.details.value;
        if d.status != Live then Fail(s, AssetNotLive)
        else if checkIssuer.Some? && checkIssuer.value != d.issuer then Fail(s, NoPermission)
        else match Credit(e, d.(supply := SatAdd128(d.supply, amount)), s.accounts, beneficiary, amount)
          case Err(x) => Fail(s, x)
          case Ok((d1, accounts1)) => Done(s.(details := Some(d1), accounts := accounts1), amount)
  }

  function Burn(e: Env, s: State, target: AccountId, amount: Balance, checkAdmin: Option<AccountId>, f: DebitFlags): Step {
    if s.details.None? then Fail(s, Unknown)
    else if s.details.value.status == Destroying then Fail(s, AssetNotLive)
    else if amount == 0 then Done(s, 0)
    else if s.details.value.status != Live then Fail(s, AssetNotLive)
    else match PrepDebit(e, s.details, s.accounts, target, amount, f)
      case Err(x) => Fail(s, x)
      case Ok(actual) =>
        var d := s.details.value;
        if checkAdmin.Some? && checkAdmin.value != d.admin then Fail(s, NoPermission)
        else
          var (d1, accounts1) := Debit(d.(supply := SatSub(d.supply, actual)), s.accounts, target, actual);
          Done(s.(details := Some(d1), accounts := accounts1), actual)
  }

  // ---- Transfers.

  datatype Prepared = Prepared(debit: Balance, credit: Balance, burn: Balance)

  function PrepTransfer(e: Env, details: Option<Details>, accounts: Accounts, source: AccountId, dest: AccountId, amount: Balance, f: TransferFlags)
    : (r: Result<Prepared, Error>)
    ensures r.Ok? ==> details.Some? && source in accounts && HasRoom(details.value, accounts, dest)
  {
    match PrepDebit(e, details, accounts, source, amount, Debits(f))
    case Err(x) => Err(x)
    case Ok(debit) =>
      match PrepCredit(e, details, accounts, dest, amount, debit, f.burnDust)
      case Err(x) => Err(x)
      case Ok((credit, burn)) => Ok(Prepared(debit, credit, burn))
  }

  /** Burns the dust, credits the destination and debits the source, which is another account. */
  function Moved(e: Env, d: Details, accounts: Accounts, source: AccountId, dest: AccountId, p: Prepared): Result<(Details, Accounts), Error>
    requires source in accounts && HasRoom(d, accounts, dest)
  {
    match Credit(e, d.(supply := SatSub(d.supply, p.burn)), accounts, dest, p.credit)
    case Err(x) => Err(x)
    case Ok((d1, accounts1)) => Ok(Debit(d1, accounts1, source, p.debit))
  }

  function Transfer(e: Env, s: State, source: AccountId, dest: AccountId, amount: Balance, needAdmin: Option<AccountId>, f: TransferFlags): Step {
    if amount == 0 then Done(s, 0)
    else if s.details.None? then Fail(s, Unknown)
    else if s.details.value.status != Live then Fail(s, AssetNotLive)
    else match PrepTransfer(e, s.details, s.accounts, source, dest, amount, f)
      case Err(x) => Fail(s, x)
      case Ok(p) =>
        if needAdmin.Some? && needAdmin.value != s.details.value.admin then Fail(s, NoPermission)
        else if source == dest then Done(s, p.credit)
        else match Moved(e, s.details.value, s.accounts, source, dest, p)
          case Err(x) => Fail(s, x)
          case Ok((d1, accounts1)) => Done(s.(details := Some(d1), accounts := accounts1), p.credit)
  }

  // ---- Locks.

  function LocksOf(locks: Locks, who: AccountId): LockMap {
    if who in locks then locks[who] else map[]
  }

  function LockedOf(locked: Cache, who: AccountId): Balance {
    if who in locked then locked[who] else 0
  }

  /** The first id from `i` on, below the limit, that is not taken. */
  function FirstFree(m: LockMap, i: u32): Option<u32>
    requires i <= LOCK_LIMIT
    decreases LOCK_LIMIT - i
  {
    if i == LOCK_LIMIT then None else if i !in m then Some(i) else FirstFree(m, i + 1)
  }

  function NewLockId(locks: Locks, who: AccountId): Option<u32> {
    if who !in locks then Some(0) else FirstFree(locks[who], 0)
  }

  function AddLock(locks: Locks, locked: Cache, dest: AccountId, lock: Lock): Result<(Locks, Cache), Error> {
    var id := NewLockId(locks, dest);
    if id.None? then Err(TooManyLocks)
    else if |LocksOf(locks, dest)| >= LOCK_LIMIT && id.value !in LocksOf(locks, dest) then Err(TooManyLocks)
    else Ok((locks[dest := LocksOf(locks, dest)[id.value := lock]],
             locked[dest := SatAdd128(LockedOf(locked, dest), lock.balance)]))
  }

  function DropLock(locks: Locks, locked: Cache, who: AccountId, id: u32): (Locks, Cache)
    requires id in LocksOf(locks, who)
  {
    var rest := LocksOf(locks, who) - {id};
    if rest == map[] then (locks - {who}, locked - {who})
    else (locks[who := rest], locked[who := SatSub(LockedOf(locked, who), LocksOf(locks, who)[id].balance)])
  }

  /** Burns the dust and debits the source; the credit is parked in a lock. */
  function Parked(d: Details, accounts: Accounts, source: AccountId, p: Prepared): (Details, Accounts)
    requires source in accounts
  {
    Debit(d.(supply := SatSub(d.supply, p.burn)), accounts, source, p.debit)
  }

  function TransferLocked(c: Config, e: Env, s: State, source: AccountId, dest: AccountId, amount: Balance, duration: BlockNumber,
                          needAdmin: Option<AccountId>, f: TransferFlags): Step {
    if amount == 0 then Done(s, 0)
    else if s.details.None? then Fail(s, Unknown)
    else if s.details.value.status != Live then Fail(s, AssetNotLive)
    else if amount < c.minLockAmount then Fail(s, LockAmountTooSmall)
    else match PrepTransfer(e, s.details, s.accounts, source, dest, amount, f)
      case Err(x) => Fail(s, x)
      case Ok(p) =>
        if needAdmin.Some? && needAdmin.value != s.details.value.admin then Fail(s, NoPermission)
        else if source == dest then Done(s, p.credit)
        else match AddLock(s.locks, s.locked, dest, Lock(source, p.credit, SatAdd32(duration, e.now)))
          case Err(x) => Fail(s, x)
          case Ok((locks1, locked1)) =>
            var (d1, accounts1) := Parked(s.details.value, s.accounts, source, p);
            Done(s.(details := Some(d1), accounts := accounts1, locks := locks1, locked := locked1), p.credit)
  }

  function TransferAndLock(c: Config, e: Env, s: State, source: AccountId, dest: AccountId, amount: Balance, duration: BlockNumber, keepAlive: bool): Step {
    if duration > c.maxLockDuration then Fail(s, LockDurationTooLong)
    else TransferLocked(c, e, s, source, dest, amount, duration, None, TransferFlags(keepAlive, false, false))
  }

  function Unlock(e: Env, s: State, who: AccountId, id: u32): Step {
    if s.details.None? then Fail(s, Unknown)
    else if s.details.value.status != Live then Fail(s, AssetNotLive)
    else if id !in LocksOf(s.locks, who) then Fail(s, Unknown)
    else
      var lock := LocksOf(s.locks, who)[id];
      if e.now < lock.unlockTime then Fail(s, TimeNowAllowed)
      else match CanIncrease(e, s.details, s.accounts, who, lock.balance, true)
        case Err(x) => Fail(s, x)
        case Ok(_) =>
          match Credit(e, s.details.value, s.accounts, who, lock.balance)
          case Err(x) => Fail(s, x)
          case Ok((d1, accounts1)) =>
            var (locks1, locked1) := DropLock(s.locks, s.locked, who, id);
            Done(s.(details := Some(d1), accounts := accounts1, locks := locks1, locked := locked1), lock.balance)
  }

  function ForceRemoveLock(s: State, who: AccountId, id: u32): Step {
    if id !in LocksOf(s.locks, who) then Fail(s, Unknown)
    else
      var (locks1, locked1) := DropLock(s.locks, s.locked, who, id);
      Done(s.(locks := locks1, locked := locked1), LocksOf(s.locks, who)[id].balance)
  }

  // ---- Touching and refunding.

  function Touch(c: Config, e: Env, s: State, who: AccountId, depositor: AccountId, checkDepositor: bool): Step {
    if who in s.accounts then Fail(s, AlreadyExists)
    else if s.details.None? then Fail(s, Unknown)
    else
      var d := s.details.value;
      if d.status != Live then Fail(s, AssetNotLive)
      else if checkDepositor && depositor != d.admin && depositor != d.freezer then Fail(s, NoPermission)
      else match NewAccount(e, d, who, Some((depositor, c.accountDeposit)))
        case Err(x) => Fail(s, x)
        case Ok((d1, reason)) =>
          if !e.reserveOk then Fail(s, ReserveFailed)
          else Done(s.(details := Some(d1), accounts := s.accounts[who := Account(0, Liquid, reason)]), 0)
  }

  /** A deposit that was taken back. */
  function Taken(reason: Reason): Reason {
    if reason.DepositHeld? || reason.DepositFrom? then DepositRefunded else reason
  }

  function Closed(s: State, who: AccountId): Step
    requires s.details.Some? && who in s.accounts
  {
    var account := s.accounts[who].(reason := Taken(s.accounts[who].reason));
    var (d1, removed) := DeadAccount(s.details.value, account.reason, false);
    if removed then Done(s.(details := Some(d1), accounts := s.accounts - {who}), account.balance)
    else Done(s.(accounts := s.accounts[who := account]), 0)
  }

  function Refund(s: State, who: AccountId, allowBurn: bool): Step {
    if who !in s.accounts then Fail(s, NoDeposit)
    else if !s.accounts[who].reason.Consumer? && !s.accounts[who].reason.DepositHeld? then Fail(s, NoDeposit)
    else if s.details.None? then Fail(s, Unknown)
    else if s.details.value.status == Destroying then Fail(s, IncorrectStatus)
    else if s.accounts[who].balance != 0 && !allowBurn then Fail(s, WouldBurn)
    else Closed(s, who)
  }

  function RefundOther(s: State, who: AccountId, caller: AccountId): Step {
    if who !in s.accounts then Fail(s, NoDeposit)
    else if !s.accounts[who].reason.DepositFrom? then Fail(s, NoDeposit)
    else if s.details.None? then Fail(s, Unknown)
    else if s.details.value.status != Live then Fail(s, AssetNotLive)
    else if IsHalted(s.accounts[who].status) then Fail(s, IsFrozen)
    else if caller != s.accounts[who].reason.depositor && caller != s.details.value.admin then Fail(s, NoPermission)
    else if s.accounts[who].balance != 0 then Fail(s, WouldBurn)
    else Closed(s, who)
  }

  // ---- Approvals.

  function ApprovalOf(approvals: Approvals, key: (AccountId, AccountId)): Approval {
    if key in approvals then approvals[key] else Approval(0, 0)
  }

  function Approve(c: Config, e: Env, s: State, owner: AccountId, delegate: AccountId, amount: Balance): Step {
    if s.details.None? then Fail(s, Unknown)
    else
      var d := s.details.value;
      if d.status != Live then Fail(s, AssetNotLive)
      else
        var key := (owner, delegate);
        var d1 := if key in s.approvals then d else d.(approvals := SatAdd32(d.approvals, 1));
        var prior := ApprovalOf(s.approvals, key);
        if prior.deposit < c.approvalDeposit && !e.reserveOk then Fail(s, ReserveFailed)
        else Done(s.(details := Some(d1),
                     approvals := s.approvals[key := Approval(SatAdd128(prior.amount, amount), Max(prior.deposit, c.approvalDeposit))]), 0)
  }

  /** Removes one approval and counts it out. */
  function DropApproval(s: State, key: (AccountId, AccountId)): State
    requires s.details.Some?
  {
    s.(details := Some(s.details.value.(approvals := SatSub(s.details.value.approvals, 1))), approvals := s.approvals - {key})
  }

  function CancelApproval(s: State, owner: AccountId, delegate: AccountId, checkAdmin: Option<AccountId>): Step {
    if s.details.None? then Fail(s, Unknown)
    else if s.details.value.status != Live then Fail(s, AssetNotLive)
    else if checkAdmin.Some? && checkAdmin.value != s.details.value.admin then Fail(s, NoPermission)
    else if (owner, delegate) !in s.approvals then Fail(s, Unknown)
    else Done(DropApproval(s, (owner, delegate)), 0)
  }

  function TransferApproved(e: Env, s: State, owner: AccountId, delegate: AccountId, dest: AccountId, amount: Balance): Step {
    if s.details.None? then Fail(s, Unknown)
    else if s.details.value.status != Live then Fail(s, AssetNotLive)
    else if (owner, delegate) !in s.approvals then Fail(s, Unapproved)
    else
      var approved := s.approvals[(owner, delegate)];
      if approved.amount < amount then Fail(s, Unapproved)
      else
        var t := Transfer(e, s, owner, dest, amount, None, TransferFlags(false, false, false));
        if t.r.Err? then Fail(s, t.r.error)
        else if approved.amount == amount then Step(if t.s.details.Some? then DropApproval(t.s, (owner, delegate)) else t.s, t.r)
        else Step(t.s.(approvals := s.approvals[(owner, delegate) := approved.(amount := approved.amount - amount)]), t.r)
  }

  // ---- The asset itself.

  function FreshDetails(owner: AccountId, admin: AccountId, deposit: Balance, minBalance: Balance, isSufficient: bool): Details {
    Details(owner, admin, admin, admin, 0, deposit, minBalance, isSufficient, 0, 0, 0, Live)
  }

  function Create(c: Config, e: Env, s: State, owner: AccountId, admin: AccountId, minBalance: Balance): Step {
    if s.details.Some? then Fail(s, InUse)
    else if minBalance == 0 then Fail(s, MinBalanceZero)
    else if !e.reserveOk then Fail(s, ReserveFailed)
    else if !e.callbackOk then Fail(s, CallbackFailed)
    else Done(s.(details := Some(FreshDetails(owner, admin, c.assetDeposit, minBalance, false))), 0)
  }

  function ForceCreate(e: Env, s: State, owner: AccountId, isSufficient: bool, minBalance: Balance): Step {
    if s.details.Some? then Fail(s, InUse)
    else if minBalance == 0 then Fail(s, MinBalanceZero)
    else if !e.callbackOk then Fail(s, CallbackFailed)
    else Done(s.(details := Some(FreshDetails(owner, owner, 0, minBalance, isSufficient))), 0)
  }

  function StartDestroy(s: State, checkOwner: Option<AccountId>): Step {
    if s.details.None? then Fail(s, Unknown)
    else if checkOwner.Some? && checkOwner.value != s.details.value.owner then Fail(s, NoPermission)
    else Done(s.(details := Some(s.details.value.(status := Destroying))), 0)
  }

  /** The first holders of one iteration order, as many as a call takes. */
  function Batch<T>(c: Config, order: seq<T>): seq<T> {
    if |order| <= Max(1, c.removeLimit) then order else order[..Max(1, c.removeLimit)]
  }

  /** The listed holders removed with their locks, whatever they hold. */
  function DrainAccounts(s: State, ws: seq<AccountId>): State
    requires s.details.Some?
    ensures DrainAccounts(s, ws).details.Some?
  {
    if ws == [] then s
    else
      var (s1, who) := (DrainAccounts(s, ws[..|ws| - 1]), ws[|ws| - 1]);
      if who !in s1.accounts then s1
      else s1.(details := Some(DeadAccount(s1.details.value, s1.accounts[who].reason, true).0),
               accounts := s1.accounts - {who}, locks := s1.locks - {who}, locked := s1.locked - {who})
  }

  function DestroyAccounts(c: Config, s: State, order: seq<AccountId>): Step {
    if s.details.None? then Fail(s, Unknown)
    else if s.details.value.status != Destroying then Fail(s, IncorrectStatus)
    else Done(DrainAccounts(s, Batch(c, order)), |Batch(c, order)|)
  }

  function DrainApprovals(s: State, ks: seq<(AccountId, AccountId)>): State
    requires s.details.Some?
    ensures DrainApprovals(s, ks).details.Some?
  {
    if ks == [] then s
    else DropApproval(DrainApprovals(s, ks[..|ks| - 1]), ks[|ks| - 1])
  }

  function DestroyApprovals(c: Config, s: State, order: seq<(AccountId, AccountId)>): Step {
    if s.details.None? then Fail(s, Unknown)
    else if s.details.value.status != Destroying then Fail(s, IncorrectStatus)
    else Done(DrainApprovals(s, Batch(c, order)), |Batch(c, order)|)
  }

  /** `survivors` are the receivers whose locks the final prefix clearing leaves behind. */
  function FinishDestroy(e: Env, s: State, survivors: set<AccountId>): Step {
    if s.details.None? then Fail(s, Unknown)
    else
      var d := s.details.value;
      if d.status != Destroying then Fail(s, IncorrectStatus)
      else if d.accounts != 0 then Fail(s, InUse)
      else if d.approvals != 0 then Fail(s, InUse)
      else if !e.callbackOk then Fail(s, CallbackFailed)
      else Done(s.(details := None, locks := s.locks - (s.locks.Keys - survivors), locked := s.locked - (s.locked.Keys - survivors)), 0)
  }

  // ---- Administration.

  /** `freeze`, `thaw` and `block` differ in who may call them and in the status they write. */
  function SetAccountStatus(s: State, origin: AccountId, who: AccountId, status: AccountStatus): Step {
    if s.details.None? then Fail(s, Unknown)
    else
      var d := s.details.value;
      if d.status == Destroying then Fail(s, AssetNotLive)
      else if origin != (if status == Liquid then d.admin else d.freezer) then Fail(s, NoPermission)
      else if who !in s.accounts then Fail(s, NoAccount)
      else Done(s.(accounts := s.accounts[who := s.accounts[who].(status := status)]), 0)
  }

  function FreezeAsset(s: State, origin: AccountId): Step {
    if s.details.None? then Fail(s, Unknown)
    else if s.details.value.status != Live then Fail(s, AssetNotLive)
    else if origin != s.details.value.freezer then Fail(s, NoPermission)
    else Done(s.(details := Some(s.details.value.(status := Frozen))), 0)
  }

  function ThawAsset(s: State, origin: AccountId): Step {
    if s.details.None? then Fail(s, Unknown)
    else if origin != s.details.value.admin then Fail(s, NoPermission)
    else if s.details.value.status != Frozen then Fail(s, NotFrozen)
    else Done(s.(details := Some(s.details.value.(status := Live))), 0)
  }

  function TransferOwnership(e: Env, s: State, origin: AccountId, owner: AccountId): Step {
    if s.details.None? then Fail(s, Unknown)
    else if s.details.value.status != Live then Fail(s, LiveAsset)
    else if origin != s.details.value.owner then Fail(s, NoPermission)
    else if s.details.value.owner == owner then Done(s, 0)
    else if !e.reserveOk then Fail(s, ReserveFailed)
    else Done(s.(details := Some(s.details.value.(owner := owner))), 0)
  }

  function SetTeam(s: State, origin: AccountId, issuer: AccountId, admin: AccountId, freezer: AccountId): Step {
    if s.details.None? then Fail(s, Unknown)
    else if s.details.value.status != Live then Fail(s, AssetNotLive)
    else if origin != s.details.value.owner then Fail(s, NoPermission)
    else Done(s.(details := Some(s.details.value.(issuer := issuer, admin := admin, freezer := freezer))), 0)
  }

  function SetMinBalance(s: State, origin: AccountId, minBalance: Balance): Step {
    if s.details.None? then Fail(s, Unknown)
    else
      var d := s.details.value;
      if origin != d.owner then Fail(s, NoPermission)
      else if d.isSufficient then Fail(s, NoPermission)
      else if minBalance >= d.minBalance && d.accounts != 0 then Fail(s, NoPermission)
      else Done(s.(details := Some(d.(minBalance := minBalance))), 0)
  }

  function ForceAssetStatus(s: State, owner: AccountId, issuer: AccountId, admin: AccountId, freezer: AccountId,
                            minBalance: Balance, isSufficient: bool, isFrozen: bool): Step {
    if s.details.None? then Fail(s, Unknown)
    else if s.details.value.status == Destroying then Fail(s, AssetNotLive)
    else Done(s.(details := Some(s.details.value.(owner := owner, issuer := issuer, admin := admin, freezer := freezer,
                                                  minBalance := minBalance, isSufficient := isSufficient,
                                                  status := if isFrozen then Frozen else Live))), 0)
  }

  // ---- One dispatch.

  datatype Call =
    | DoCreate(who: AccountId, admin: AccountId, minBalance: Balance)
    | DoForceCreate(owner: AccountId, isSufficient: bool, minBalance: Balance)
    | DoStartDestroy(checkOwner: Option<AccountId>)
    | DoDestroyAccounts(holders: seq<AccountId>)
    | DoDestroyApprovals(keys: seq<(AccountId, AccountId)>)
    | DoFinishDestroy(survivors: set<AccountId>)
    | DoMint(who: AccountId, beneficiary: AccountId, amount: Balance)
    | DoBurn(who: AccountId, target: AccountId, amount: Balance)
    | DoTransfer(source: AccountId, dest: AccountId, amount: Balance, needAdmin: Option<AccountId>, keepAlive: bool)
    | DoSetAccountStatus(who: AccountId, target: AccountId, status: AccountStatus)
    | DoFreezeAsset(who: AccountId)
    | DoThawAsset(who: AccountId)
    | DoTransferOwnership(who: AccountId, owner: AccountId)
    | DoSetTeam(who: AccountId, issuer: AccountId, admin: AccountId, freezer: AccountId)
    | DoSetMinBalance(who: AccountId, minBalance: Balance)
    | DoForceAssetStatus(owner: AccountId, issuer: AccountId, admin: AccountId, freezer: AccountId,
                         minBalance: Balance, isSufficient: bool, isFrozen: bool)
    | DoApprove(owner: AccountId, delegate: AccountId, amount: Balance)
    | DoCancelApproval(owner: AccountId, delegate: AccountId, checkAdmin: Option<AccountId>)
    | DoTransferApproved(owner: AccountId, delegate: AccountId, dest: AccountId, amount: Balance)
    | DoTouch(who: AccountId, depositor: AccountId, checkDepositor: bool)
    | DoRefund(who: AccountId, allowBurn: bool)
    | DoRefundOther(target: AccountId, who: AccountId)
    | DoTransferAndLock(source: AccountId, dest: AccountId, amount: Balance, duration: BlockNumber, keepAlive: bool)
    | DoUnlock(who: AccountId, id: u32)
    | DoForceRemoveLock(target: AccountId, id: u32)

  function Exec(c: Config, e: Env, s: State, call: Call): Step {
    match call
    case DoCreate(who, admin, minBalance) => Create(c, e, s, who, admin, minBalance)
    case DoForceCreate(owner, isSufficient, minBalance) => ForceCreate(e, s, owner, isSufficient, minBalance)
    case DoStartDestroy(checkOwner) => StartDestroy(s, checkOwner)
    case DoDestroyAccounts(holders) => DestroyAccounts(c, s, holders)
    case DoDestroyApprovals(keys) => DestroyApprovals(c, s, keys)
    case DoFinishDestroy(survivors) => FinishDestroy(e, s, survivors)
    case DoMint(who, beneficiary, amount) => Mint(e, s, beneficiary, amount, Some(who))
    case DoBurn(who, target, amount) => Burn(e, s, target, amount, Some(who), DebitFlags(false, true))
    case DoTransfer(source, dest, amount, needAdmin, keepAlive) =>
      Transfer(e, s, source, dest, amount, needAdmin, TransferFlags(keepAlive, false, false))
    case DoSetAccountStatus(who, target, status) => SetAccountStatus(s, who, target, status)
    case DoFreezeAsset(who) => FreezeAsset(s, who)
    case DoThawAsset(who) => ThawAsset(s, who)
    case DoTransferOwnership(who, owner) => TransferOwnership(e, s, who, owner)
    case DoSetTeam(who, issuer, admin, freezer) => SetTeam(s, who, issuer, admin, freezer)
    case DoSetMinBalance(who, minBalance) => SetMinBalance(s, who, minBalance)
    case DoForceAssetStatus(owner, issuer, admin, freezer, minBalance, isSufficient, isFrozen) =>
      ForceAssetStatus(s, owner, issuer, admin, freezer, minBalance, isSufficient, isFrozen)
    case DoApprove(owner, delegate, amount) => Approve(c, e, s, owner, delegate, amount)
    case DoCancelApproval(owner, delegate, checkAdmin) => CancelApproval(s, owner, delegate, checkAdmin)
    case DoTransferApproved(owner, delegate, dest, amount) => TransferApproved(e, s, owner, delegate, dest, amount)
    case DoTouch(who, depositor, checkDepositor) => Touch(c, e, s, who, depositor, checkDepositor)
    case DoRefund(who, allowBurn) => Refund(s, who, allowBurn)
    case DoRefundOther(target, who) => RefundOther(s, target, who)
    case DoTransferAndLock(source, dest, amount, duration, keepAlive) => TransferAndLock(c, e, s, source, dest, amount, duration, keepAlive)
    case DoUnlock(who, id) => Unlock(e, s, who, id)
    case DoForceRemoveLock(target, id) => ForceRemoveLock(s, target, id)
  }
}
