/** GPU nodes over whole runs of the chain: what they registered with is permanent, and heartbeats keep their distance. */
module ChainNodes {
  import opened Prelude
  import opened SchedulerSpec
  import opened SchedulerSweep
  import opened Chain
  import opened ChainRuns
  import A = AttestationSpec
  import AP = AttestationProofs

  lemma StillNodes(c: A.Config, s: A.State, s': A.State, now: BlockNumber)
    requires s'.nodes == s.nodes
    ensures AP.NodesEvolve(c, s, s', now)
  {
  }

  lemma NewBlockNodes(c: Config, k: Chain, order: seq<PoolId>)
    requires Sound(c, k) && Enumerates(order, k.s.poolTasks.Keys)
    ensures var k' := Next(c, k, NewBlock(order));
            k'.w.att.nodes == k.w.att.nodes && k.w.now <= k'.w.now
  {
    NewBlockEvolves(c, k, order);
    if k.w.now < U32_MAX {
      NewBlockShape(c, k, order);
      HookAttests(c, k.s, k.w.(now := k.w.now + 1), order);
    }
  }

  /**
    Only a registration by its account adds a node, only a heartbeat of its
    account, a full interval after the last, moves one, nothing else touches
    the nodes, and the clock never runs back.
  */
  lemma NextNodes(c: Config, k: Chain, ev: Event)
    requires Sound(c, k) && Legal(k, ev)
    ensures var k' := Next(c, k, ev);
            && AP.NodesEvolve(c.attestation, k.w.att, k'.w.att, k'.w.now) && k.w.now <= k'.w.now
            && (if ev.Attest? then AP.NodesAnswer(k.w.att, k'.w.att, ev.acall, k'.w.now) else k'.w.att.nodes == k.w.att.nodes)
  {
    var k' := Next(c, k, ev);
    match ev
    case Attest(acall) =>
      AP.ExecNodes(c.attestation, k.w.att, k.w.ledger, k.w.now, acall);
      AP.ExecAnswers(c.attestation, k.w.att, k.w.ledger, k.w.now, acall);
    case Dispatch(call) =>
      ExecAttests(c, k.s, k.w, call);
      StillNodes(c.attestation, k.w.att, k'.w.att, k'.w.now);
    case NewBlock(order) =>
      NewBlockNodes(c, k, order);
      StillNodes(c.attestation, k.w.att, k'.w.att, k'.w.now);
    case Elsewhere(_) => StillNodes(c.attestation, k.w.att, k'.w.att, k'.w.now);
  }

  /** The event is a heartbeat of `who` that was accepted. */
  predicate Beats(c: Config, k: Chain, ev: Event, who: AccountId) {
    ev.Attest? && AP.Beats(c.attestation, k.w.att, k.w.ledger, k.w.now, ev.acall, who)
  }

  function Heartbeats(c: Config, k: Chain, trace: seq<Event>, who: AccountId): nat {
    if trace == [] then 0
    else
      var init := trace[..|trace| - 1];
      Heartbeats(c, k, init, who) + if Beats(c, After(c, k, init), trace[|trace| - 1], who) then 1 else 0
  }

  /** The node `n'` is `n`, later in the run by `beats` heartbeats. */
  predicate Later(c: A.Config, n: A.Node, n': A.Node, beats: nat) {
    n' == n.(lastHeartbeat := n'.lastHeartbeat) && Min(n.lastHeartbeat + beats * c.heartbeatInterval, U32_MAX) <= n'.lastHeartbeat
  }

  lemma LaterTrans(c: A.Config, n: A.Node, n1: A.Node, n2: A.Node, beats: nat, more: nat)
    requires Later(c, n, n1, beats) && Later(c, n1, n2, more)
    ensures Later(c, n, n2, beats + more)
  {
    assert (beats + more) * c.heartbeatInterval == beats * c.heartbeatInterval + more * c.heartbeatInterval;
  }

  /** The node of `who` goes on from one state to a later one with so many heartbeats, none of them in the future. */
  ghost predicate GoesOn(c: Config, k: Chain, k': Chain, who: AccountId, beats: nat) {
    && who in k.w.att.nodes && who in k'.w.att.nodes && k'.w.att.nodes[who].lastHeartbeat <= k'.w.now
    && Later(c.attestation, k.w.att.nodes[who], k'.w.att.nodes[who], beats)
  }

  lemma NodeStep(c: Config, k: Chain, ev: Event, who: AccountId)
    requires Sound(c, k) && Legal(k, ev) && who in k.w.att.nodes && k.w.att.nodes[who].lastHeartbeat <= k.w.now
    ensures GoesOn(c, k, Next(c, k, ev), who, if Beats(c, k, ev, who) then 1 else 0)
  {
    NextNodes(c, k, ev);
    var k' := Next(c, k, ev);
    assert AP.NodeMoves(c.attestation, k.w.att.nodes[who], k'.w.att.nodes[who], k'.w.now);
    assert k.w.att.nodes[who].isActive;
    if Beats(c, k, ev, who) {
      AP.ExecNodes(c.attestation, k.w.att, k.w.ledger, k.w.now, ev.acall);
    }
  }

  lemma GoesOnFurther(c: Config, k: Chain, k1: Chain, k2: Chain, who: AccountId, beats: nat, more: nat)
    requires GoesOn(c, k, k1, who, beats) && GoesOn(c, k1, k2, who, more)
    ensures GoesOn(c, k, k2, who, beats + more)
  {
    LaterTrans(c.attestation, k.w.att.nodes[who], k1.w.att.nodes[who], k2.w.att.nodes[who], beats, more);
  }

  /**
    A registered node is registered for good: identifier, power and
    registration block never change. After `n` accepted heartbeats the last
    one is at least `n` intervals after the first date, until the block number
    saturates, so a node cannot beat more often than once per interval.
  */
  lemma {:induction false} RunNodes(c: Config, k: Chain, trace: seq<Event>, who: AccountId)
    requires Sound(c, k) && LegalRun(c, k, trace) && who in k.w.att.nodes && k.w.att.nodes[who].lastHeartbeat <= k.w.now
    ensures GoesOn(c, k, After(c, k, trace), who, Heartbeats(c, k, trace, who))
  {
    if trace != [] {
      var init, last := trace[..|trace| - 1], trace[|trace| - 1];
      var k1 := After(c, k, init);
      RunNodes(c, k, init, who);
      RunSound(c, k, init);
      NodeStep(c, k1, last, who);
      GoesOnFurther(c, k, k1, Next(c, k1, last), who, Heartbeats(c, k, init, who), if Beats(c, k1, last, who) then 1 else 0);
    }
  }
}
