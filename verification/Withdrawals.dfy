/**
 The withdrawal saga of the transfers service: request attempts that check, lock, insert and compensate; then claim,
 broadcast, debit or unlock, with crashes at every point and any number of processes recovering the same request. One
 withdrawal is one state machine; an event names the attempt or the agent (worker or recovery run) that moves and how
 its outside call went.
 */
module Withdrawals {
  import opened Domain

  datatype Status = REQUESTED | PENDING | PROCESSING | COMPLETED | FAILED

  /**
   Where one call of requestWithdrawal stands: it found no row, its funds are locked, its insert failed, or it is over,
   answered or dead.
   */
  datatype Attempt = CHECKED | SECURED | COMPENSATING | ENDED

  /** Where a process that works on a claimed request stands; GONE once it has finished or died. */
  datatype Agent = CLAIMED | SENT | WAITING | DEBITING | COMPLETING | UNLOCKING | FAILING | GONE

  /** What is asked for; receipt is what the chain will report for the transaction, a fixed function of its hash. */
  datatype Terms = Terms(id: string, account: Account, amount: nat, key: string, receipt: bool)

  /**
   REQUESTED means that the row is not inserted. The flags locked, compensated, debited and unlocked say that the
   ledger holds the entry; insertFailed that an attempt was told so.
   */
  datatype Withdrawal = Withdrawal(
    terms: Terms,
    status: Status,
    attempts: seq<Attempt>,
    locked: bool,
    insertFailed: bool,
    compensated: bool,
    hash: bool,
    agents: seq<Agent>,
    claims: nat,
    broadcasts: nat,
    debited: bool,
    unlocked: bool)

  /**
   What the environment may do: waiting for a receipt and storing a hash may throw, sending may throw although the
   transaction went out, and clients may repeat a request in two ways.
   */
  datatype Environment = Environment(
    waitMayThrow: bool,
    recordMayThrow: bool,
    sendMayThrow: bool,
    keyReusedAfterCompensation: bool,
    concurrentRequests: bool)

  /**
   How an agent's next action went: ok is what the agent saw, applied what the ledger did, or for a send whether the
   chain took the transaction. Between the two lies a lost acknowledgement.
   */
  datatype Outcome = Went(ok: bool, applied: bool) | Died

  datatype Event =
    | Start
    | LockCall(attempt: nat, ok: bool, applied: bool)
    | InsertCall(attempt: nat, ok: bool)
    | CompensateCall(attempt: nat, applied: bool)
    | Abandon(attempt: nat)
    | Claim
    | Recover
    | Move(agent: nat, outcome: Outcome)

  function Requested(terms: Terms): Withdrawal
  {
    Withdrawal(terms, REQUESTED, [], false, false, false, false, [], 0, 0, false, false)
  }

  predicate AllEnded(attempts: seq<Attempt>)
  {
    forall i :: 0 <= i < |attempts| ==> attempts[i] == ENDED
  }

  /**
   A client's new attempt passes the check when there is no row. A careful client starts none while another is in
   flight, and none after being told that the insert failed.
   */
  predicate MayStart(env: Environment, w: Withdrawal)
  {
    && w.status == REQUESTED
    && (env.concurrentRequests || AllEnded(w.attempts))
    && (env.keyReusedAfterCompensation || !w.insertFailed)
  }

  predicate At(w: Withdrawal, attempt: nat, a: Attempt)
  {
    attempt < |w.attempts| && w.attempts[attempt] == a
  }

  /** The agents' part of a request, which no attempt touches. */
  predicate SameWork(w: Withdrawal, r: Withdrawal)
  {
    r.terms == w.terms && r.agents == w.agents && r.hash == w.hash && r.debited == w.debited && r.unlocked == w.unlocked
  }

  /** The lock of an attempt: applied, replayed, refused, or its answer lost. */
  function Locked(w: Withdrawal, attempt: nat, ok: bool, applied: bool): (r: Withdrawal)
    requires At(w, attempt, CHECKED)
    ensures SameWork(w, r) && (r.locked <==> w.locked || applied) && r.compensated == w.compensated
  {
    w.(locked := w.locked || applied,
       attempts := w.attempts[attempt := if ok && (w.locked || applied) then SECURED else ENDED])
  }

  /** The insert of an attempt fails on its own or on the unique index. */
  function Inserted(w: Withdrawal, attempt: nat, ok: bool): (r: Withdrawal)
    requires At(w, attempt, SECURED)
    ensures SameWork(w, r) && r.locked == w.locked && r.compensated == w.compensated
  {
    if ok && w.status == REQUESTED then w.(status := PENDING, attempts := w.attempts[attempt := ENDED])
    else w.(insertFailed := true, attempts := w.attempts[attempt := COMPENSATING])
  }

  /** The compensating unlock of an attempt; whatever becomes of it, the attempt is over. */
  function Compensated(w: Withdrawal, attempt: nat, applied: bool): (r: Withdrawal)
    requires At(w, attempt, COMPENSATING)
    ensures SameWork(w, r) && r.locked == w.locked && (r.compensated <==> w.compensated || applied)
  {
    w.(compensated := w.compensated || applied, attempts := w.attempts[attempt := ENDED])
  }

  /** One action of an agent: the request after it, and where the agent stands then. */
  function Advance(env: Environment, w: Withdrawal, a: Agent, ok: bool, applied: bool): (Withdrawal, Agent)
  {
    match a
    case CLAIMED =>
      if ok then (w.(broadcasts := w.broadcasts + 1), SENT)
      else (if applied && env.sendMayThrow then w.(broadcasts := w.broadcasts + 1) else w, UNLOCKING)
    case SENT => if ok then (w.(hash := true), WAITING) else (w, if env.recordMayThrow then UNLOCKING else SENT)
    case WAITING =>
      (w, if ok then (if w.terms.receipt then DEBITING else UNLOCKING)
          else if env.waitMayThrow then UNLOCKING else WAITING)
    case DEBITING => (w.(debited := w.debited || applied), if ok && (w.debited || applied) then COMPLETING else GONE)
    case COMPLETING => (if ok then w.(status := COMPLETED) else w, GONE)
    case UNLOCKING => (w.(unlocked := w.unlocked || applied), FAILING)
    case FAILING => (if ok then w.(status := FAILED) else w, GONE)
    case GONE => (w, GONE)
  }

  function MoveAgent(env: Environment, w: Withdrawal, agent: nat, outcome: Outcome): Withdrawal
    requires agent < |w.agents|
  {
    match outcome
    case Went(ok, applied) =>
      var (r, a) := Advance(env, w, w.agents[agent], ok, applied);
      r.(agents := w.agents[agent := a])
    case Died => w.(agents := w.agents[agent := GONE])
  }

  /** An event that is not possible in a state leaves it as it is. */
  function Step(env: Environment, w: Withdrawal, e: Event): Withdrawal
  {
    match e
    case Start => if MayStart(env, w) then w.(attempts := w.attempts + [CHECKED]) else w
    case LockCall(i, ok, applied) => if At(w, i, CHECKED) then Locked(w, i, ok, applied) else w
    case InsertCall(i, ok) => if At(w, i, SECURED) then Inserted(w, i, ok) else w
    case CompensateCall(i, applied) => if At(w, i, COMPENSATING) then Compensated(w, i, applied) else w
    case Abandon(i) => if i < |w.attempts| then w.(attempts := w.attempts[i := ENDED]) else w
    case Claim =>
      if w.status == PENDING
      then w.(status := PROCESSING, agents := w.agents + [CLAIMED], claims := w.claims + 1) else w
    case Recover =>
      if w.status == PROCESSING && w.hash
      then w.(agents := w.agents + [if w.terms.receipt then DEBITING else UNLOCKING]) else w
    case Move(agent, outcome) => if agent < |w.agents| then MoveAgent(env, w, agent, outcome) else w
  }

  function Run(env: Environment, w: Withdrawal, events: seq<Event>): Withdrawal
  {
    if events == [] then w else Step(env, Run(env, w, events[..|events| - 1]), events[|events| - 1])
  }

  /** What the ledger's entries about a withdrawal leave locked; negative when it took out more than it locked. */
  function Net(w: Withdrawal): int
  {
    (if w.locked then w.terms.amount else 0) - (if w.compensated then w.terms.amount else 0)
    - (if w.debited then w.terms.amount else 0) - (if w.unlocked then w.terms.amount else 0)
  }

  /** What an unfinished withdrawal is still owed: the lock before the row, the full amount once there is a row. */
  function Owed(w: Withdrawal): nat
  {
    if w.debited || w.unlocked then 0
    else if w.status == REQUESTED then (if w.locked && !w.compensated then w.terms.amount else 0)
    else w.terms.amount
  }

  predicate Unclaimed(w: Withdrawal)
  {
    w.status == REQUESTED || w.status == PENDING
  }

  /** What an agent's position says about the request it works on. */
  predicate AgentSound(w: Withdrawal, a: Agent)
  {
    match a
    case CLAIMED => !w.hash && w.broadcasts == 0 && !w.unlocked && w.status == PROCESSING
    case SENT => !w.hash && w.broadcasts == 1 && !w.unlocked && w.status == PROCESSING
    case WAITING => w.hash
    case DEBITING => w.hash && w.terms.receipt
    case COMPLETING => w.hash && w.terms.receipt && w.debited
    case UNLOCKING | FAILING => !Unclaimed(w)
    case GONE => true
  }

  predicate AttemptSound(w: Withdrawal, a: Attempt)
  {
    (a == SECURED ==> w.locked) && (a == COMPENSATING ==> w.locked && w.insertFailed)
  }

  predicate RequestSound(w: Withdrawal)
  {
    && w.claims == (if Unclaimed(w) then 0 else 1)
    && w.broadcasts <= w.claims
    && (Unclaimed(w) ==> w.agents == [] && !w.hash && !w.debited && !w.unlocked)
    && (w.hash ==> w.broadcasts == 1)
    && (!w.hash ==> |w.agents| <= 1)
    && (w.debited ==> w.hash && w.terms.receipt)
    && (w.status == COMPLETED ==> w.debited)
    && (w.status != REQUESTED ==> w.locked)
    && (w.compensated ==> w.locked && w.insertFailed)
  }

  /** Holds whatever the environment does. */
  predicate Sound(w: Withdrawal)
  {
    && RequestSound(w)
    && (forall i :: 0 <= i < |w.agents| ==> AgentSound(w, w.agents[i]))
    && (forall i :: 0 <= i < |w.attempts| ==> AttemptSound(w, w.attempts[i]))
  }

  /** One attempt at a time, none after a failed insert, and none left once there is a row. */
  predicate Orderly(w: Withdrawal)
  {
    && (forall i, j :: 0 <= i < j < |w.attempts| ==> w.attempts[i] == ENDED || w.attempts[j] == ENDED)
    && (w.insertFailed ==>
          && w.status == REQUESTED
          && forall i :: 0 <= i < |w.attempts| ==> w.attempts[i] == COMPENSATING || w.attempts[i] == ENDED)
    && (w.status != REQUESTED ==> AllEnded(w.attempts))
  }

  predicate Unlocks(a: Agent)
  {
    a == UNLOCKING || a == FAILING
  }

  /** Nobody unlocks a transaction that is recorded and succeeded. */
  predicate Decided(w: Withdrawal)
  {
    w.hash && w.terms.receipt ==>
      !w.unlocked && w.status != FAILED && forall i :: 0 <= i < |w.agents| ==> !Unlocks(w.agents[i])
  }

  /** One of the three calls around a transaction may throw after the transaction went out. */
  predicate MayThrow(env: Environment)
  {
    env.waitMayThrow || env.recordMayThrow || env.sendMayThrow
  }

  /** Nobody unlocks a transaction that was sent and succeeded. */
  predicate Truthful(w: Withdrawal)
  {
    w.broadcasts == 1 && w.terms.receipt ==>
      !w.unlocked && w.status != FAILED && forall i :: 0 <= i < |w.agents| ==> !Unlocks(w.agents[i])
  }

  lemma AdvanceKeepsSound(env: Environment, w: Withdrawal, agent: nat, ok: bool, applied: bool)
    requires RequestSound(w) && agent < |w.agents|
    requires forall i :: 0 <= i < |w.agents| ==> AgentSound(w, w.agents[i])
    ensures var (r, a) := Advance(env, w, w.agents[agent], ok, applied);
            && RequestSound(r) && AgentSound(r, a)
            && (forall i :: 0 <= i < |w.agents| && i != agent ==> AgentSound(r, w.agents[i]))
  {
    assert AgentSound(w, w.agents[agent]);
  }

  /** Whether a request and its agents fit does not depend on the lists the request itself carries. */
  lemma WithAgents(r: Withdrawal, agents: seq<Agent>)
    requires RequestSound(r) && |agents| == |r.agents|
    requires forall i :: 0 <= i < |agents| ==> AgentSound(r, agents[i])
    requires forall i :: 0 <= i < |r.attempts| ==> AttemptSound(r, r.attempts[i])
    ensures Sound(r.(agents := agents))
  {
    var c := r.(agents := agents);
    forall i | 0 <= i < |agents| ensures AgentSound(c, c.agents[i]) {
      assert AgentSound(r, agents[i]);
    }
    forall i | 0 <= i < |c.attempts| ensures AttemptSound(c, c.attempts[i]) {
      assert AttemptSound(r, r.attempts[i]);
    }
  }

  lemma MoveKeepsSound(env: Environment, w: Withdrawal, agent: nat, outcome: Outcome)
    requires Sound(w) && agent < |w.agents|
    ensures Sound(MoveAgent(env, w, agent, outcome))
  {
    match outcome
    case Went(ok, applied) =>
      AdvanceKeepsSound(env, w, agent, ok, applied);
      var (r, a) := Advance(env, w, w.agents[agent], ok, applied);
      AdvanceKeeps(env, w, w.agents[agent], ok, applied);
      forall i | 0 <= i < |r.attempts| ensures AttemptSound(r, r.attempts[i]) {
        assert AttemptSound(w, w.attempts[i]);
      }
      WithAgents(r, w.agents[agent := a]);
    case Died =>
      WithAgents(w, w.agents[agent := GONE]);
  }

  /** An agent at the given position reaches the ledger and changes it. */
  predicate Applies(w: Withdrawal, e: Event, a: Agent)
  {
    e.Move? && e.agent < |w.agents| && e.outcome.Went? && e.outcome.applied && w.agents[e.agent] == a
  }

  /** An attempt reaches the ledger and changes it. */
  predicate Locks(w: Withdrawal, e: Event)
  {
    e.LockCall? && At(w, e.attempt, CHECKED) && e.applied
  }

  predicate Compensates(w: Withdrawal, e: Event)
  {
    e.CompensateCall? && At(w, e.attempt, COMPENSATING) && e.applied
  }

  lemma MoveEffects(env: Environment, w: Withdrawal, agent: nat, outcome: Outcome)
    requires agent < |w.agents|
    ensures var c := MoveAgent(env, w, agent, outcome);
            && c.terms == w.terms && c.locked == w.locked && c.compensated == w.compensated
            && c.debited == (w.debited || Applies(w, Move(agent, outcome), DEBITING))
            && c.unlocked == (w.unlocked || Applies(w, Move(agent, outcome), UNLOCKING))
  {
    if outcome.Went? {
      hide Advance;
      AdvanceKeeps(env, w, w.agents[agent], outcome.ok, outcome.applied);
      AdvanceEffects(env, w, w.agents[agent], outcome.ok, outcome.applied);
    }
  }

  lemma AttemptEffects(env: Environment, w: Withdrawal, e: Event)
    requires !e.Move?
    ensures var c := Step(env, w, e);
            && c.terms == w.terms && c.debited == w.debited && c.unlocked == w.unlocked
            && (c.locked <==> w.locked || Locks(w, e)) && (c.compensated <==> w.compensated || Compensates(w, e))
  {
    hide MayStart, Locked, Inserted, Compensated;
    match e
    case Start =>
    case LockCall(i, ok, applied) =>
    case InsertCall(i, ok) =>
    case CompensateCall(i, applied) =>
    case Abandon(i) =>
    case Claim =>
    case Recover =>
  }

  /** The only ledger effects of a step; what is asked for never changes. */
  lemma {:induction false} StepEffects(env: Environment, w: Withdrawal, e: Event)
    ensures var c := Step(env, w, e);
            && c.terms == w.terms
            && c.locked == (w.locked || Locks(w, e))
            && c.compensated == (w.compensated || Compensates(w, e))
            && c.debited == (w.debited || Applies(w, e, DEBITING))
            && c.unlocked == (w.unlocked || Applies(w, e, UNLOCKING))
  {
    if e.Move? {
      hide MoveAgent;
      if e.agent < |w.agents| {
        MoveEffects(env, w, e.agent, e.outcome);
      }
    } else {
      hide Step;
      AttemptEffects(env, w, e);
    }
  }

  /** What an agent never touches. */
  lemma AdvanceKeeps(env: Environment, w: Withdrawal, a: Agent, ok: bool, applied: bool)
    ensures var r := Advance(env, w, a, ok, applied).0;
            && r.terms == w.terms && r.attempts == w.attempts && r.agents == w.agents
            && r.locked == w.locked && r.insertFailed == w.insertFailed && r.compensated == w.compensated
  {
    match a
    case CLAIMED =>
    case SENT =>
    case WAITING =>
    case DEBITING =>
    case COMPLETING =>
    case UNLOCKING =>
    case FAILING =>
    case GONE =>
  }

  lemma AdvanceStatus(env: Environment, w: Withdrawal, a: Agent, ok: bool, applied: bool)
    requires w.status != REQUESTED
    ensures Advance(env, w, a, ok, applied).0.status != REQUESTED
  {
  }

  lemma AdvanceEffects(env: Environment, w: Withdrawal, a: Agent, ok: bool, applied: bool)
    ensures var r := Advance(env, w, a, ok, applied).0;
            && r.debited == (w.debited || (applied && a == DEBITING))
            && r.unlocked == (w.unlocked || (applied && a == UNLOCKING))
  {
  }

  lemma AttemptStepKeepsSound(env: Environment, w: Withdrawal, e: Event)
    requires Sound(w) && (e.Start? || e.LockCall? || e.InsertCall? || e.CompensateCall? || e.Abandon?)
    ensures Sound(Step(env, w, e))
  {
    var c := Step(env, w, e);
    forall i | 0 <= i < |c.attempts| ensures AttemptSound(c, c.attempts[i]) {
      if i < |w.attempts| {
        assert AttemptSound(w, w.attempts[i]);
      }
    }
    if e.InsertCall? && At(w, e.attempt, SECURED) {
      assert AttemptSound(w, w.attempts[e.attempt]);
    }
    if e.CompensateCall? && At(w, e.attempt, COMPENSATING) {
      assert AttemptSound(w, w.attempts[e.attempt]);
    }
    forall i | 0 <= i < |c.agents| ensures AgentSound(c, c.agents[i]) {
      assert AgentSound(w, w.agents[i]);
    }
  }

  lemma {:induction false} StepKeepsSound(env: Environment, w: Withdrawal, e: Event)
    requires Sound(w)
    ensures Sound(Step(env, w, e))
  {
    if e.Move? {
      if e.agent < |w.agents| {
        MoveKeepsSound(env, w, e.agent, e.outcome);
      }
    } else if e.Claim? || e.Recover? {
      var c := Step(env, w, e);
      forall i | 0 <= i < |c.agents| ensures AgentSound(c, c.agents[i]) {
        if i < |w.agents| {
          assert AgentSound(w, w.agents[i]);
        }
      }
      forall i | 0 <= i < |c.attempts| ensures AttemptSound(c, c.attempts[i]) {
        assert AttemptSound(w, w.attempts[i]);
      }
    } else {
      AttemptStepKeepsSound(env, w, e);
    }
  }

  lemma AdvanceUnlocks(env: Environment, w: Withdrawal, a: Agent, ok: bool, applied: bool)
    requires AgentSound(w, a) && !Unlocks(a)
    ensures var (r, b) := Advance(env, w, a, ok, applied);
            && r.unlocked == w.unlocked && (r.status == FAILED ==> w.status == FAILED)
            && (Unlocks(b) && w.terms.receipt && !env.waitMayThrow ==> !r.hash)
            && (Unlocks(b) && w.terms.receipt && !MayThrow(env) ==> r.broadcasts == 0)
            && (!w.hash && r.hash ==> a == SENT) && (w.broadcasts != r.broadcasts ==> a == CLAIMED)
  {
  }

  lemma StepKeepsDecided(env: Environment, w: Withdrawal, e: Event)
    requires Sound(w) && Decided(w) && !(w.terms.receipt && env.waitMayThrow)
    ensures Decided(Step(env, w, e))
  {
    if e.Move? && e.agent < |w.agents| && e.outcome.Went? {
      assert AgentSound(w, w.agents[e.agent]);
      if !Unlocks(w.agents[e.agent]) {
        AdvanceUnlocks(env, w, w.agents[e.agent], e.outcome.ok, e.outcome.applied);
      }
    }
  }

  lemma StepKeepsTruthful(env: Environment, w: Withdrawal, e: Event)
    requires Sound(w) && Truthful(w) && !(w.terms.receipt && MayThrow(env))
    ensures Truthful(Step(env, w, e))
  {
    if e.Move? && e.agent < |w.agents| && e.outcome.Went? {
      assert AgentSound(w, w.agents[e.agent]);
      if !Unlocks(w.agents[e.agent]) {
        AdvanceUnlocks(env, w, w.agents[e.agent], e.outcome.ok, e.outcome.applied);
      }
    }
  }

  /** A client that waits for its answer and does not repeat a request whose insert failed keeps attempts in order. */
  lemma StepKeepsOrderly(env: Environment, w: Withdrawal, e: Event)
    requires Sound(w) && Orderly(w) && !env.concurrentRequests && !env.keyReusedAfterCompensation
    ensures Orderly(Step(env, w, e))
  {
    if e.Move? {
      if e.agent < |w.agents| && e.outcome.Went? {
        hide Advance;
        assert AgentSound(w, w.agents[e.agent]);
        AdvanceKeeps(env, w, w.agents[e.agent], e.outcome.ok, e.outcome.applied);
        AdvanceStatus(env, w, w.agents[e.agent], e.outcome.ok, e.outcome.applied);
      }
    }
  }

  /** With its attempts in order and one decision about its funds, a withdrawal leaves locked exactly what it is owed. */
  lemma NetIsOwed(w: Withdrawal)
    requires Sound(w) && Orderly(w) && Decided(w)
    ensures Net(w) == Owed(w)
  {
  }

  predicate Initial(w: Withdrawal)
  {
    w == Requested(w.terms)
  }

  lemma {:induction false} RunKeepsSound(env: Environment, w: Withdrawal, events: seq<Event>)
    requires Initial(w)
    ensures Sound(Run(env, w, events)) && Run(env, w, events).terms == w.terms
  {
    hide Step, Sound;
    if events == [] {
      InitialIsSound(w);
    } else {
      var mid := Run(env, w, events[..|events| - 1]);
      RunKeepsSound(env, w, events[..|events| - 1]);
      StepKeepsSound(env, mid, events[|events| - 1]);
      StepEffects(env, mid, events[|events| - 1]);
    }
  }

  lemma InitialIsSound(w: Withdrawal)
    requires Initial(w)
    ensures Sound(w) && Orderly(w) && Decided(w) && Truthful(w)
  {
  }

  /**
   Over any number of crashes and recoveries, in any environment, a withdrawal is claimed at most once and broadcast at
   most once, and COMPLETED means that it was debited against a successful receipt.
   */
  lemma ClaimedAtMostOnce(env: Environment, w: Withdrawal, events: seq<Event>)
    requires Initial(w)
    ensures var r := Run(env, w, events);
            && r.broadcasts <= r.claims <= 1 && (r.status == COMPLETED ==> r.debited)
            && (r.debited ==> r.terms.receipt && r.hash)
  {
    RunKeepsSound(env, w, events);
  }

  lemma {:induction false} RunKeepsDecided(env: Environment, w: Withdrawal, events: seq<Event>)
    requires Initial(w) && !(w.terms.receipt && env.waitMayThrow)
    ensures Decided(Run(env, w, events))
  {
    if events != [] {
      RunKeepsDecided(env, w, events[..|events| - 1]);
      RunKeepsSound(env, w, events[..|events| - 1]);
      StepKeepsDecided(env, Run(env, w, events[..|events| - 1]), events[|events| - 1]);
    }
  }

  lemma {:induction false} RunKeepsTruthful(env: Environment, w: Withdrawal, events: seq<Event>)
    requires Initial(w) && !(w.terms.receipt && MayThrow(env))
    ensures Truthful(Run(env, w, events))
  {
    if events != [] {
      RunKeepsTruthful(env, w, events[..|events| - 1]);
      RunKeepsSound(env, w, events[..|events| - 1]);
      StepKeepsTruthful(env, Run(env, w, events[..|events| - 1]), events[|events| - 1]);
    }
  }

  predicate AllGone(agents: seq<Agent>)
  {
    forall i :: 0 <= i < |agents| ==> agents[i] == GONE
  }

  /**
   Nobody works on the request, and no client, worker or recovery will: it is completed or given up, its insert failed,
   or its process died before the hash was stored.
   */
  predicate Final(w: Withdrawal)
  {
    && AllEnded(w.attempts) && AllGone(w.agents)
    && (w.status == REQUESTED ==> w.insertFailed)
    && w.status != PENDING
    && (w.status == PROCESSING ==> !w.hash)
  }

  lemma {:induction false} FinalStays(env: Environment, w: Withdrawal, e: Event)
    requires Final(w) && !(w.status == REQUESTED && env.keyReusedAfterCompensation)
    ensures Step(env, w, e) == w
  {
    if e.Move? && e.agent < |w.agents| {
      assert w.agents[e.agent := GONE] == w.agents;
    }
    if e.Abandon? && e.attempt < |w.attempts| {
      assert w.attempts[e.attempt := ENDED] == w.attempts;
    }
  }

  /** An event that moves a request which is not final. */
  lemma Waking(env: Environment, w: Withdrawal) returns (e: Event)
    requires !Final(w)
    ensures Step(env, w, e) != w
  {
    if !AllEnded(w.attempts) {
      var i :| 0 <= i < |w.attempts| && w.attempts[i] != ENDED;
      e := Abandon(i);
      assert Step(env, w, e).attempts[i] == ENDED;
    } else if !AllGone(w.agents) {
      var i :| 0 <= i < |w.agents| && w.agents[i] != GONE;
      e := Move(i, Died);
      assert Step(env, w, e).agents[i] == GONE;
    } else if w.status == REQUESTED {
      e := Start;
      assert |Step(env, w, e).attempts| == |w.attempts| + 1;
    } else {
      e := if w.status == PENDING then Claim else Recover;
      assert |Step(env, w, e).agents| == |w.agents| + 1;
    }
  }

  /** With a client that does not repeat a failed insert, exactly the final requests are never moved again. */
  lemma {:induction false} FinalIff(env: Environment, w: Withdrawal)
    requires !env.keyReusedAfterCompensation
    ensures Final(w) <==> (forall e :: Step(env, w, e) == w)
  {
    if Final(w) {
      forall e ensures Step(env, w, e) == w {
        FinalStays(env, w, e);
      }
    } else {
      var e := Waking(env, w);
    }
  }

  /**
   A process that dies after its claim and before the hash is stored leaves the request where it is for good: no
   recovery looks at it, so it stays PROCESSING with its funds held, whether or not the transaction was sent.
   */
  lemma {:induction false} CrashBeforeHashIsFinal(env: Environment, w: Withdrawal, events: seq<Event>)
    requires w.status == PROCESSING && !w.hash && AllGone(w.agents) && AllEnded(w.attempts)
    ensures Run(env, w, events) == w
  {
    hide Step;
    if events != [] {
      CrashBeforeHashIsFinal(env, w, events[..|events| - 1]);
      FinalStays(env, w, events[|events| - 1]);
    }
  }

  ghost predicate NeverBoth(env: Environment, w: Withdrawal)
  {
    forall events: seq<Event> :: !(Run(env, w, events).debited && Run(env, w, events).unlocked)
  }

  /** The ledger effect, if any, is the one the chain asks for. */
  ghost predicate AlwaysMatchesReceipt(env: Environment, w: Withdrawal)
  {
    forall events: seq<Event> ::
      var r := Run(env, w, events);
      (r.debited ==> r.terms.receipt) && (r.unlocked && r.broadcasts == 1 ==> !r.terms.receipt)
  }

  lemma RunMore(env: Environment, w: Withdrawal, events: seq<Event>, e: Event)
    ensures Run(env, w, events + [e]) == Step(env, Run(env, w, events), e)
  {
    assert (events + [e])[..|events|] == events;
  }

  lemma {:induction false} RunConcat(env: Environment, w: Withdrawal, first: seq<Event>, second: seq<Event>)
    ensures Run(env, w, first + second) == Run(env, Run(env, w, first), second)
  {
    if second == [] {
      assert first + second == first;
    } else {
      var init := second[..|second| - 1];
      RunConcat(env, w, first, init);
      assert (first + second)[..|first + second| - 1] == first + init;
    }
  }

  const ACK := Went(true, true)
  const LOST := Went(false, true)
  const NOTHING: seq<Event> := []
  const LOCKED: seq<Event> := NOTHING + [Start] + [LockCall(0, true, true)]
  const INSERTED: seq<Event> := LOCKED + [InsertCall(0, true)]
  const SENT_ONLY: seq<Event> := INSERTED + [Claim] + [Move(0, ACK)]
  const SENT_AND_RECORDED: seq<Event> := SENT_ONLY + [Move(0, ACK)]

  lemma RunToLocked(env: Environment, w: Withdrawal)
    requires Initial(w)
    ensures Run(env, w, LOCKED) == w.(locked := true, attempts := [SECURED])
  {
    RunMore(env, w, NOTHING, Start);
    RunMore(env, w, NOTHING + [Start], LockCall(0, true, true));
    assert Run(env, w, NOTHING) == w;
  }

  lemma RunToInserted(env: Environment, w: Withdrawal)
    requires Initial(w)
    ensures Run(env, w, INSERTED) == w.(status := PENDING, locked := true, attempts := [ENDED])
  {
    RunToLocked(env, w);
    RunMore(env, w, LOCKED, InsertCall(0, true));
  }

  lemma RunToSent(env: Environment, w: Withdrawal)
    requires Initial(w)
    ensures Run(env, w, SENT_ONLY)
         == w.(status := PROCESSING, locked := true, attempts := [ENDED], agents := [SENT], claims := 1, broadcasts := 1)
  {
    RunToInserted(env, w);
    RunMore(env, w, INSERTED, Claim);
    RunMore(env, w, INSERTED + [Claim], Move(0, ACK));
  }

  /** Up to the recorded hash nothing can go wrong yet. */
  lemma RunToRecorded(env: Environment, w: Withdrawal)
    requires Initial(w)
    ensures Run(env, w, SENT_AND_RECORDED)
         == w.(status := PROCESSING, locked := true, attempts := [ENDED], agents := [WAITING], claims := 1,
               broadcasts := 1, hash := true)
  {
    RunToSent(env, w);
    RunMore(env, w, SENT_ONLY, Move(0, ACK));
  }

  const LOST_WAIT: seq<Event> := [] + [Move(0, LOST)] + [Move(0, LOST)] + [Move(0, Died)] + [Recover] + [Move(1, ACK)]

  /** The wait gives up, the unlock lands, the process dies before FAILED is written, and recovery debits as well. */
  lemma BothAfterLostWait(env: Environment, w: Withdrawal)
    requires w.terms.receipt && env.waitMayThrow && w.hash && w.agents == [WAITING] && w.status == PROCESSING
    ensures Run(env, w, LOST_WAIT).debited && Run(env, w, LOST_WAIT).unlocked
  {
    var e0: seq<Event> := [];
    var e1 := e0 + [Move(0, LOST)];
    var e2 := e1 + [Move(0, LOST)];
    var e3 := e2 + [Move(0, Died)];
    var e4 := e3 + [Recover];
    RunMore(env, w, e0, Move(0, LOST));
    RunMore(env, w, e1, Move(0, LOST));
    RunMore(env, w, e2, Move(0, Died));
    RunMore(env, w, e3, Recover);
    RunMore(env, w, e4, Move(1, ACK));
    assert Run(env, w, e1).agents == [UNLOCKING];
    assert Run(env, w, e2).agents == [FAILING];
    assert Run(env, w, e3).agents == [GONE];
    assert Run(env, w, e4).agents == [GONE, DEBITING];
    assert e4 + [Move(1, ACK)] == LOST_WAIT;
  }

  /**
   At most one of debit and unlock takes effect, over all runs, if and only if waiting for the receipt of a transaction
   that succeeds never throws.
   */
  lemma NeverBothIff(env: Environment, w: Withdrawal)
    requires Initial(w)
    ensures NeverBoth(env, w) <==> !(w.terms.receipt && env.waitMayThrow)
  {
    if w.terms.receipt && env.waitMayThrow {
      RunToRecorded(env, w);
      BothAfterLostWait(env, Run(env, w, SENT_AND_RECORDED));
      RunConcat(env, w, SENT_AND_RECORDED, LOST_WAIT);
      assert Run(env, w, SENT_AND_RECORDED + LOST_WAIT).unlocked;
    } else {
      forall events: seq<Event> ensures !(Run(env, w, events).debited && Run(env, w, events).unlocked) {
        RunKeepsSound(env, w, events);
        RunKeepsDecided(env, w, events);
      }
    }
  }

  const UNLOCK_ANYWAY: seq<Event> := [] + [Move(0, LOST)] + [Move(0, LOST)]

  /** Giving up on a sent transaction, before or after its hash is stored, unlocks its funds. */
  lemma GivingUpUnlocks(env: Environment, w: Withdrawal)
    requires w.broadcasts == 1
    requires (w.agents == [WAITING] && env.waitMayThrow) || (w.agents == [SENT] && env.recordMayThrow)
    ensures Run(env, w, UNLOCK_ANYWAY).unlocked && Run(env, w, UNLOCK_ANYWAY).broadcasts == 1
  {
    var e0: seq<Event> := [];
    var e1 := e0 + [Move(0, LOST)];
    RunMore(env, w, e0, Move(0, LOST));
    RunMore(env, w, e1, Move(0, LOST));
    assert Run(env, w, e1).agents == [UNLOCKING];
    assert e1 + [Move(0, LOST)] == UNLOCK_ANYWAY;
  }

  const SEND_LOST: seq<Event> := INSERTED + [Claim] + [Move(0, LOST)] + [Move(0, LOST)]

  /** The chain takes the transaction, the send throws, and the funds are unlocked. */
  lemma LostSendUnlocks(env: Environment, w: Withdrawal)
    requires Initial(w) && env.sendMayThrow
    ensures Run(env, w, SEND_LOST).unlocked && Run(env, w, SEND_LOST).broadcasts == 1
  {
    var e1 := INSERTED + [Claim];
    var e2 := e1 + [Move(0, LOST)];
    RunToInserted(env, w);
    RunMore(env, w, INSERTED, Claim);
    RunMore(env, w, e1, Move(0, LOST));
    RunMore(env, w, e2, Move(0, LOST));
    assert Run(env, w, e1).agents == [CLAIMED];
    assert Run(env, w, e2).agents == [UNLOCKING];
  }

  /** A lost wait, a failed write of the hash, or a lost send unlocks the funds of a transaction that then succeeds. */
  lemma UnlockedAlthoughSent(env: Environment, w: Withdrawal)
    requires Initial(w) && w.terms.receipt && MayThrow(env)
    ensures exists events: seq<Event> :: Run(env, w, events).unlocked && Run(env, w, events).broadcasts == 1
  {
    if env.waitMayThrow {
      RunToRecorded(env, w);
      GivingUpUnlocks(env, Run(env, w, SENT_AND_RECORDED));
      RunConcat(env, w, SENT_AND_RECORDED, UNLOCK_ANYWAY);
      assert Run(env, w, SENT_AND_RECORDED + UNLOCK_ANYWAY).unlocked;
    } else if env.sendMayThrow {
      LostSendUnlocks(env, w);
    } else {
      RunToSent(env, w);
      GivingUpUnlocks(env, Run(env, w, SENT_ONLY));
      RunConcat(env, w, SENT_ONLY, UNLOCK_ANYWAY);
      assert Run(env, w, SENT_ONLY + UNLOCK_ANYWAY).unlocked;
    }
  }

  /**
   The effect matches the receipt, over all runs, if and only if for a transaction that succeeds neither storing its hash
   nor waiting for its receipt throws, nor sending it once the chain took it.
   */
  lemma MatchesReceiptIff(env: Environment, w: Withdrawal)
    requires Initial(w)
    ensures AlwaysMatchesReceipt(env, w)
       <==> !(w.terms.receipt && (env.waitMayThrow || env.recordMayThrow || env.sendMayThrow))
  {
    if w.terms.receipt && MayThrow(env) {
      UnlockedAlthoughSent(env, w);
      var events: seq<Event> :| Run(env, w, events).unlocked && Run(env, w, events).broadcasts == 1;
      RunKeepsSound(env, w, events);
    } else {
      forall events: seq<Event>
        ensures var r := Run(env, w, events);
                (r.debited ==> r.terms.receipt) && (r.unlocked && r.broadcasts == 1 ==> !r.terms.receipt)
      {
        RunKeepsSound(env, w, events);
        RunKeepsTruthful(env, w, events);
      }
    }
  }

  // ---------------------------------------------------------------------------------------------------------
  // Is an inserted request still funded?
  // ---------------------------------------------------------------------------------------------------------

  /** The row exists and its lock is still there: taken, and not given back by an attempt's compensation. */
  predicate Funded(w: Withdrawal)
  {
    w.status != REQUESTED ==> w.locked && !w.compensated
  }

  ghost predicate AlwaysFunded(env: Environment, w: Withdrawal)
  {
    forall events: seq<Event> :: Funded(Run(env, w, events))
  }

  lemma {:induction false} RunKeepsOrderly(env: Environment, w: Withdrawal, events: seq<Event>)
    requires Initial(w) && !env.keyReusedAfterCompensation && !env.concurrentRequests
    ensures Orderly(Run(env, w, events))
  {
    if events != [] {
      RunKeepsOrderly(env, w, events[..|events| - 1]);
      RunKeepsSound(env, w, events[..|events| - 1]);
      StepKeepsOrderly(env, Run(env, w, events[..|events| - 1]), events[|events| - 1]);
    }
  }

  const REUSED: seq<Event> :=
    LOCKED + [InsertCall(0, false)] + [CompensateCall(0, true)] + [Start] + [LockCall(1, true, false)]
    + [InsertCall(1, true)]

  /** The insert fails, the lock is given back, and the repeated request mistakes the replayed lock for its own. */
  lemma ReuseLosesFunding(env: Environment, w: Withdrawal)
    requires Initial(w) && env.keyReusedAfterCompensation
    ensures Run(env, w, REUSED)
         == w.(status := PENDING, locked := true, insertFailed := true, compensated := true, attempts := [ENDED, ENDED])
  {
    var e1 := LOCKED + [InsertCall(0, false)];
    var e2 := e1 + [CompensateCall(0, true)];
    var e3 := e2 + [Start];
    var e4 := e3 + [LockCall(1, true, false)];
    RunToLocked(env, w);
    RunMore(env, w, LOCKED, InsertCall(0, false));
    RunMore(env, w, e1, CompensateCall(0, true));
    RunMore(env, w, e2, Start);
    RunMore(env, w, e3, LockCall(1, true, false));
    RunMore(env, w, e4, InsertCall(1, true));
    assert Run(env, w, e3).attempts == [ENDED, CHECKED];
    assert Run(env, w, e4).attempts == [ENDED, SECURED];
  }

  const RACED: seq<Event> :=
    NOTHING + [Start] + [Start] + [LockCall(0, true, true)] + [LockCall(1, true, false)] + [InsertCall(0, true)]
    + [InsertCall(1, true)] + [CompensateCall(1, true)]

  /** Two attempts pass the check, one locks and inserts, the other replays the lock, fails to insert, and unlocks. */
  lemma RaceLosesFunding(env: Environment, w: Withdrawal)
    requires Initial(w) && env.concurrentRequests
    ensures Run(env, w, RACED)
         == w.(status := PENDING, locked := true, insertFailed := true, compensated := true, attempts := [ENDED, ENDED])
  {
    var e1 := NOTHING + [Start];
    var e2 := e1 + [Start];
    var e3 := e2 + [LockCall(0, true, true)];
    var e4 := e3 + [LockCall(1, true, false)];
    var e5 := e4 + [InsertCall(0, true)];
    var e6 := e5 + [InsertCall(1, true)];
    RunMore(env, w, NOTHING, Start);
    RunMore(env, w, e1, Start);
    RunMore(env, w, e2, LockCall(0, true, true));
    RunMore(env, w, e3, LockCall(1, true, false));
    RunMore(env, w, e4, InsertCall(0, true));
    RunMore(env, w, e5, InsertCall(1, true));
    RunMore(env, w, e6, CompensateCall(1, true));
    assert Run(env, w, e2) == w.(attempts := [CHECKED, CHECKED]);
    assert Run(env, w, e4) == w.(locked := true, attempts := [SECURED, SECURED]);
    assert Run(env, w, e6)
        == w.(status := PENDING, locked := true, insertFailed := true, attempts := [ENDED, COMPENSATING]);
  }

  /**
   An inserted withdrawal is backed by its lock in every run if and only if the client starts no attempt of a key while
   another is in flight, and none after one whose insert failed. The lock call reports success in both cases, because it
   replays the recorded lock.
   */
  lemma FundedIff(env: Environment, w: Withdrawal)
    requires Initial(w)
    ensures AlwaysFunded(env, w) <==> !(env.keyReusedAfterCompensation || env.concurrentRequests)
  {
    if env.keyReusedAfterCompensation {
      ReuseLosesFunding(env, w);
      assert !Funded(Run(env, w, REUSED));
    } else if env.concurrentRequests {
      RaceLosesFunding(env, w);
      assert !Funded(Run(env, w, RACED));
    } else {
      forall events: seq<Event> ensures Funded(Run(env, w, events)) {
        RunKeepsSound(env, w, events);
        RunKeepsOrderly(env, w, events);
      }
    }
  }
}
