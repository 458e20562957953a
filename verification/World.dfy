/** The shared database together with the processes that use it. The ghost state machine runs along
    with the code: other processes may act between any two calls of the process at hand, and each
    of its own calls is recorded as one step. */
module Worlds {
  import opened Protocol
  import opened Stores
  import opened Effects

  /** A client of `Enqueue` makes one call only and keeps nothing between calls. */
  datatype Role = WorkerRole(i: nat) | RetrierRole(j: nat) | SyncerRole(k: nat) | Client

  predicate Mine(role: Role, a: Action)
  {
    match role
    case WorkerRole(i) => a.Work? && a.i == i
    case RetrierRole(j) => a.Retry? && a.j == j
    case SyncerRole(k) => a.Sync? && a.k == k
    case Client => false
  }

  ghost predicate Exists(s: State, role: Role)
  {
    match role
    case WorkerRole(i) => i < |s.workers|
    case RetrierRole(j) => j < |s.retriers|
    case SyncerRole(k) => k < |s.syncers|
    case Client => true
  }

  /** The process keeps its program counter and its local variables. */
  ghost predicate Undisturbed(s: State, t: State, role: Role)
    requires Exists(s, role)
  {
    Exists(t, role) &&
    match role
    case WorkerRole(i) => t.workers[i] == s.workers[i]
    case RetrierRole(j) => t.retriers[j] == s.retriers[j]
    case SyncerRole(k) => t.syncers[k] == s.syncers[k]
    case Client => true
  }

  lemma {:induction false} OthersKeepMine(c: Config, s: State, acts: seq<Action>, t: State, role: Role)
    requires Run(c, s, acts, t) && Exists(s, role)
    requires forall k :: 0 <= k < |acts| ==> !Mine(role, acts[k])
    ensures Undisturbed(s, t, role)
    decreases |acts|
  {
    if acts == [] {
    } else {
      OthersKeepMine(c, Apply(c, s, acts[0]), acts[1..], t, role);
    }
  }

  /** Router calls are only ever added, and rows stay. */
  ghost predicate Grows(s: State, t: State)
  {
    s.calls <= t.calls && s.txs.Keys <= t.txs.Keys
  }

  /** ... with their envelopes. */
  ghost predicate Later(s: State, t: State)
  {
    Grows(s, t) && forall id :: id in s.txs ==> id in t.txs && t.txs[id].envelope == s.txs[id].envelope
  }

  lemma StepLater(c: Config, s: State, a: Action)
    requires Enabled(c, s, a)
    ensures Later(s, Apply(c, s, a))
  {
    forall id | id in s.txs
      ensures id in Apply(c, s, a).txs && Apply(c, s, a).txs[id].envelope == s.txs[id].envelope
    {
      match a
      case Work(i, work) => WorkRow(c, s, i, work, id);
      case Retry(j, retry) => RetryEffects(c, s, j, retry, id);
      case _ => OtherEffect(c, s, a, id);
    }
    match a
    case Work(i, work) => WorkCalls(c, s, i, work);
    case Retry(j, retry) => RetryEffects(c, s, j, retry, 0);
    case _ => OtherEffect(c, s, a, 0);
  }

  lemma {:induction false} RunLater(c: Config, s: State, acts: seq<Action>, t: State)
    requires Run(c, s, acts, t)
    ensures Later(s, t)
    decreases |acts|
  {
    if acts == [] {
    } else {
      StepLater(c, s, acts[0]);
      RunLater(c, Apply(c, s, acts[0]), acts[1..], t);
    }
  }

  // ----- a process's own part of a run -----

  function OwnSteps(role: Role, acts: seq<Action>): seq<Action>
  {
    if acts == [] then []
    else
      var last := acts[|acts| - 1];
      OwnSteps(role, acts[..|acts| - 1]) + if Mine(role, last) then [last] else []
  }

  lemma OwnSnoc(role: Role, acts: seq<Action>, a: Action)
    ensures OwnSteps(role, acts + [a]) == OwnSteps(role, acts) + if Mine(role, a) then [a] else []
  {
    assert (acts + [a])[..|acts|] == acts;
  }

  lemma {:induction false} OwnUnchanged(role: Role, acts: seq<Action>, longer: seq<Action>)
    requires acts <= longer && forall k :: |acts| <= k < |longer| ==> !Mine(role, longer[k])
    ensures OwnSteps(role, longer) == OwnSteps(role, acts)
    decreases |longer|
  {
    if longer == acts {
    } else {
      OwnUnchanged(role, acts, longer[..|longer| - 1]);
    }
  }

  /** The store did every one of the steps. */
  predicate AllAcknowledged(steps: seq<Action>)
  {
    forall k :: 0 <= k < |steps| ==> Acknowledged(steps[k])
  }

  lemma StepsJoin(own: seq<Action>, steps: seq<Action>, more: seq<Action>)
    ensures own + steps + more == own + (steps + more)
    ensures AllAcknowledged(steps) && AllAcknowledged(more) ==> AllAcknowledged(steps + more)
  {
  }

  class World {
    const store: Store
    const config: Config
    /** No other process acts between the calls. */
    const alone: bool
    /** The state of the machine at the start, what happened since, and the state now. */
    ghost const origin: State
    ghost var run: seq<Action>
    ghost var m: State

    constructor (store: Store, config: Config, alone: bool, ghost m: State)
      requires m.txs == store.transactions && m.accounts == store.accounts
      ensures Valid() && run == [] && this.origin == this.m == m
      ensures this.store == store && this.config == config && this.alone == alone
    {
      this.store, this.config, this.alone, this.origin, this.run, this.m := store, config, alone, m, [], m;
    }

    /** The tables are those of the machine, and what happened is a run of it. */
    ghost predicate Valid()
      reads this, store
    {
      m.txs == store.transactions && m.accounts == store.accounts && Run(config, origin, run, m)
    }

    /** What this process did. */
    ghost function Own(role: Role): seq<Action>
      reads this
    {
      OwnSteps(role, run)
    }

    /** Since the run had come to `past` and the state was `s`, it went on to the state now. */
    ghost predicate WentOn(s: State, past: seq<Action>)
      reads this
    {
      past <= run && Run(config, s, run[|past|..], m)
    }

    /** Nobody interferes and every store call succeeds. */
    predicate Calm()
    {
      alone && store.reliable
    }

    lemma GoneOn(s: State, past: seq<Action>)
      requires Valid() && past <= run && Run(config, origin, past, s)
      ensures WentOn(s, past)
    {
      assert run == past + run[|past|..];
      RunSplit(config, origin, past, s, run[|past|..], m);
    }

    lemma LaterSince(s: State, past: seq<Action>)
      requires Valid() && past <= run && Run(config, origin, past, s)
      ensures Later(s, m)
    {
      GoneOn(s, past);
      RunLater(config, s, run[|past|..], m);
    }

    /** Since the run was `past` and the process had done `own`, it has done `steps`, which a reliable store
        has acknowledged. */
    ghost predicate Did(role: Role, past: seq<Action>, own: seq<Action>, steps: seq<Action>)
      reads this
    {
      past <= run && Own(role) == own + steps && (store.reliable ==> AllAcknowledged(steps))
    }

    /** Whatever other processes do meanwhile. The body does nothing; callers may rely on no more than
        the contract, which allows any run of actions by others. */
    method Others(ghost role: Role)
      requires Valid()
      modifies this, store
      ensures Valid() && WentOn(old(m), old(run))
      ensures forall k :: |old(run)| <= k < |run| ==> !Mine(role, run[k])
      ensures alone ==> m == old(m) && run == old(run)
    {
    }

    /** Lets others act. */
    method Yield(ghost role: Role)
      requires Valid() && Exists(m, role)
      modifies this, store
      ensures Valid() && old(run) <= run && Own(role) == old(Own(role))
      ensures Undisturbed(old(m), m, role) && Grows(old(m), m)
      ensures alone ==> m == old(m) && run == old(run)
    {
      Others(role);
      OwnUnchanged(role, old(run), run);
      OthersKeepMine(config, old(m), run[|old(run)|..], m, role);
      RunLater(config, old(m), run[|old(run)|..], m);
    }

    /** Records one step of our own. */
    ghost method Do(role: Role, a: Action)
      requires Run(config, origin, run, m) && Enabled(config, m, a)
      modifies this`m, this`run
      ensures m == Apply(config, old(m), a) && run == old(run) + [a] && Run(config, origin, run, m)
      ensures Own(role) == old(Own(role)) + if Mine(role, a) then [a] else []
      ensures Grows(old(m), m)
    {
      RunSnoc(config, origin, run, m, a);
      OwnSnoc(role, run, a);
      StepLater(config, m, a);
      run := run + [a];
      m := Apply(config, m, a);
    }
  }
}
