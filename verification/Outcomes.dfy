/** What the status of a transaction means: `confirmed` is earned by an accepted router call, and
    the exact conditions under which `confirmed` and `submitting` can still change. */
module Outcomes {
  import opened Base
  import opened Tables
  import opened Protocol
  import opened Effects

  predicate HasStatus(s: State, t: TxId, status: TxStatus)
  {
    t in s.txs && s.txs[t].status == status
  }

  // ----- confirmed rows were accepted -----

  /** A batch sends the row's envelope, a retry its fee bump. */
  predicate EnvelopeOf(c: Config, row: TxRow, envelope: Envelope, retry: bool)
  {
    if retry then c.feeBump(row.envelope) == Some(envelope) else envelope == row.envelope
  }

  /** The call sent what its kind of caller sends, and ended as the router may end. */
  predicate CallGenuine(c: Config, s: State, call: Call)
  {
    && call.tx in s.txs && EnvelopeOf(c, s.txs[call.tx], call.envelope, call.retry)
    && MayEnd(c, call.envelope, call.outcome, call.sends)
  }

  ghost predicate AcceptedCall(c: Config, s: State, t: TxId)
  {
    exists k | 0 <= k < |s.calls| ::
      s.calls[k].tx == t && s.calls[k].outcome == Accepted && CallGenuine(c, s, s.calls[k])
  }

  predicate AnsweredOutcome(w: Worker, errored: bool)
  {
    (w.Answered? || w.Stamped? || w.Released?) && w.outcome.Errored? == errored
  }

  /** What a worker carries for `t` stems from the row and from the router. */
  ghost predicate WorkerGenuine(c: Config, s: State, w: Worker, t: TxId)
  {
    !w.Waiting? && w.tx == t ==>
      && t in s.txs
      && (w.Fetched? || w.Marked? || w.Holding? || w.Sequenced? ==> w.envelope == s.txs[t].envelope)
      && (AnsweredOutcome(w, false) ==> Reaches(c, s.txs[t].envelope))
      && (HasAccepted(w) ==> AcceptedCall(c, s, t))
  }

  ghost predicate RetrierGenuine(c: Config, s: State, r: Retrier, t: TxId)
  {
    !r.Ready? && r.tx == t ==>
      && t in s.txs
      && (r.Gated? ==> r.envelope == s.txs[t].envelope)
      && (r.Counted? || r.Remarked? ==> c.feeBump(s.txs[t].envelope) == Some(r.envelope))
      && (r.Judged? && r.outcome == Accepted ==> AcceptedCall(c, s, t))
  }

  ghost predicate Genuine(c: Config, s: State, t: TxId)
  {
    && (forall i | 0 <= i < |s.workers| :: WorkerGenuine(c, s, s.workers[i], t))
    && (forall j | 0 <= j < |s.retriers| :: RetrierGenuine(c, s, s.retriers[j], t))
    && (forall k | 0 <= k < |s.calls| :: s.calls[k].tx == t ==> CallGenuine(c, s, s.calls[k]))
    && (HasStatus(s, t, Confirmed) ==> AcceptedCall(c, s, t))
  }

  /** Accepted calls are never forgotten. */
  lemma CallsKept(c: Config, s: State, u: State, t: TxId)
    requires AcceptedCall(c, s, t) && s.calls <= u.calls
    requires t in s.txs ==> t in u.txs && SameOrigin(s.txs[t], u.txs[t])
    ensures AcceptedCall(c, u, t)
  {
    var k :| 0 <= k < |s.calls| && s.calls[k].tx == t && s.calls[k].outcome == Accepted &&
      CallGenuine(c, s, s.calls[k]);
    assert u.calls[k] == s.calls[k];
  }

  lemma GenuineFrame(c: Config, s: State, u: State, t: TxId)
    requires Genuine(c, s, t) && s.calls <= u.calls
    requires t in s.txs ==> t in u.txs && SameOrigin(s.txs[t], u.txs[t])
    ensures forall i | 0 <= i < |s.workers| :: WorkerGenuine(c, u, s.workers[i], t)
    ensures forall j | 0 <= j < |s.retriers| :: RetrierGenuine(c, u, s.retriers[j], t)
    ensures AcceptedCall(c, s, t) ==> AcceptedCall(c, u, t)
    ensures forall k | 0 <= k < |s.calls| :: s.calls[k].tx == t ==> CallGenuine(c, u, s.calls[k])
  {
    if AcceptedCall(c, s, t) {
      CallsKept(c, s, u, t);
    }
    assert forall i | 0 <= i < |s.workers| :: WorkerGenuine(c, s, s.workers[i], t);
    assert forall j | 0 <= j < |s.retriers| :: RetrierGenuine(c, s, s.retriers[j], t);
  }

  lemma WorkGenuine(c: Config, s: State, i: nat, x: WorkerStep, t: TxId)
    requires Enabled(c, s, Work(i, x)) && Genuine(c, s, t)
    ensures Genuine(c, Apply(c, s, Work(i, x)), t)
  {
    var u := Apply(c, s, Work(i, x));
    var w := s.workers[i];
    WorkEffect(c, s, i, x, t);
    GenuineFrame(c, s, u, t);
    assert WorkerGenuine(c, s, w, t) && WorkerGenuine(c, u, w, t);
    assert WorkerGenuine(c, u, u.workers[i], t) by {
      if x.Submit? && w.tx == t && x.outcome == Accepted {
        assert u.calls[|s.calls|] == Call(t, w.envelope, Accepted, x.sends, false);
      }
    }
    assert forall j | 0 <= j < |s.workers| && j != i :: u.workers[j] == s.workers[j];
  }

  lemma RetryGenuine(c: Config, s: State, j: nat, x: RetryStep, t: TxId)
    requires Enabled(c, s, Retry(j, x)) && Genuine(c, s, t)
    ensures Genuine(c, Apply(c, s, Retry(j, x)), t)
  {
    var u := Apply(c, s, Retry(j, x));
    var r := s.retriers[j];
    RetryEffects(c, s, j, x, t);
    GenuineFrame(c, s, u, t);
    assert RetrierGenuine(c, s, r, t) && RetrierGenuine(c, u, r, t);
    assert RetrierGenuine(c, u, u.retriers[j], t) by {
      if x.Resubmit? && r.tx == t && x.outcome == Accepted {
        assert u.calls[|s.calls|] == Call(t, r.envelope, Accepted, x.sends, true);
      }
    }
    assert forall k | 0 <= k < |s.retriers| && k != j :: u.retriers[k] == s.retriers[k];
  }

  lemma {:induction false} RunGenuine(c: Config, s: State, acts: seq<Action>, u: State, t: TxId)
    requires Run(c, s, acts, u) && Genuine(c, s, t)
    ensures Genuine(c, u, t)
    decreases |acts|
  {
    if acts == [] {
    } else {
      match acts[0] {
        case Work(i, x) => WorkGenuine(c, s, i, x, t);
        case Retry(j, x) => RetryGenuine(c, s, j, x, t);
        case _ =>
          OtherEffect(c, s, acts[0], t);
          GenuineFrame(c, s, Apply(c, s, acts[0]), t);
      }
      RunGenuine(c, Apply(c, s, acts[0]), acts[1..], u, t);
    }
  }

  /** In every reachable state a confirmed transaction was accepted by the router: its own envelope
      or its fee bump went to Horizon and came back without an error or a rejection. */
  lemma ConfirmedWasAccepted(c: Config, s: State, acts: seq<Action>, u: State, t: TxId)
    requires Initial(s) && Run(c, s, acts, u) && HasStatus(u, t, Confirmed)
    ensures AcceptedCall(c, u, t)
  {
    RunGenuine(c, s, acts, u, t);
  }

  /** Since a successful Soroban send is reported as an error, a batch never gets anything but an
      error for an envelope that is routed to Soroban, whatever the network answers and wherever its
      fee bump goes; such a transaction is confirmed only by a retry whose fee bump goes to Horizon. */
  lemma SorobanBatchErrs(c: Config, s: State, acts: seq<Action>, u: State, t: TxId)
    requires Initial(s) && Run(c, s, acts, u) && t in u.txs && c.route(u.txs[t].envelope) == Soroban
    ensures forall k | 0 <= k < |u.calls| :: u.calls[k].tx == t && !u.calls[k].retry ==> u.calls[k].outcome.Errored?
    ensures forall i | 0 <= i < |u.workers| :: WorkerHolds(u.workers[i], t) ==> !AnsweredOutcome(u.workers[i], false)
    ensures HasStatus(u, t, Confirmed) ==>
      var bump := c.feeBump(u.txs[t].envelope);
      && bump.Some? && Reaches(c, bump.value)
      && exists k | 0 <= k < |u.calls| :: u.calls[k].tx == t && u.calls[k].retry && u.calls[k].outcome == Accepted
  {
    RunGenuine(c, s, acts, u, t);
    forall i | 0 <= i < |u.workers| && WorkerHolds(u.workers[i], t)
      ensures !AnsweredOutcome(u.workers[i], false)
    {
      assert WorkerGenuine(c, u, u.workers[i], t);
    }
  }

  /** A transaction that is routed to Soroban, as it stands and fee bumped, is never confirmed. */
  lemma SorobanNeverConfirmed(c: Config, s: State, acts: seq<Action>, u: State, t: TxId)
    requires Initial(s) && Run(c, s, acts, u) && t in u.txs
    requires forall envelope, retry :: EnvelopeOf(c, u.txs[t], envelope, retry) ==> c.route(envelope) == Soroban
    ensures u.txs[t].status != Confirmed
  {
    if u.txs[t].status == Confirmed {
      assert EnvelopeOf(c, u.txs[t], u.txs[t].envelope, false);
      SorobanBatchErrs(c, s, acts, u, t);
      assert EnvelopeOf(c, u.txs[t], c.feeBump(u.txs[t].envelope).value, true);
      assert false;
    }
  }

  // ----- when a status is final -----

  ghost predicate Forever(c: Config, s: State, t: TxId, status: TxStatus)
  {
    forall acts, u :: Run(c, s, acts, u) ==> HasStatus(u, t, status)
  }

  /** The router has accepted what this worker carries. */
  predicate HasAccepted(w: Worker)
  {
    (w.Answered? || w.Stamped? || w.Released?) && w.outcome == Accepted
  }

  /** A worker that holds `t` at all will, if left alone, write `failed` or `confirmed`. */
  predicate WorkerHolds(w: Worker, t: TxId)
  {
    !w.Waiting? && w.tx == t
  }

  /** A retrier that may still change the status away from `confirmed`. */
  predicate RetrierUnsettles(c: Config, r: Retrier, t: TxId)
  {
    !r.Ready? && r.tx == t &&
    match r
    case Gated(_, envelope) => c.feeBump(envelope).Some?
    case Counted(_, _) => true
    case Remarked(_, envelope) => Reaches(c, envelope)
    case Judged(_, outcome) => outcome != Accepted
  }

  ghost predicate Threatened(c: Config, s: State, t: TxId)
  {
    || (exists i | 0 <= i < |s.workers| :: WorkerHolds(s.workers[i], t) && !HasAccepted(s.workers[i]))
    || (exists j | 0 <= j < |s.retriers| :: RetrierUnsettles(c, s.retriers[j], t))
  }

  lemma StepUnthreatened(c: Config, s: State, x: Action, t: TxId)
    requires Enabled(c, s, x) && HasStatus(s, t, Confirmed) && !Threatened(c, s, t)
    ensures HasStatus(Apply(c, s, x), t, Confirmed) && !Threatened(c, Apply(c, s, x), t)
  {
    var u := Apply(c, s, x);
    match x
    case Work(i, work) =>
      WorkEffect(c, s, i, work, t);
      assert !(WorkerHolds(s.workers[i], t) && !HasAccepted(s.workers[i]));
      assert forall j | 0 <= j < |s.workers| && j != i :: u.workers[j] == s.workers[j];
    case Retry(j, retry) =>
      RetryEffects(c, s, j, retry, t);
      assert !RetrierUnsettles(c, s.retriers[j], t);
      assert forall k | 0 <= k < |s.retriers| && k != j :: u.retriers[k] == s.retriers[k];
    case _ => OtherEffect(c, s, x, t);
  }

  lemma {:induction false} RunUnthreatened(c: Config, s: State, acts: seq<Action>, u: State, t: TxId)
    requires Run(c, s, acts, u) && HasStatus(s, t, Confirmed) && !Threatened(c, s, t)
    ensures HasStatus(u, t, Confirmed)
    decreases |acts|
  {
    if acts == [] {
    } else {
      StepUnthreatened(c, s, acts[0], t);
      RunUnthreatened(c, Apply(c, s, acts[0]), acts[1..], u, t);
    }
  }

  function StepsLeft(w: Worker): nat
  {
    match w
    case Waiting => 0
    case Fetched(_, _) => 7
    case Marked(_, _) => 6
    case NoAccount(_) => 1
    case Holding(_, _, _, _) => 5
    case Sequenced(_, _, _) => 4
    case Answered(_, _, _) => 3
    case Stamped(_, _, _, _) => 2
    case Released(_, _, _) => 1
  }

  /** A step that brings a worker closer to its terminal write without an accepted call. */
  function Onward(w: Worker): WorkerStep
    requires !w.Waiting?
  {
    match w
    case Fetched(_, _) => Mark(Done)
    case Marked(_, _) => LeaseFails
    case NoAccount(_) => FailUnleased(Done)
    case Holding(_, _, _, _) => WriteSequence(Done)
    case Sequenced(_, _, _) => Submit(Errored(""), 0)
    case Answered(_, _, _) => Stamp(0)
    case Stamped(_, _, _, _) => Release(Done)
    case Released(_, _, _) => Finish(Done)
  }

  /** From any program counter a worker can reach its terminal write, and write what it has. */
  lemma {:induction false} WorkerCanSettle(c: Config, s: State, i: nat) returns (acts: seq<Action>, u: State)
    requires i < |s.workers| && !s.workers[i].Waiting? && s.workers[i].tx in s.txs
    ensures Run(c, s, acts, u)
    ensures HasStatus(u, s.workers[i].tx, if HasAccepted(s.workers[i]) then Confirmed else Failed)
    ensures SameOrigin(s.txs[s.workers[i].tx], u.txs[s.workers[i].tx]) && u.workers == s.workers[i := Waiting]
    decreases StepsLeft(s.workers[i])
  {
    var a := Work(i, Onward(s.workers[i]));
    var v := Apply(c, s, a);
    if v.workers[i].Waiting? {
      acts, u := [a], v;
      assert Run(c, v, acts[1..], v);
    } else {
      var rest;
      rest, u := WorkerCanSettle(c, v, i);
      acts := [a] + rest;
      assert acts[1..] == rest;
    }
  }

  /** A retrier past its gate can mark the row again; past that it can be told of a rejection. */
  lemma {:induction false} RetrierCanUnsettle(c: Config, s: State, j: nat) returns (acts: seq<Action>, u: State)
    requires j < |s.retriers| && !s.retriers[j].Ready? && s.retriers[j].tx in s.txs
    requires RetrierUnsettles(c, s.retriers[j], s.retriers[j].tx)
    ensures Run(c, s, acts, u)
    ensures s.retriers[j].tx in u.txs && u.txs[s.retriers[j].tx].status != Confirmed
    decreases if s.retriers[j].Gated? || s.retriers[j].Remarked? then 1 else 0
  {
    var r := s.retriers[j];
    var a := Retry(j,
      match r
      case Gated(_, _) => Increment(Done)
      case Counted(_, _) => Remark(Done)
      case Remarked(_, _) => Resubmit(Rejected, 1)
      case Judged(_, _) => Conclude(Done));
    var v := Apply(c, s, a);
    if r.Gated? || r.Remarked? {
      var rest;
      rest, u := RetrierCanUnsettle(c, v, j);
      acts := [a] + rest;
      assert acts[1..] == rest;
    } else {
      acts, u := [a], v;
      assert Run(c, v, acts[1..], v);
    }
  }

  /** A confirmed transaction stays confirmed in every continuation if and only if no worker holds
      it short of an accepted answer and no retrier can still write another status. */
  lemma ConfirmedFinalIff(c: Config, s: State, t: TxId)
    requires HasStatus(s, t, Confirmed)
    ensures Forever(c, s, t, Confirmed) <==> !Threatened(c, s, t)
  {
    if Threatened(c, s, t) {
      if i :| 0 <= i < |s.workers| && WorkerHolds(s.workers[i], t) && !HasAccepted(s.workers[i]) {
        var acts, u := WorkerCanSettle(c, s, i);
        assert Run(c, s, acts, u) && !HasStatus(u, t, Confirmed);
      } else {
        var j :| 0 <= j < |s.retriers| && RetrierUnsettles(c, s.retriers[j], t);
        var acts, u := RetrierCanUnsettle(c, s, j);
        assert Run(c, s, acts, u) && !HasStatus(u, t, Confirmed);
      }
    } else {
      forall acts, u | Run(c, s, acts, u)
        ensures HasStatus(u, t, Confirmed)
      {
        RunUnthreatened(c, s, acts, u, t);
      }
    }
  }

  // ----- when `submitting` is a dead end -----

  /** A retrier that may still write a terminal status: its envelope, once bumped, goes to Horizon. */
  predicate RetrierSettles(c: Config, r: Retrier, t: TxId)
  {
    !r.Ready? && r.tx == t &&
    match r
    case Gated(_, envelope) => c.feeBump(envelope).Some? && Reaches(c, c.feeBump(envelope).value)
    case Counted(_, envelope) => Reaches(c, envelope)
    case Remarked(_, envelope) => Reaches(c, envelope)
    case Judged(_, _) => true
  }

  /** Somebody can still settle `t`: any worker that read it, or a retrier bound for Horizon. */
  ghost predicate Attended(c: Config, s: State, t: TxId)
  {
    || (exists i | 0 <= i < |s.workers| :: WorkerHolds(s.workers[i], t))
    || (exists j | 0 <= j < |s.retriers| :: RetrierSettles(c, s.retriers[j], t))
  }

  lemma StepUnattended(c: Config, s: State, x: Action, t: TxId)
    requires Enabled(c, s, x) && HasStatus(s, t, Submitting) && !Attended(c, s, t)
    ensures HasStatus(Apply(c, s, x), t, Submitting) && !Attended(c, Apply(c, s, x), t)
  {
    var u := Apply(c, s, x);
    match x
    case Work(i, work) =>
      WorkEffect(c, s, i, work, t);
      assert !WorkerHolds(s.workers[i], t);
      assert forall j | 0 <= j < |s.workers| && j != i :: u.workers[j] == s.workers[j];
    case Retry(j, retry) =>
      RetryEffects(c, s, j, retry, t);
      assert !RetrierSettles(c, s.retriers[j], t);
      assert forall k | 0 <= k < |s.retriers| && k != j :: u.retriers[k] == s.retriers[k];
    case _ => OtherEffect(c, s, x, t);
  }

  lemma {:induction false} RunUnattended(c: Config, s: State, acts: seq<Action>, u: State, t: TxId)
    requires Run(c, s, acts, u) && HasStatus(s, t, Submitting) && !Attended(c, s, t)
    ensures HasStatus(u, t, Submitting)
    decreases |acts|
  {
    if acts == [] {
    } else {
      StepUnattended(c, s, acts[0], t);
      RunUnattended(c, Apply(c, s, acts[0]), acts[1..], u, t);
    }
  }

  lemma {:induction false} RetrierCanFail(c: Config, s: State, j: nat) returns (acts: seq<Action>, u: State)
    requires j < |s.retriers| && !s.retriers[j].Ready? && s.retriers[j].tx in s.txs
    requires RetrierSettles(c, s.retriers[j], s.retriers[j].tx)
    ensures Run(c, s, acts, u)
    ensures s.retriers[j].tx in u.txs && u.txs[s.retriers[j].tx].status in {Failed, Confirmed}
    decreases var r := s.retriers[j];
      if r.Gated? then 3 else if r.Counted? then 2 else if r.Remarked? then 1 else 0
  {
    var r := s.retriers[j];
    var a := Retry(j,
      match r
      case Gated(_, _) => Increment(Done)
      case Counted(_, _) => Remark(Done)
      case Remarked(_, _) => Resubmit(Rejected, 1)
      case Judged(_, _) => Conclude(Done));
    var v := Apply(c, s, a);
    if r.Judged? {
      acts, u := [a], v;
      assert Run(c, v, acts[1..], v);
    } else {
      var rest;
      rest, u := RetrierCanFail(c, v, j);
      acts := [a] + rest;
      assert acts[1..] == rest;
    }
  }

  /** A transaction that is `submitting` is stuck there in every continuation if and only if nobody
      who can still settle it holds it: no fetch and no retry picks up a `submitting` row. */
  lemma SubmittingStuckIff(c: Config, s: State, t: TxId)
    requires HasStatus(s, t, Submitting)
    ensures Forever(c, s, t, Submitting) <==> !Attended(c, s, t)
  {
    if Attended(c, s, t) {
      if i :| 0 <= i < |s.workers| && WorkerHolds(s.workers[i], t) {
        var acts, u := WorkerCanSettle(c, s, i);
        assert Run(c, s, acts, u) && !HasStatus(u, t, Submitting);
      } else {
        var j :| 0 <= j < |s.retriers| && RetrierSettles(c, s.retriers[j], t);
        var acts, u := RetrierCanFail(c, s, j);
        assert Run(c, s, acts, u) && !HasStatus(u, t, Submitting);
      }
    } else {
      forall acts, u | Run(c, s, acts, u)
        ensures HasStatus(u, t, Submitting)
      {
        RunUnattended(c, s, acts, u, t);
      }
    }
  }

  // ----- who owns a `submitting` row -----

  ghost predicate Owned(s: State, t: TxId)
  {
    || (exists i | 0 <= i < |s.workers| :: WorkerHolds(s.workers[i], t) && !s.workers[i].Fetched?)
    || (exists j | 0 <= j < |s.retriers| :: (s.retriers[j].Remarked? || s.retriers[j].Judged?) && s.retriers[j].tx == t)
    || t in s.orphans
  }

  /** No status write goes astray and nobody stops between marking a row and settling it. */
  ghost predicate StrandsNothing(s: State, x: Action)
  {
    match x
    case Work(i, Crash) => i < |s.workers| ==> s.workers[i].Waiting? || s.workers[i].Fetched?
    case Work(_, Mark(reply)) => reply != Lost
    case Work(_, FailUnleased(reply)) => reply != Refused
    case Work(_, Finish(reply)) => reply != Refused
    case Retry(j, Quit) => j < |s.retriers| ==> !s.retriers[j].Remarked? && !s.retriers[j].Judged?
    case Retry(_, Remark(reply)) => reply != Lost
    case Retry(_, Conclude(reply)) => reply != Refused
    case _ => true
  }

  ghost predicate SubmittingOwned(s: State, t: TxId)
  {
    HasStatus(s, t, Submitting) ==> Owned(s, t)
  }

  lemma StepOwned(c: Config, s: State, x: Action, t: TxId)
    requires Enabled(c, s, x) && StrandsNothing(s, x) && SubmittingOwned(s, t)
    ensures SubmittingOwned(Apply(c, s, x), t)
  {
    var u := Apply(c, s, x);
    match x
    case Work(i, work) =>
      WorkEffect(c, s, i, work, t);
      assert u.workers[i] == WorkerAfter(c, s, s.workers[i], work);
      assert forall j | 0 <= j < |s.workers| && j != i :: u.workers[j] == s.workers[j];
    case Retry(j, retry) =>
      RetryEffects(c, s, j, retry, t);
      assert u.retriers[j] == RetrierAfter(c, s, s.retriers[j], retry);
      assert forall k | 0 <= k < |s.retriers| && k != j :: u.retriers[k] == s.retriers[k];
    case _ => OtherEffect(c, s, x, t);
  }

  lemma {:induction false} RunOwned(c: Config, s: State, acts: seq<Action>, u: State, t: TxId)
    requires Run(c, s, acts, u) && Always(c, s, acts, StrandsNothing) && SubmittingOwned(s, t)
    ensures SubmittingOwned(u, t)
    decreases |acts|
  {
    if acts == [] {
    } else {
      StepOwned(c, s, acts[0], t);
      RunOwned(c, Apply(c, s, acts[0]), acts[1..], u, t);
    }
  }

  /** When nothing is stranded, a `submitting` transaction is in a worker's or a retrier's hands, or
      it was left behind by a retry whose router call errored. */
  lemma SubmittingHasOwner(c: Config, s: State, acts: seq<Action>, u: State, t: TxId)
    requires Initial(s) && Run(c, s, acts, u) && Always(c, s, acts, StrandsNothing)
    requires HasStatus(u, t, Submitting)
    ensures Owned(u, t)
  {
    RunOwned(c, s, acts, u, t);
  }
}
