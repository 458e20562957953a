/** The round-robin router. All callers of one backend share one 64-bit counter; each try advances
    it atomically and takes the endpoint at the new value modulo the number of endpoints. */
module Routing {
  import opened Base
  import opened Tables
  import opened Protocol
  import Division

  const MAX_INT64: int := 0x7fff_ffff_ffff_ffff
  const MIN_INT64: int := -0x8000_0000_0000_0000

  predicate IsInt64(x: int)
  {
    MIN_INT64 <= x <= MAX_INT64
  }

  /** `atomic.Int64.Add(1)`, which wraps. */
  function Bump(idx: int): (next: int)
    requires IsInt64(idx)
    ensures IsInt64(next) && (next - idx - 1) % 0x1_0000_0000_0000_0000 == 0
  {
    if idx == MAX_INT64 then MIN_INT64 else idx + 1
  }

  /** `clients[idx % n]` with a remainder that takes the sign of `idx`; None is an index panic. */
  function Slot(idx: int, n: nat): (slot: Option<nat>)
    requires n > 0
    ensures slot.Some? <==> idx >= 0 || (-idx) % n == 0
    ensures slot.Some? ==> slot.value < n
    ensures idx >= 0 ==> slot == Some(idx % n)
  {
    if idx >= 0 then Some(idx % n)
    else if (-idx) % n == 0 then Some(0)
    else None
  }

  // ----- errors and answers -----

  datatype RpcError = HttpStatus(code: int) | DeadlineExceeded | Canceled | EndOfFile | OtherError(text: string)

  /** The errors that call for another endpoint: a 5xx answer, a timeout, a cancellation, a dropped
      connection. */
  predicate FailsOver(e: RpcError)
  {
    (e.HttpStatus? && e.code >= 500) || e == DeadlineExceeded || e == Canceled || e == EndOfFile
  }

  /** `isRetryable`. */
  predicate IsRetryable(e: RpcError): (retryable: bool)
    ensures retryable <==> FailsOver(e)
  {
    match e
    case HttpStatus(code) => code >= 500
    case OtherError(_) => false
    case _ => true
  }

  /** One endpoint's answer: a result, with or without a rejected operation, or an error. */
  datatype Answer = Result(rejected: bool) | Failure(error: RpcError)

  predicate Settles(a: Answer)
  {
    a.Result? || !FailsOver(a.error)
  }

  datatype Try = Try(endpoint: nat, answer: Answer)

  datatype Submission =
    | Success(rejected: bool)
    | EndpointError(endpoint: nat, error: RpcError)
    | AllFailed(attempts: nat)
    | SorobanSucceeded
    | Panic

  /** What the caller gets from the last try of a loop over the endpoints. */
  predicate Reports(result: Submission, last: Try)
  {
    match last.answer
    case Result(rejected) => result == Success(rejected)
    case Failure(error) => result == EndpointError(last.endpoint, error)
  }

  /** Each endpoint that `k` picks after counter value `start` visit. */
  function Pick(start: int, k: nat, n: nat): nat
    requires start >= 0 && n > 0
  {
    (start + 1 + k) % n
  }

  /** n picks in a row visit n different endpoints. */
  lemma RotationDistinct(start: int, n: nat)
    requires start >= 0 && n > 0
    ensures forall j, k :: 0 <= j < k < n ==> Pick(start, j, n) != Pick(start, k, n)
  {
    forall j, k | 0 <= j < k < n
      ensures Pick(start, j, n) != Pick(start, k, n)
    {
      if Pick(start, j, n) == Pick(start, k, n) {
        Division.SameRemainder(start + 1 + j, start + 1 + k, n);
      }
    }
  }

  /** ... and so every endpoint. */
  lemma RotationCovers(start: int, n: nat, e: nat) returns (k: nat)
    requires start >= 0 && e < n
    ensures k < n && Pick(start, k, n) == e
  {
    k := (e - start - 1) % n;
    var q := (e - start - 1) / n;
    assert start + 1 + k == (-q) * n + e;
    Division.QuotientIs(start + 1 + k, n, -q, e);
  }

  /** When the tries are a rotation and none of n settled, every endpoint was asked and failed. */
  lemma AllFailedMeansAll(start: int, n: nat, tries: seq<Try>, e: nat)
    requires start >= 0 && e < n && |tries| == n
    requires forall k :: 0 <= k < n ==> tries[k].endpoint == Pick(start, k, n) && !Settles(tries[k].answer)
    ensures exists k :: 0 <= k < n && tries[k].endpoint == e && !Settles(tries[k].answer)
  {
    var k := RotationCovers(start, n, e);
    assert tries[k].endpoint == e;
  }

  // ----- the router -----

  /** What a Horizon call that returns `result` has done. At most n tries, each of which but the last
      failed over; the result is that of the last, or "all failed" when all of n tries failed over. */
  predicate HorizonReport(n: nat, result: Submission, tries: seq<Try>)
  {
    && |tries| <= n && (forall k :: 0 <= k < |tries| ==> tries[k].endpoint < n)
    && (forall k :: 0 <= k < |tries| && Settles(tries[k].answer) ==> k == |tries| - 1)
    && (result.AllFailed? <==> |tries| == n && forall k :: 0 <= k < |tries| ==> !Settles(tries[k].answer))
    && (result.AllFailed? ==> result.attempts == n)
    && (result.Success? || result.EndpointError? <==> tries != [] && Settles(tries[|tries| - 1].answer))
    && (result.Success? || result.EndpointError? ==> Reports(result, tries[|tries| - 1]))
    && result != SorobanSucceeded
  }

  /** What a Soroban call that returns `result` has done. Every try that sends does so after its own
      successful simulation, at most one send succeeds, and it ends the call as an error. */
  predicate SorobanReport(n: nat, result: Submission, tries: seq<seq<SorobanEvent>>)
  {
    && |tries| <= n && (forall k :: 0 <= k < |tries| ==> TriedOne(n, tries[k]))
    && (forall k :: 0 <= k < |tries| - 1 ==> !Ends(Last(tries[k])))
    && (result == SorobanSucceeded <==> tries != [] && EndsWell(tries[|tries| - 1]))
    && !result.Success?
    && (result == SorobanSucceeded || result.EndpointError? <==> tries != [] && Ends(Last(tries[|tries| - 1])))
    && (result.AllFailed? <==> |tries| == n && forall k :: 0 <= k < |tries| ==> !Ends(Last(tries[k])))
    && (result.AllFailed? ==> result.attempts == n)
    && (result.EndpointError? ==> tries != [] && Faulty(Last(tries[|tries| - 1]), result))
  }

  /** The result names the endpoint and the error of the event. */
  predicate Faulty(e: SorobanEvent, result: Submission)
    requires result.EndpointError?
  {
    e.endpoint == result.endpoint && e.error == Some(result.error) && !FailsOver(result.error)
  }

  /** The endpoints asked are those of the rotation that follows counter value `start`. */
  predicate HorizonRotation(start: int, n: nat, tries: seq<Try>)
    requires start >= 0
  {
    forall k :: 0 <= k < |tries| && n > 0 ==> tries[k].endpoint == Pick(start, k, n)
  }

  predicate SorobanRotation(start: int, n: nat, tries: seq<seq<SorobanEvent>>)
    requires start >= 0
  {
    forall k :: 0 <= k < |tries| && n > 0 ==> OneTry(Pick(start, k, n), tries[k])
  }

  /** What a call asked of which endpoints, and the counter values that chose them. */
  datatype Attempts =
    | AtHorizon(asked: seq<Try>, picks: seq<int>)
    | AtSoroban(tried: seq<seq<SorobanEvent>>, picks: seq<int>)

  /** One call of SubmitTransaction: what was submitted, what came back, and how. */
  datatype Invocation = Invocation(envelope: Envelope, result: Submission, attempts: Attempts)

  predicate HasSend(events: seq<SorobanEvent>)
  {
    |events| > 1
  }

  /** How many times an endpoint was asked to submit the envelope. */
  function SendCount(attempts: Attempts): nat
  {
    match attempts
    case AtHorizon(asked, _) => |asked|
    case AtSoroban(tried, _) => Count(tried, HasSend)
  }

  class Router {
    const horizons: nat
    const sorobans: nat
    const route: Envelope -> Backend
    /** How the network answers the request that goes out at a counter value. */
    const answers: int -> Answer
    const simulations: int -> Option<RpcError>
    const sendings: int -> Option<RpcError>
    /** No other caller uses the counters. */
    const alone: bool
    var horizonIdx: int
    var sorobanIdx: int
    /** The calls of SubmitTransaction through this router so far. */
    ghost var invocations: seq<Invocation>

    ghost predicate Valid()
      reads this
    {
      IsInt64(horizonIdx) && IsInt64(sorobanIdx)
    }

    /** No other caller uses the counters, and `calls` more calls cannot overflow them. */
    predicate Room(calls: nat)
      reads this
    {
      && alone
      && 0 <= horizonIdx <= MAX_INT64 - calls * horizons
      && 0 <= sorobanIdx <= MAX_INT64 - calls * sorobans
    }

    /** At most `calls` calls ago the counters were at `h` and `s`. */
    predicate Advanced(h: int, s: int, calls: nat)
      reads this
    {
      h <= horizonIdx <= h + calls * horizons && s <= sorobanIdx <= s + calls * sorobans
    }

    constructor (horizons: nat, sorobans: nat, route: Envelope -> Backend, answers: int -> Answer,
                 simulations: int -> Option<RpcError>, sendings: int -> Option<RpcError>, alone: bool)
      ensures Valid() && horizonIdx == sorobanIdx == 0 && invocations == []
      ensures this.horizons == horizons && this.sorobans == sorobans && this.route == route && this.alone == alone
      ensures this.answers == answers && this.simulations == simulations && this.sendings == sendings
    {
      this.answers, this.simulations, this.sendings := answers, simulations, sendings;
      this.horizons, this.sorobans, this.route, this.alone := horizons, sorobans, route, alone;
      horizonIdx, sorobanIdx, invocations := 0, 0, [];
    }

    /** The call went to the backend of its envelope and did there what its result says. */
    predicate Explains(call: Invocation)
    {
      match call.attempts
      case AtHorizon(asked, picks) =>
        && route(call.envelope) == Horizon && HorizonReport(horizons, call.result, asked)
        && AsksAt(picks, asked, call.result == Panic)
      case AtSoroban(tried, picks) =>
        && route(call.envelope) == Soroban && SorobanReport(sorobans, call.result, tried)
        && TriesAt(picks, tried, call.result == Panic)
    }

    /** Each try asks the endpoint that its counter value picks, and gets the network's answer; a call
        panics at a counter value that picks none. */
    predicate AsksAt(picks: seq<int>, tries: seq<Try>, panics: bool)
    {
      && |picks| == |tries| + Bit(panics) && (picks != [] ==> horizons > 0)
      && (forall k :: 0 <= k < |tries| ==>
            Slot(picks[k], horizons) == Some(tries[k].endpoint) && tries[k].answer == answers(picks[k]))
      && (panics ==> Slot(picks[|tries|], horizons).None?)
    }

    predicate TriesAt(picks: seq<int>, tries: seq<seq<SorobanEvent>>, panics: bool)
    {
      && |picks| == |tries| + Bit(panics) && (picks != [] ==> sorobans > 0)
      && (forall k :: 0 <= k < |tries| ==>
            && Slot(picks[k], sorobans).Some?
            && tries[k] == Script(Slot(picks[k], sorobans).value, simulations(picks[k]), sendings(picks[k])))
      && (panics ==> Slot(picks[|tries|], sorobans).None?)
    }

    /** The endpoints were asked in rotation from where the counters stood. */
    predicate Rotates(h: int, s: int, call: Invocation)
      requires h >= 0 && s >= 0
    {
      match call.attempts
      case AtHorizon(asked, _) => HorizonRotation(h, horizons, asked)
      case AtSoroban(tried, _) => SorobanRotation(s, sorobans, tried)
    }

    /** Any number of picks by other callers. */
    method OthersPick() returns (ghost h: nat, ghost s: nat)
      requires Valid()
      modifies this`horizonIdx, this`sorobanIdx
      ensures Valid()
      ensures horizonIdx == After(old(horizonIdx), h) && sorobanIdx == After(old(sorobanIdx), s)
      ensures alone ==> h == s == 0
    {
      var hs: nat := *;
      var ss: nat := *;
      if alone {
        hs, ss := 0, 0;
      }
      horizonIdx, sorobanIdx := After(horizonIdx, hs), After(sorobanIdx, ss);
      h, s := hs, ss;
    }

    /** The loop of both Horizon calls, submission and status query: try endpoints in turn until one
        settles. Whatever other callers pick in between, each try asks the endpoint at its own counter
        value. Left alone, the tries visit different endpoints in rotation, and a report that all
        failed means that every endpoint was asked and failed over. */
    method TryHorizons() returns (result: Submission, tries: seq<Try>, picks: seq<int>, ghost schedule: seq<bool>)
      requires Valid()
      modifies this`horizonIdx, this`sorobanIdx
      ensures Valid() && HorizonReport(horizons, result, tries) && AsksAt(picks, tries, result == Panic)
      ensures Picked(old(horizonIdx), horizonIdx, picks, schedule, alone)
      ensures alone && 0 <= old(horizonIdx) <= MAX_INT64 - horizons ==>
        && result != Panic && horizonIdx == old(horizonIdx) + |tries|
        && HorizonRotation(old(horizonIdx), horizons, tries)
      ensures alone ==> sorobanIdx == old(sorobanIdx)
    {
      result, tries, picks, schedule := AskHorizons();
      if alone && 0 <= old(horizonIdx) <= MAX_INT64 - horizons {
        AlonePicks(old(horizonIdx), horizonIdx, picks, schedule);
      }
    }

    method AskHorizons() returns (result: Submission, tries: seq<Try>, picks: seq<int>, ghost schedule: seq<bool>)
      requires Valid()
      modifies this`horizonIdx, this`sorobanIdx
      ensures Valid() && HorizonReport(horizons, result, tries) && AsksAt(picks, tries, result == Panic)
      ensures Picked(old(horizonIdx), horizonIdx, picks, schedule, alone)
      ensures alone ==> sorobanIdx == old(sorobanIdx)
    {
      tries, picks, schedule := [], [], [];
      var i := 0;
      while i < horizons
        invariant Valid() && i <= horizons && |tries| == i
        invariant forall k :: 0 <= k < i ==> tries[k].endpoint < horizons && !Settles(tries[k].answer)
        invariant AsksAt(picks, tries, false) && Picked(old(horizonIdx), horizonIdx, picks, schedule, alone)
        invariant alone ==> sorobanIdx == old(sorobanIdx)
      {
        ghost var before := horizonIdx;
        ghost var h, s := OthersPick();
        PickNext(old(horizonIdx), before, picks, schedule, h, alone);
        schedule := schedule + ByOthers(h) + [true];
        horizonIdx := Bump(horizonIdx);
        picks := picks + [horizonIdx];
        var slot := Slot(horizonIdx, horizons);
        if slot.None? {
          return Panic, tries, picks, schedule;
        }
        var answer := answers(horizonIdx);
        tries := tries + [Try(slot.value, answer)];
        match answer {
          case Failure(error) =>
            if !IsRetryable(error) {
              assert Settles(tries[i].answer);
              return EndpointError(slot.value, error), tries, picks, schedule;
            }
          case Result(rejected) =>
            assert Settles(tries[i].answer);
            return Success(rejected), tries, picks, schedule;
        }
        i := i + 1;
      }
      result := AllFailed(horizons);
    }

    /** One endpoint: simulate, and send only if the simulation succeeded. */
    method TrySoroban(endpoint: nat, pick: int) returns (outcome: Submission, events: seq<SorobanEvent>)
      ensures events == Script(endpoint, simulations(pick), sendings(pick))
      ensures outcome == SorobanSucceeded <==> Sent(events[|events| - 1])
      ensures outcome.EndpointError? <==> !Sent(events[|events| - 1]) && Ends(events[|events| - 1])
      ensures outcome.EndpointError? ==> Faulty(events[|events| - 1], outcome)
      ensures outcome in {SorobanSucceeded, AllFailed(1)} || outcome.EndpointError?
    {
      var simError := simulations(pick);
      events := [SorobanEvent(Simulate, endpoint, simError)];
      if simError.Some? {
        outcome := if IsRetryable(simError.value) then AllFailed(1) else EndpointError(endpoint, simError.value);
        return;
      }
      var sendError := sendings(pick);
      events := events + [SorobanEvent(Send, endpoint, sendError)];
      if sendError.None? {
        return SorobanSucceeded, events;
      }
      outcome := if IsRetryable(sendError.value) then AllFailed(1) else EndpointError(endpoint, sendError.value);
    }

    /** The events of a whole call, endpoint by endpoint, with the same picks as a Horizon call. */
    method SubmitSoroban()
      returns (result: Submission, tries: seq<seq<SorobanEvent>>, picks: seq<int>, ghost schedule: seq<bool>)
      requires Valid()
      modifies this`horizonIdx, this`sorobanIdx
      ensures Valid() && SorobanReport(sorobans, result, tries) && TriesAt(picks, tries, result == Panic)
      ensures Picked(old(sorobanIdx), sorobanIdx, picks, schedule, alone)
      ensures alone ==> horizonIdx == old(horizonIdx)
      ensures alone && 0 <= old(sorobanIdx) <= MAX_INT64 - sorobans ==>
        && result != Panic && sorobanIdx == old(sorobanIdx) + |tries|
        && SorobanRotation(old(sorobanIdx), sorobans, tries)
    {
      result, tries, picks, schedule := AskSorobans();
      if alone && 0 <= old(sorobanIdx) <= MAX_INT64 - sorobans {
        AlonePicks(old(sorobanIdx), sorobanIdx, picks, schedule);
      }
    }

    method AskSorobans()
      returns (result: Submission, tries: seq<seq<SorobanEvent>>, picks: seq<int>, ghost schedule: seq<bool>)
      requires Valid()
      modifies this`horizonIdx, this`sorobanIdx
      ensures Valid() && SorobanReport(sorobans, result, tries) && TriesAt(picks, tries, result == Panic)
      ensures Picked(old(sorobanIdx), sorobanIdx, picks, schedule, alone)
      ensures alone ==> horizonIdx == old(horizonIdx)
    {
      tries, picks, schedule := [], [], [];
      var i := 0;
      while i < sorobans
        invariant Valid() && i <= sorobans && |tries| == i
        invariant forall k :: 0 <= k < i ==>
          !Ends(Last(tries[k])) && TriedOne(sorobans, tries[k])
        invariant TriesAt(picks, tries, false) && Picked(old(sorobanIdx), sorobanIdx, picks, schedule, alone)
        invariant alone ==> horizonIdx == old(horizonIdx)
      {
        ghost var before := sorobanIdx;
        ghost var h, s := OthersPick();
        PickNext(old(sorobanIdx), before, picks, schedule, s, alone);
        schedule := schedule + ByOthers(s) + [true];
        sorobanIdx := Bump(sorobanIdx);
        picks := picks + [sorobanIdx];
        var slot := Slot(sorobanIdx, sorobans);
        if slot.None? {
          return Panic, tries, picks, schedule;
        }
        var outcome, events := TrySoroban(slot.value, sorobanIdx);
        tries := tries + [events];
        assert OneTry(slot.value, tries[i]) && Last(tries[i]) == events[|events| - 1];
        if !outcome.AllFailed? {
          return outcome, tries, picks, schedule;
        }
        i := i + 1;
      }
      result := AllFailed(sorobans);
    }

    /** Routes the envelope and submits it. Each backend uses its own counter only, and a call ends in
        a panic only at a negative counter value. */
    method SubmitTransaction(envelope: Envelope)
      returns (result: Submission, attempts: Attempts, ghost schedule: seq<bool>)
      requires Valid()
      modifies this
      ensures Valid() && invocations == old(invocations) + [Invocation(envelope, result, attempts)]
      ensures Explains(Invocation(envelope, result, attempts))
      ensures
        if route(envelope) == Horizon
        then Picked(old(horizonIdx), horizonIdx, attempts.picks, schedule, alone)
        else Picked(old(sorobanIdx), sorobanIdx, attempts.picks, schedule, alone)
      ensures alone ==>
        if route(envelope) == Horizon then sorobanIdx == old(sorobanIdx) else horizonIdx == old(horizonIdx)
      ensures old(Room(1)) ==>
        && result != Panic && Advanced(old(horizonIdx), old(sorobanIdx), 1)
        && Rotates(old(horizonIdx), old(sorobanIdx), Invocation(envelope, result, attempts))
    {
      match route(envelope) {
        case Horizon =>
          var tries, picks;
          result, tries, picks, schedule := TryHorizons();
          attempts := AtHorizon(tries, picks);
        case Soroban =>
          var tries, picks;
          result, tries, picks, schedule := SubmitSoroban();
          attempts := AtSoroban(tries, picks);
      }
      invocations := invocations + [Invocation(envelope, result, attempts)];
    }
  }

  // ----- whose pick it is -----

  /** The counter after `k` picks, by whomever. */
  function After(idx: int, k: nat): (next: int)
    requires IsInt64(idx)
    ensures IsInt64(next)
  {
    if k == 0 then idx else Bump(After(idx, k - 1))
  }

  /** The counter values of the picks marked `true`, when the counter stood at `idx`. */
  function MyPicks(idx: int, schedule: seq<bool>): seq<int>
    requires IsInt64(idx)
  {
    if schedule == [] then []
    else
      var most := schedule[..|schedule| - 1];
      MyPicks(idx, most) + if schedule[|schedule| - 1] then [After(idx, |schedule|)] else []
  }

  /** The counter went from `from` to `to` by the picks of the schedule, of which `picks` are one
      caller's own; alone, it makes all of them. */
  predicate Picked(from: int, to: int, picks: seq<int>, schedule: seq<bool>, alone: bool)
  {
    && IsInt64(from) && to == After(from, |schedule|) && picks == MyPicks(from, schedule)
    && (alone ==> forall k :: 0 <= k < |schedule| ==> schedule[k])
  }

  /** `k` picks by others. */
  function ByOthers(k: nat): (schedule: seq<bool>)
    ensures |schedule| == k && forall i :: 0 <= i < k ==> !schedule[i]
  {
    if k == 0 then [] else ByOthers(k - 1) + [false]
  }

  lemma {:induction false} AfterMore(idx: int, j: nat, k: nat)
    requires IsInt64(idx)
    ensures After(After(idx, j), k) == After(idx, j + k)
    decreases k
  {
    if k == 0 {
    } else {
      AfterMore(idx, j, k - 1);
    }
  }

  lemma {:induction false} NoneOfMine(idx: int, schedule: seq<bool>, k: nat)
    requires IsInt64(idx)
    ensures MyPicks(idx, schedule + ByOthers(k)) == MyPicks(idx, schedule)
    decreases k
  {
    if k == 0 {
      assert schedule + ByOthers(0) == schedule;
    } else {
      NoneOfMine(idx, schedule, k - 1);
      var all := schedule + ByOthers(k);
      assert all[..|all| - 1] == schedule + ByOthers(k - 1);
      assert !all[|all| - 1];
    }
  }

  lemma MyPicksSnoc(idx: int, schedule: seq<bool>, mine: bool)
    requires IsInt64(idx)
    ensures MyPicks(idx, schedule + [mine]) ==
      MyPicks(idx, schedule) + if mine then [After(idx, |schedule| + 1)] else []
  {
    assert (schedule + [mine])[..|schedule|] == schedule;
  }

  lemma StillAlone(schedule: seq<bool>, k: nat)
    requires k == 0 && forall i :: 0 <= i < |schedule| ==> schedule[i]
    ensures var all := schedule + ByOthers(k) + [true]; forall i :: 0 <= i < |all| ==> all[i]
  {
  }

  lemma CounterNext(idx: int, j: nat, k: nat)
    requires IsInt64(idx)
    ensures After(idx, j + k + 1) == Bump(After(After(idx, j), k))
  {
    AfterMore(idx, j, k);
  }

  /** Some picks by others, and then one of one's own. */
  lemma PickNext(idx: int, to: int, picks: seq<int>, schedule: seq<bool>, k: nat, alone: bool)
    requires Picked(idx, to, picks, schedule, alone) && (alone ==> k == 0)
    ensures IsInt64(to)
    ensures var next := Bump(After(to, k)); Picked(idx, next, picks + [next], schedule + ByOthers(k) + [true], alone)
  {
    var waited := schedule + ByOthers(k);
    CounterNext(idx, |schedule|, k);
    NoneOfMine(idx, schedule, k);
    MyPicksSnoc(idx, waited, true);
    assert |waited| == |schedule| + k && |waited + [true]| == |schedule| + k + 1;
    if alone {
      StillAlone(schedule, k);
    }
  }

  /** A caller that is alone picks one counter value after the other. */
  lemma {:induction false} AlonePicks(idx: int, to: int, picks: seq<int>, schedule: seq<bool>)
    requires Picked(idx, to, picks, schedule, true) && 0 <= idx <= MAX_INT64 - |picks|
    ensures |picks| == |schedule| && to == idx + |picks|
    ensures forall k :: 0 <= k < |picks| ==> picks[k] == idx + 1 + k
    decreases |schedule|
  {
    if schedule == [] {
    } else {
      var most := schedule[..|schedule| - 1];
      MyPicksSnoc(idx, most, true);
      assert most + [true] == schedule;
      AlonePicks(idx, After(idx, |most|), MyPicks(idx, most), most);
    }
  }

  // ----- Soroban events -----

  datatype SorobanCall = Simulate | Send
  datatype SorobanEvent = SorobanEvent(step: SorobanCall, endpoint: nat, error: Option<RpcError>)

  predicate Sent(e: SorobanEvent)
  {
    e.step == Send && e.error.None?
  }

  /** An event after which no further endpoint is tried. */
  predicate Ends(e: SorobanEvent)
  {
    Sent(e) || (e.error.Some? && !FailsOver(e.error.value))
  }

  /** A simulation alone, when it failed, or a successful simulation followed by a send. */
  predicate OneTry(endpoint: nat, events: seq<SorobanEvent>)
  {
    || (|events| == 1 && events[0].step == Simulate && events[0].endpoint == endpoint && events[0].error.Some?)
    || (|events| == 2 && events[0] == SorobanEvent(Simulate, endpoint, None)
        && events[1].step == Send && events[1].endpoint == endpoint)
  }

  /** A simulation, and a send if it succeeded, with the errors they end in. */
  function Script(endpoint: nat, simulation: Option<RpcError>, sending: Option<RpcError>): (events: seq<SorobanEvent>)
    ensures OneTry(endpoint, events)
  {
    [SorobanEvent(Simulate, endpoint, simulation)] +
    if simulation.None? then [SorobanEvent(Send, endpoint, sending)] else []
  }

  predicate TriedOne(n: nat, events: seq<SorobanEvent>)
  {
    Last(events).endpoint < n && OneTry(Last(events).endpoint, events)
  }

  function Last(events: seq<SorobanEvent>): SorobanEvent
  {
    if events == [] then SorobanEvent(Simulate, 0, None) else events[|events| - 1]
  }

  predicate EndsWell(events: seq<SorobanEvent>)
  {
    Sent(Last(events))
  }

  // ----- balance over all callers -----

  /** The endpoints picked when callers advance the shared counter one after the other, in any
      order: the schedule decides who gets an endpoint, the counter decides which. */
  function PickLog<Caller>(idx: int, schedule: seq<Caller>, n: nat): seq<(Caller, Option<nat>)>
    requires IsInt64(idx) && n > 0
    decreases |schedule|
  {
    if schedule == [] then []
    else [(schedule[0], Slot(Bump(idx), n))] + PickLog(Bump(idx), schedule[1..], n)
  }

  function At<Caller>(e: nat): ((Caller, Option<nat>)) -> bool
  {
    (pick: (Caller, Option<nat>)) => pick.1 == Some(e)
  }

  lemma {:induction false} LogSnoc<Caller>(idx: int, schedule: seq<Caller>, caller: Caller, n: nat)
    requires n > 0 && IsInt64(idx)
    ensures PickLog(idx, schedule + [caller], n) ==
      PickLog(idx, schedule, n) + [(caller, Slot(After(idx, |schedule| + 1), n))]
    decreases |schedule|
  {
    if schedule == [] {
      assert schedule + [caller] == [caller];
      assert After(idx, 1) == Bump(After(idx, 0));
    } else {
      LogSnoc(Bump(idx), schedule[1..], caller, n);
      assert (schedule + [caller])[1..] == schedule[1..] + [caller];
      assert After(idx, 1) == Bump(After(idx, 0));
      AfterMore(idx, 1, |schedule|);
    }
  }

  /** The endpoints of the entries marked `true`. */
  function MineIn(log: seq<(bool, Option<nat>)>): seq<Option<nat>>
  {
    if log == [] then []
    else
      var last := log[|log| - 1];
      MineIn(log[..|log| - 1]) + if last.0 then [last.1] else []
  }

  function Slots(picks: seq<int>, n: nat): (slots: seq<Option<nat>>)
    requires n > 0
    ensures |slots| == |picks| && forall k :: 0 <= k < |picks| ==> slots[k] == Slot(picks[k], n)
  {
    seq(|picks|, k requires 0 <= k < |picks| => Slot(picks[k], n))
  }

  /** What a call asks is its own part of the log of all callers' picks: the log that is balanced. */
  lemma {:induction false} CallInLog(idx: int, schedule: seq<bool>, n: nat)
    requires n > 0 && IsInt64(idx)
    ensures MineIn(PickLog(idx, schedule, n)) == Slots(MyPicks(idx, schedule), n)
    decreases |schedule|
  {
    if schedule == [] {
    } else {
      var most, last := schedule[..|schedule| - 1], schedule[|schedule| - 1];
      CallInLog(idx, most, n);
      LogSnoc(idx, most, last, n);
      assert most + [last] == schedule;
      var log := PickLog(idx, schedule, n);
      assert log[..|log| - 1] == PickLog(idx, most, n);
    }
  }

  /** How many counter values in (idx, idx + k] fall on endpoint `e`. */
  lemma {:induction false} PickCount<Caller>(idx: int, schedule: seq<Caller>, n: nat, e: nat)
    requires n > 0 && e < n && 0 <= idx <= MAX_INT64 - |schedule|
    ensures Count(PickLog(idx, schedule, n), At<Caller>(e)) == (idx + |schedule| - e) / n - (idx - e) / n
    decreases |schedule|
  {
    if schedule == [] {
    } else {
      var first := [(schedule[0], Slot(idx + 1, n))];
      var rest := PickLog(idx + 1, schedule[1..], n);
      PickCount(idx + 1, schedule[1..], n, e);
      CountSplit(first, rest, At<Caller>(e));
      assert Count(first, At<Caller>(e)) == Bit(At<Caller>(e)(first[0])) by {
        assert first == [] + [first[0]];
        CountAppend([], first[0], At<Caller>(e));
      }
      Division.Step(idx - e, n);
      Division.Shift(idx + 1, n, e);
    }
  }

  /** Under any interleaving of callers, after k picks each of the n endpoints was picked floor(k/n)
      or ceil(k/n) times, and every index is in range, as long as the counter has not overflowed. */
  lemma Balanced<Caller>(idx: int, schedule: seq<Caller>, n: nat, e: nat)
    requires n > 0 && e < n && 0 <= idx <= MAX_INT64 - |schedule|
    ensures var k := |schedule|; var picked := Count(PickLog(idx, schedule, n), At<Caller>(e));
      k / n <= picked <= k / n + Bit(k % n != 0)
  {
    PickCount(idx, schedule, n, e);
    Division.Difference(idx - e, |schedule|, n);
  }

  lemma {:induction false} InRange<Caller>(idx: int, schedule: seq<Caller>, n: nat)
    requires n > 0 && 0 <= idx <= MAX_INT64 - |schedule|
    ensures |PickLog(idx, schedule, n)| == |schedule|
    ensures forall k :: 0 <= k < |schedule| ==> PickLog(idx, schedule, n)[k] == (schedule[k], Some(Pick(idx, k, n)))
    decreases |schedule|
  {
    if schedule == [] {
    } else {
      InRange(idx + 1, schedule[1..], n);
      forall k | 0 < k < |schedule|
        ensures PickLog(idx, schedule, n)[k] == (schedule[k], Some(Pick(idx, k, n)))
      {
        assert Pick(idx + 1, k - 1, n) == Pick(idx, k, n);
      }
    }
  }

  /** The first pick after the counter overflows is out of range unless n divides 2^63. */
  lemma OverflowPanics(n: nat)
    requires n > 0
    ensures Slot(Bump(MAX_INT64), n).None? <==> 0x8000_0000_0000_0000 % n != 0
  {
  }

  /** Two picks land on the same endpoint if and only if their distance is a multiple of n. A call
      whose tries are kept apart by m picks of other callers asks one endpoint twice, and misses
      another, exactly when n divides m + 1. */
  lemma SameEndpointIff<Caller>(idx: int, schedule: seq<Caller>, n: nat, j: nat, k: nat)
    requires n > 0 && 0 <= idx <= MAX_INT64 - |schedule| && j <= k < |schedule|
    ensures var log := PickLog(idx, schedule, n);
      k < |log| && (log[j].1 == log[k].1 <==> (k - j) % n == 0)
  {
    InRange(idx, schedule, n);
    Division.CongruentIff(idx + 1 + j, idx + 1 + k, n);
  }
}
