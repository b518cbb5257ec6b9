/** The bet worker and the /cryptokeon admission handler, taken one step at a time.
    The worker settles a job, filters it by the coin's minimum stake, records it in the
    ledger and answers on the job's conduit only when the record was kept. The handler
    keeps two counters, the queue size and the number of active tasks, and refuses work
    when either is at its limit. The goroutines, channels and the ten-second timer are not
    modelled: what a waiting handler receives is a parameter. The workers are started with
    copies of the counters, so their decrements never reach the handler's counters; only
    the handler's own counter updates appear here. */
module Server {

  import opened Wrappers
  import opened Keno
  import opened Ledger

  const MaxWorkers: int := 5
  const MaxQueue: int := 50

  /** A decoded wager request. */
  datatype BetRequest = BetRequest(selectedFields: seq<int>, betAmount: real, coinType: string)

  /** The answer a worker puts on the job's conduit. */
  datatype BetResponse = BetResponse(payout: Hundredths, winFields: seq<int>, profit: real, coinType: string)

  /** What became of one job: answered, skipped without an answer, or a panic that ends the
      worker and the process with it. */
  datatype JobOutcome = Sent(resp: BetResponse) | Skipped | Crashed

  /** The per-coin minimum stake: ETH needs 0.0001, USDT needs 1.0, any other coin is refused. */
  predicate PassesCoinFilter(req: BetRequest): (ok: bool)
    ensures ok ==> req.betAmount > 0.0
    ensures req.coinType == "ETH" ==> (ok <==> req.betAmount >= 0.0001)
    ensures req.coinType == "USDT" ==> (ok <==> req.betAmount >= 1.0)
    ensures req.coinType != "ETH" && req.coinType != "USDT" ==> !ok
  {
    if req.coinType == "ETH" then req.betAmount >= 0.0001
    else if req.coinType == "USDT" then req.betAmount >= 1.0
    else false
  }

  /** The history row a worker builds for a settled job. The member name is never filled in,
      so it is the empty string, and the id is left to the table's counter. */
  function RecordFor(req: BetRequest, s: Settlement): (g: GameResult)
    ensures g.name == ""
    ensures var resp := ResponseFor(req, s);
      g.payout == resp.payout && g.winFields == resp.winFields && g.profit == resp.profit && g.coin == resp.coinType
  {
    GameResult(0, s.payout, s.winFields, s.profit, req.coinType, "")
  }

  /** The answer carries the settlement unchanged and the coin of the request. */
  function ResponseFor(req: BetRequest, s: Settlement): (resp: BetResponse)
    ensures resp.payout == s.payout && resp.winFields == s.winFields && resp.profit == s.profit
    ensures resp.coinType == req.coinType
  {
    BetResponse(s.payout, s.winFields, s.profit, req.coinType)
  }

  /** What one job does to the ledger: the outcome, the new balances, the rows appended to
      the history and how many ids of the table's counter it consumed. */
  datatype JobEffect = JobEffect(outcome: JobOutcome, balances: map<string, real>, appended: seq<GameResult>, idsUsed: nat)

  /** An answer only for a job that passed the coin filter and settled, carrying exactly that
      settlement. */
  predicate SettledAnswer(req: BetRequest, settled: Result<Settlement, SettleError>, outcome: JobOutcome) {
    outcome.Sent? ==> PassesCoinFilter(req) && settled.Success? && outcome.resp == ResponseFor(req, settled.value)
  }

  /** Rows the worker writes carry no member name and an accepted coin. */
  predicate WorkerRows(rows: seq<GameResult>) {
    forall k :: 0 <= k < |rows| ==> rows[k].name == "" && (rows[k].coin == "ETH" || rows[k].coin == "USDT")
  }

  /** The worker's pass over one job once its settlement is known: filter by coin, record,
      then answer. A refused balance update still consumes an id. */
  function JobStepSettled(req: BetRequest, settled: Result<Settlement, SettleError>, balances: map<string, real>, nextId: nat)
    : (e: JobEffect)
    ensures SettledAnswer(req, settled, e.outcome)
    ensures e.outcome == Crashed <==> settled.Failure?
    ensures e.idsUsed == (if settled.Success? && PassesCoinFilter(req) then 1 else 0)
    ensures e.outcome.Sent? <==>
      settled.Success? && PassesCoinFilter(req) && ApplySettlement(balances, "", req.betAmount, settled.value.profit).Success?
    ensures e.outcome.Sent? ==>
      && e.balances == ApplySettlement(balances, "", req.betAmount, settled.value.profit).value
      && e.appended == [RecordFor(req, settled.value).(gameId := nextId)]
    ensures !e.outcome.Sent? ==> e.appended == [] && e.balances == balances
    ensures WorkerRows(e.appended)
  {
    match settled
    case Failure(_) => JobEffect(Crashed, balances, [], 0)
    case Success(s) =>
      if !PassesCoinFilter(req) then JobEffect(Skipped, balances, [], 0)
      else
        match ApplySettlement(balances, "", req.betAmount, s.profit)
        case Success(b) => JobEffect(Sent(ResponseFor(req, s)), b, [RecordFor(req, s).(gameId := nextId)], 1)
        case Failure(_) => JobEffect(Skipped, balances, [], 1)
  }

  /** One pass of the worker loop on a ledger with the given balances and counter: settle,
      filter by coin, record, then answer. */
  function JobStep(req: BetRequest, perm: seq<int>, balances: map<string, real>, nextId: nat): (e: JobEffect)
    requires IsPermutation(perm, PoolSize)
    ensures AnsweredAsSettled(req, perm, e.outcome)
    ensures e.outcome.Sent? ==> |e.appended| == 1 && e.appended[0].gameId == nextId && e.idsUsed == 1
    ensures !e.outcome.Sent? ==> e.appended == [] && e.balances == balances
    ensures e.idsUsed == 1 <==> Settle(req.selectedFields, req.betAmount, perm).Success? && PassesCoinFilter(req)
    ensures e.outcome == Crashed <==> Settle(req.selectedFields, req.betAmount, perm).Failure?
    ensures var s := Settle(req.selectedFields, req.betAmount, perm);
      && (e.outcome.Sent? <==>
            s.Success? && PassesCoinFilter(req) && ApplySettlement(balances, "", req.betAmount, s.value.profit).Success?)
      && (e.outcome.Sent? ==>
            && e.balances == ApplySettlement(balances, "", req.betAmount, s.value.profit).value
            && e.appended == [RecordFor(req, s.value).(gameId := nextId)])
    ensures WorkerRows(e.appended)
  {
    JobStepSettled(req, Settle(req.selectedFields, req.betAmount, perm), balances, nextId)
  }

  /** The row a worker records names no member, so unless a member is registered under the
      empty name the balance lookup fails: the job consumes an id, writes nothing and is never
      answered, and its handler waits for the timer. */
  lemma UnnamedJobNeverAnswered(req: BetRequest, perm: seq<int>, balances: map<string, real>, nextId: nat)
    requires IsPermutation(perm, PoolSize)
    requires "" !in balances
    ensures var e := JobStep(req, perm, balances, nextId);
      !e.outcome.Sent? && e.appended == [] && e.balances == balances
  {
  }

  /** The worker's handling of one job, on the ledger. */
  method HandleBetJob(ledger: Ledger, req: BetRequest, perm: seq<int>) returns (outcome: JobOutcome)
    requires ledger.Valid()
    requires IsPermutation(perm, PoolSize)
    modifies ledger
    ensures ledger.Valid()
    ensures var e := JobStep(req, perm, old(ledger.balances), old(ledger.nextId));
      && outcome == e.outcome
      && ledger.balances == e.balances
      && ledger.history == old(ledger.history) + e.appended
      && ledger.nextId == old(ledger.nextId) + e.idsUsed
  {
    var settled := SettleKeno(req.selectedFields, req.betAmount, perm);
    if settled.Failure? {
      return Crashed;
    }
    var s := settled.value;
    if !PassesCoinFilter(req) {
      return Skipped;
    }
    var grs := RecordFor(req, s);
    var resp := ResponseFor(req, s);
    var err := ledger.AppendBetHistory(grs, req.betAmount);
    if err.Some? {
      return Skipped;
    }
    return Sent(resp);
  }

  /** Number of jobs that were answered. */
  function SentCount(outcomes: seq<JobOutcome>): (n: nat)
    ensures n <= |outcomes|
  {
    if outcomes == [] then 0
    else (if outcomes[0].Sent? then 1 else 0) + SentCount(outcomes[1..])
  }

  lemma SentCountCons(outcome: JobOutcome, rest: seq<JobOutcome>)
    ensures SentCount([outcome] + rest) == (if outcome.Sent? then 1 else 0) + SentCount(rest)
  {
    assert ([outcome] + rest)[1..] == rest;
  }

  /** What the worker promises about one job: an answer only for a job that passed the coin
      filter, and then exactly the settlement the engine computes. */
  predicate AnsweredAsSettled(req: BetRequest, perm: seq<int>, outcome: JobOutcome)
    requires IsPermutation(perm, PoolSize)
  {
    SettledAnswer(req, Settle(req.selectedFields, req.betAmount, perm), outcome)
  }

  /** Every job of the queue comes with a permutation of the pool for its draw. */
  predicate AllPermutations(perms: seq<seq<int>>) {
    forall i :: 0 <= i < |perms| ==> IsPermutation(perms[i], PoolSize)
  }

  /** The settlement of each queued job under the permutation its draw uses, for a given
      way of settling one job. */
  function SettleEach(settle: (BetRequest, seq<int>) --> Result<Settlement, SettleError>,
                      jobs: seq<BetRequest>, perms: seq<seq<int>>): (rs: seq<Result<Settlement, SettleError>>)
    requires |perms| == |jobs|
    requires forall i :: 0 <= i < |jobs| ==> settle.requires(jobs[i], perms[i])
    ensures |rs| == |jobs|
    decreases |jobs|
  {
    if jobs == [] then []
    else
      assert forall i :: 0 <= i < |jobs[1..]| ==> jobs[1..][i] == jobs[i + 1] && perms[1..][i] == perms[i + 1];
      [settle(jobs[0], perms[0])] + SettleEach(settle, jobs[1..], perms[1..])
  }

  /** The settlement at position i is that of job i under its own permutation. */
  lemma {:induction false} SettleEachAt(settle: (BetRequest, seq<int>) --> Result<Settlement, SettleError>,
                                        jobs: seq<BetRequest>, perms: seq<seq<int>>, i: nat)
    requires |perms| == |jobs| && i < |jobs|
    requires forall i :: 0 <= i < |jobs| ==> settle.requires(jobs[i], perms[i])
    ensures SettleEach(settle, jobs, perms)[i] == settle(jobs[i], perms[i])
    decreases i
  {
    if i > 0 {
      assert forall k :: 0 <= k < |jobs[1..]| ==> jobs[1..][k] == jobs[k + 1] && perms[1..][k] == perms[k + 1];
      SettleEachAt(settle, jobs[1..], perms[1..], i - 1);
    }
  }

  /** The worker settles a job with the keno engine, on its selection, stake and permutation. */
  function SettleJob(req: BetRequest, perm: seq<int>): Result<Settlement, SettleError>
    requires IsPermutation(perm, PoolSize)
  {
    Settle(req.selectedFields, req.betAmount, perm)
  }

  /** The settlement of each queued job under the permutation its draw uses. */
  function Settlements(jobs: seq<BetRequest>, perms: seq<seq<int>>): (rs: seq<Result<Settlement, SettleError>>)
    requires |perms| == |jobs| && AllPermutations(perms)
    ensures |rs| == |jobs|
  {
    SettleEach(SettleJob, jobs, perms)
  }

  /** The engine's settlement of job i under its own permutation sits at position i. */
  lemma SettlementAt(jobs: seq<BetRequest>, perms: seq<seq<int>>, i: nat)
    requires |perms| == |jobs| && AllPermutations(perms) && i < |jobs|
    ensures Settlements(jobs, perms)[i] == Settle(jobs[i].selectedFields, jobs[i].betAmount, perms[i])
  {
    SettleEachAt(SettleJob, jobs, perms, i);
  }

  /** The worker's pass over job i is its step on the settlement at position i. */
  lemma JobStepAt(jobs: seq<BetRequest>, perms: seq<seq<int>>, i: nat, balances: map<string, real>, nextId: nat)
    requires |perms| == |jobs| && AllPermutations(perms) && i < |jobs|
    ensures JobStep(jobs[i], perms[i], balances, nextId) == JobStepSettled(jobs[i], Settlements(jobs, perms)[i], balances, nextId)
  {
    SettlementAt(jobs, perms, i);
  }

  /** Answers as settled position by position are answers as the engine settles each job. */
  lemma AnsweredFromSettlements(jobs: seq<BetRequest>, perms: seq<seq<int>>, outcomes: seq<JobOutcome>)
    requires |perms| == |jobs| && AllPermutations(perms) && |outcomes| <= |jobs|
    requires forall k {:trigger outcomes[k]} :: 0 <= k < |outcomes| ==>
      SettledAnswer(jobs[k], Settlements(jobs, perms)[k], outcomes[k])
    ensures forall k :: 0 <= k < |outcomes| ==> AnsweredAsSettled(jobs[k], perms[k], outcomes[k])
  {
    forall k | 0 <= k < |outcomes| ensures AnsweredAsSettled(jobs[k], perms[k], outcomes[k]) {
      assert SettledAnswer(jobs[k], Settlements(jobs, perms)[k], outcomes[k]);
      SettlementAt(jobs, perms, k);
    }
  }

  /** Each settled job's profit is what the engine computes for its stake and multiplier. */
  predicate EngineSettled(jobs: seq<BetRequest>, rs: seq<Result<Settlement, SettleError>>)
    requires |rs| == |jobs|
  {
    forall i :: 0 <= i < |rs| && rs[i].Success? ==> rs[i].value.profit == CalProfit(jobs[i].betAmount, rs[i].value.payout)
  }

  lemma SettlementsFromEngine(jobs: seq<BetRequest>, perms: seq<seq<int>>)
    requires |perms| == |jobs| && AllPermutations(perms)
    ensures EngineSettled(jobs, Settlements(jobs, perms))
  {
    var rs := Settlements(jobs, perms);
    forall i | 0 <= i < |rs| && rs[i].Success?
      ensures rs[i].value.profit == CalProfit(jobs[i].betAmount, rs[i].value.payout)
    {
      SettlementAt(jobs, perms, i);
    }
  }

  /** What a run of the worker leaves behind: the outcomes, the balances, the rows it
      appended and the table's counter. */
  datatype WorkerState = WorkerState(
    outcomes: seq<JobOutcome>,
    balances: map<string, real>,
    appended: seq<GameResult>,
    nextId: nat)

  /** A pass over one job given its settlement, the balances and the table's counter. */
  type JobStepFn = (BetRequest, Result<Settlement, SettleError>, map<string, real>, nat) -> JobEffect

  /** A loop that applies a per-job step to the queued jobs and their settlements in turn,
      threading the balances and the counter, and ends at the first crash. */
  function WorkerFold(step: JobStepFn, jobs: seq<BetRequest>, rs: seq<Result<Settlement, SettleError>>,
                      balances: map<string, real>, nextId: nat): (w: WorkerState)
    requires |rs| == |jobs|
    ensures |w.outcomes| <= |jobs|
    ensures w.nextId >= nextId
    decreases |jobs|
  {
    if jobs == [] then WorkerState([], balances, [], nextId)
    else
      var e := step(jobs[0], rs[0], balances, nextId);
      if e.outcome == Crashed then WorkerState([Crashed], balances, [], nextId)
      else
        var rest := WorkerFold(step, jobs[1..], rs[1..], e.balances, nextId + e.idsUsed);
        WorkerState([e.outcome] + rest.outcomes, rest.balances, e.appended + rest.appended, rest.nextId)
  }

  /** The worker loop: the fold of the worker's own per-job step over the queue. */
  function WorkerRun(jobs: seq<BetRequest>, rs: seq<Result<Settlement, SettleError>>, balances: map<string, real>, nextId: nat)
    : WorkerState
    requires |rs| == |jobs|
  {
    WorkerFold(JobStepSettled, jobs, rs, balances, nextId)
  }

  /** The step answers only a job that passed the coin filter and settled, with that settlement. */
  ghost predicate StepAnswersAsSettled(step: JobStepFn) {
    forall req: BetRequest, settled: Result<Settlement, SettleError>,
           balances: map<string, real>, nextId: nat ::
      SettledAnswer(req, settled, step(req, settled, balances, nextId).outcome)
  }

  /** The step appends a row exactly when it answers. */
  ghost predicate StepRowPerAnswer(step: JobStepFn) {
    forall req: BetRequest, settled: Result<Settlement, SettleError>,
           balances: map<string, real>, nextId: nat ::
      |step(req, settled, balances, nextId).appended|
        == if step(req, settled, balances, nextId).outcome.Sent? then 1 else 0
  }

  /** The rows the step appends name no member and carry an accepted coin. */
  ghost predicate StepRowsUnnamed(step: JobStepFn) {
    forall req: BetRequest, settled: Result<Settlement, SettleError>,
           balances: map<string, real>, nextId: nat ::
      WorkerRows(step(req, settled, balances, nextId).appended)
  }

  /** The rows the step appends take increasing ids among those it uses from the counter. */
  ghost predicate StepRowIds(step: JobStepFn) {
    forall req: BetRequest, settled: Result<Settlement, SettleError>,
           balances: map<string, real>, nextId: nat ::
      && IdsIncreasing(step(req, settled, balances, nextId).appended)
      && RowIdsWithin(step(req, settled, balances, nextId).appended,
                      nextId, nextId + step(req, settled, balances, nextId).idsUsed)
  }

  /** The balances after a settled job: the ledger's balance rule applied to its stake and
      profit under the empty member name when the coin passes, else unchanged. */
  function WagerBalances(req: BetRequest, s: Settlement, balances: map<string, real>): map<string, real> {
    if !PassesCoinFilter(req) then balances
    else
      var r := ApplySettlement(balances, "", req.betAmount, s.profit);
      if r.Success? then r.value else balances
  }

  /** The step crashes exactly on a failed settlement and otherwise applies the balance rule. */
  ghost predicate StepReplays(step: JobStepFn) {
    forall req: BetRequest, settled: Result<Settlement, SettleError>,
           balances: map<string, real>, nextId: nat ::
      && (step(req, settled, balances, nextId).outcome == Crashed <==> settled.Failure?)
      && (settled.Success? ==>
            step(req, settled, balances, nextId).balances == WagerBalances(req, settled.value, balances))
  }

  /** The worker's own step has each of the properties the fold lemmas ask of a step. */
  lemma JobStepSettledSteps()
    ensures StepAnswersAsSettled(JobStepSettled)
    ensures StepRowPerAnswer(JobStepSettled)
    ensures StepRowsUnnamed(JobStepSettled)
    ensures StepRowIds(JobStepSettled)
    ensures StepReplays(JobStepSettled)
  {
    forall req: BetRequest, settled: Result<Settlement, SettleError>,
           balances: map<string, real>, nextId: nat
      ensures IdsIncreasing(JobStepSettled(req, settled, balances, nextId).appended)
      ensures var e := JobStepSettled(req, settled, balances, nextId);
        RowIdsWithin(e.appended, nextId, nextId + e.idsUsed)
    {
      JobStepRowIds(req, settled, balances, nextId);
    }
  }

  /** A fold shorter than the queue ends in a crash. */
  lemma {:induction false} FoldEndsAtCrash(step: JobStepFn, jobs: seq<BetRequest>, rs: seq<Result<Settlement, SettleError>>,
                                           balances: map<string, real>, nextId: nat)
    requires |rs| == |jobs|
    ensures var w := WorkerFold(step, jobs, rs, balances, nextId);
      |w.outcomes| < |jobs| ==> |w.outcomes| > 0 && w.outcomes[|w.outcomes| - 1] == Crashed
    decreases |jobs|
  {
    if jobs != [] {
      var e := step(jobs[0], rs[0], balances, nextId);
      if e.outcome != Crashed {
        var rest := WorkerFold(step, jobs[1..], rs[1..], e.balances, nextId + e.idsUsed);
        FoldEndsAtCrash(step, jobs[1..], rs[1..], e.balances, nextId + e.idsUsed);
        var outs := [e.outcome] + rest.outcomes;
        if |rest.outcomes| > 0 {
          assert outs[|outs| - 1] == rest.outcomes[|rest.outcomes| - 1];
        }
      }
    }
  }

  /** No crash comes before the last outcome of a fold. */
  lemma {:induction false} FoldCrashesLast(step: JobStepFn, jobs: seq<BetRequest>, rs: seq<Result<Settlement, SettleError>>,
                                           balances: map<string, real>, nextId: nat)
    requires |rs| == |jobs|
    ensures var outs := WorkerFold(step, jobs, rs, balances, nextId).outcomes;
      forall k :: 0 <= k < |outs| - 1 ==> outs[k] != Crashed
    decreases |jobs|
  {
    if jobs != [] {
      var e := step(jobs[0], rs[0], balances, nextId);
      if e.outcome != Crashed {
        var rest := WorkerFold(step, jobs[1..], rs[1..], e.balances, nextId + e.idsUsed);
        FoldCrashesLast(step, jobs[1..], rs[1..], e.balances, nextId + e.idsUsed);
        assert var o2 := WorkerFold(step, jobs[1..], rs[1..], e.balances, nextId + e.idsUsed).outcomes;
          forall k :: 0 <= k < |o2| - 1 ==> o2[k] != Crashed;
        var outs := [e.outcome] + rest.outcomes;
        forall k | 0 <= k < |outs| - 1 ensures outs[k] != Crashed {
          if k > 0 {
            assert outs[k] == rest.outcomes[k - 1];
          }
        }
      }
    }
  }

  /** Answers as settled for the first job and for the rest, position by position. */
  lemma SettledAnswersCons(jobs: seq<BetRequest>, rs: seq<Result<Settlement, SettleError>>,
                           first: JobOutcome, rest: seq<JobOutcome>)
    requires |rs| == |jobs| && 0 < |jobs| && |rest| < |jobs|
    requires SettledAnswer(jobs[0], rs[0], first)
    requires forall k {:trigger rest[k]} :: 0 <= k < |rest| ==> SettledAnswer(jobs[1..][k], rs[1..][k], rest[k])
    ensures var outs := [first] + rest;
      forall k {:trigger outs[k]} :: 0 <= k < |outs| ==> SettledAnswer(jobs[k], rs[k], outs[k])
  {
    var outs := [first] + rest;
    forall k | 0 <= k < |outs| ensures SettledAnswer(jobs[k], rs[k], outs[k]) {
      if k > 0 {
        assert outs[k] == rest[k - 1];
        assert jobs[k] == jobs[1..][k - 1] && rs[k] == rs[1..][k - 1];
      }
    }
  }

  /** Every answer of a fold of a step that answers only as settled is the settlement of its
      job, for a job that passed the coin filter. */
  lemma {:induction false} FoldAnswersAsSettled(step: JobStepFn, jobs: seq<BetRequest>, rs: seq<Result<Settlement, SettleError>>,
                                                balances: map<string, real>, nextId: nat)
    requires |rs| == |jobs| && StepAnswersAsSettled(step)
    ensures var outs := WorkerFold(step, jobs, rs, balances, nextId).outcomes;
      forall k {:trigger outs[k]} :: 0 <= k < |outs| ==> SettledAnswer(jobs[k], rs[k], outs[k])
    decreases |jobs|
  {
    if jobs != [] {
      var e := step(jobs[0], rs[0], balances, nextId);
      if e.outcome != Crashed {
        var rest := WorkerFold(step, jobs[1..], rs[1..], e.balances, nextId + e.idsUsed);
        FoldAnswersAsSettled(step, jobs[1..], rs[1..], e.balances, nextId + e.idsUsed);
        assert var o2 := WorkerFold(step, jobs[1..], rs[1..], e.balances, nextId + e.idsUsed).outcomes;
          forall k {:trigger o2[k]} :: 0 <= k < |o2| ==> SettledAnswer(jobs[1..][k], rs[1..][k], o2[k]);
        SettledAnswersCons(jobs, rs, e.outcome, rest.outcomes);
      } else {
        assert WorkerFold(step, jobs, rs, balances, nextId).outcomes == [Crashed];
      }
    }
  }

  lemma WorkerRowsConcat(a: seq<GameResult>, b: seq<GameResult>)
    requires WorkerRows(a) && WorkerRows(b)
    ensures WorkerRows(a + b)
  {
    forall k | 0 <= k < |a + b| ensures (a + b)[k].name == "" && ((a + b)[k].coin == "ETH" || (a + b)[k].coin == "USDT") {
      if k >= |a| {
        assert (a + b)[k] == b[k - |a|];
      }
    }
  }

  /** A fold of a step that appends a row exactly when it answers appends one row per answer. */
  lemma {:induction false} FoldRowPerAnswer(step: JobStepFn, jobs: seq<BetRequest>, rs: seq<Result<Settlement, SettleError>>,
                                            balances: map<string, real>, nextId: nat)
    requires |rs| == |jobs| && StepRowPerAnswer(step)
    ensures var w := WorkerFold(step, jobs, rs, balances, nextId);
      |w.appended| == SentCount(w.outcomes)
    decreases |jobs|
  {
    if jobs != [] {
      var e := step(jobs[0], rs[0], balances, nextId);
      if e.outcome != Crashed {
        var rest := WorkerFold(step, jobs[1..], rs[1..], e.balances, nextId + e.idsUsed);
        FoldRowPerAnswer(step, jobs[1..], rs[1..], e.balances, nextId + e.idsUsed);
        SentCountCons(e.outcome, rest.outcomes);
      } else {
        assert SentCount([Crashed]) == 0;
      }
    }
  }

  /** The rows of a fold of a step that writes only worker rows are worker rows. */
  lemma {:induction false} FoldRowsUnnamed(step: JobStepFn, jobs: seq<BetRequest>, rs: seq<Result<Settlement, SettleError>>,
                                           balances: map<string, real>, nextId: nat)
    requires |rs| == |jobs| && StepRowsUnnamed(step)
    ensures WorkerRows(WorkerFold(step, jobs, rs, balances, nextId).appended)
    decreases |jobs|
  {
    if jobs != [] {
      var e := step(jobs[0], rs[0], balances, nextId);
      if e.outcome != Crashed {
        var rest := WorkerFold(step, jobs[1..], rs[1..], e.balances, nextId + e.idsUsed);
        FoldRowsUnnamed(step, jobs[1..], rs[1..], e.balances, nextId + e.idsUsed);
        WorkerRowsConcat(e.appended, rest.appended);
      }
    }
  }

  /** The rows of a fold take ids from the counter's start onward, all below its final value. */
  lemma {:induction false} FoldRowIdsBounded(step: JobStepFn, jobs: seq<BetRequest>, rs: seq<Result<Settlement, SettleError>>,
                                             balances: map<string, real>, nextId: nat)
    requires |rs| == |jobs| && StepRowIds(step)
    ensures var w := WorkerFold(step, jobs, rs, balances, nextId);
      RowIdsWithin(w.appended, nextId, w.nextId)
    decreases |jobs|
  {
    if jobs != [] {
      var e := step(jobs[0], rs[0], balances, nextId);
      if e.outcome != Crashed {
        var rest := WorkerFold(step, jobs[1..], rs[1..], e.balances, nextId + e.idsUsed);
        FoldRowIdsBounded(step, jobs[1..], rs[1..], e.balances, nextId + e.idsUsed);
        IdsJoinBounded(e.appended, rest.appended, nextId, nextId + e.idsUsed, rest.nextId);
      }
    }
  }

  /** The rows of a fold take strictly increasing ids. */
  lemma {:induction false} FoldRowIds(step: JobStepFn, jobs: seq<BetRequest>, rs: seq<Result<Settlement, SettleError>>,
                                      balances: map<string, real>, nextId: nat)
    requires |rs| == |jobs| && StepRowIds(step)
    ensures IdsIncreasing(WorkerFold(step, jobs, rs, balances, nextId).appended)
    decreases |jobs|
  {
    if jobs != [] {
      var e := step(jobs[0], rs[0], balances, nextId);
      if e.outcome != Crashed {
        var rest := WorkerFold(step, jobs[1..], rs[1..], e.balances, nextId + e.idsUsed);
        assert IdsIncreasing(e.appended + rest.appended) by {
          FoldRowIds(step, jobs[1..], rs[1..], e.balances, nextId + e.idsUsed);
          FoldRowIdsBounded(step, jobs[1..], rs[1..], e.balances, nextId + e.idsUsed);
          assert IdsIncreasing(e.appended) && RowIdsWithin(e.appended, nextId, nextId + e.idsUsed);
          IdsJoinIncreasing(e.appended, rest.appended, nextId, nextId + e.idsUsed, rest.nextId);
        }
      }
    }
  }

  /** The row a job appends, if any, takes the id the counter holds and uses it up. */
  lemma JobStepRowIds(req: BetRequest, settled: Result<Settlement, SettleError>, balances: map<string, real>, nextId: nat)
    ensures var e := JobStepSettled(req, settled, balances, nextId);
      IdsIncreasing(e.appended) && RowIdsWithin(e.appended, nextId, nextId + e.idsUsed)
  {
  }

  /** Every row's id lies in [lo, hi). */
  predicate RowIdsWithin(rows: seq<GameResult>, lo: int, hi: int) {
    forall k :: 0 <= k < |rows| ==> lo <= rows[k].gameId < hi
  }

  /** Rows with ids in [lo, mid) followed by rows with ids in [mid, hi) have ids in [lo, hi). */
  lemma IdsJoinBounded(a: seq<GameResult>, b: seq<GameResult>, lo: int, mid: int, hi: int)
    requires RowIdsWithin(a, lo, mid) && RowIdsWithin(b, mid, hi)
    requires lo <= mid <= hi
    ensures RowIdsWithin(a + b, lo, hi)
  {
    forall k | 0 <= k < |a + b| ensures lo <= (a + b)[k].gameId < hi {
      if k >= |a| {
        assert (a + b)[k] == b[k - |a|];
      }
    }
  }

  /** Increasing rows all below mid followed by increasing rows from mid on are increasing. */
  lemma IdsJoinIncreasing(a: seq<GameResult>, b: seq<GameResult>, lo: int, mid: int, hi: int)
    requires IdsIncreasing(a) && IdsIncreasing(b)
    requires RowIdsWithin(a, lo, mid) && RowIdsWithin(b, mid, hi)
    ensures IdsIncreasing(a + b)
  {
    forall x, y | 0 <= x < y < |a + b| ensures (a + b)[x].gameId < (a + b)[y].gameId {
      if x >= |a| {
        assert (a + b)[x] == b[x - |a|] && (a + b)[y] == b[y - |a|];
      } else if y >= |a| {
        assert (a + b)[y] == b[y - |a|];
      }
    }
  }

  /** The wagers a run of the worker puts to the ledger: one per settled job that passes the
      coin filter, up to the first crash, each under the empty member name. */
  function WorkerWagers(jobs: seq<BetRequest>, rs: seq<Result<Settlement, SettleError>>): (ws: seq<Wager>)
    requires |rs| == |jobs|
    ensures |ws| <= |jobs|
    decreases |jobs|
  {
    if jobs == [] then []
    else
      match rs[0]
      case Failure(_) => []
      case Success(s) => JobWagers(jobs[0], s) + WorkerWagers(jobs[1..], rs[1..])
  }

  /** The wager a settled job puts to the ledger, if its coin passes the filter. */
  function JobWagers(req: BetRequest, s: Settlement): seq<Wager> {
    if PassesCoinFilter(req) then [Wager("", req.betAmount, s.profit)] else []
  }

  /** Replaying a settled job's wagers and then the rest is replaying the rest from the
      balances the job leaves. */
  lemma ReplayJobWagers(req: BetRequest, s: Settlement, balances: map<string, real>, rest: seq<Wager>)
    ensures Replay(balances, JobWagers(req, s) + rest) == Replay(WagerBalances(req, s, balances), rest)
  {
    if PassesCoinFilter(req) {
      ReplayFirst(balances, Wager("", req.betAmount, s.profit), rest);
    } else {
      assert JobWagers(req, s) + rest == rest;
    }
  }

  /** Replaying a wager first applies the balance rule to it, then replays the rest. */
  lemma ReplayFirst(balances: map<string, real>, w: Wager, rest: seq<Wager>)
    ensures var r := ApplySettlement(balances, w.name, w.betAmount, w.profit);
      Replay(balances, [w] + rest) == if r.Success? then Replay(r.value, rest) else Replay(balances, rest)
  {
    assert ([w] + rest)[0] == w && ([w] + rest)[1..] == rest;
  }

  /** The balances a fold of a step that follows the balance rule leaves are those of
      replaying the worker's wagers through the ledger. */
  lemma {:induction false} FoldIsReplay(step: JobStepFn, jobs: seq<BetRequest>, rs: seq<Result<Settlement, SettleError>>,
                                        balances: map<string, real>, nextId: nat)
    requires |rs| == |jobs| && StepReplays(step)
    ensures WorkerFold(step, jobs, rs, balances, nextId).balances == Replay(balances, WorkerWagers(jobs, rs))
    decreases |jobs|
  {
    if jobs != [] && rs[0].Success? {
      var s := rs[0].value;
      var e := step(jobs[0], rs[0], balances, nextId);
      assert e.outcome != Crashed && e.balances == WagerBalances(jobs[0], s, balances);
      FoldIsReplay(step, jobs[1..], rs[1..], e.balances, nextId + e.idsUsed);
      ReplayJobWagers(jobs[0], s, balances, WorkerWagers(jobs[1..], rs[1..]));
    }
  }

  /** Every wager of a worker run has a positive stake and an engine-computed profit. */
  lemma {:induction false} WorkerWagersFromEngine(jobs: seq<BetRequest>, rs: seq<Result<Settlement, SettleError>>)
    requires |rs| == |jobs| && EngineSettled(jobs, rs)
    ensures EngineProfits(WorkerWagers(jobs, rs))
    decreases |jobs|
  {
    if jobs != [] && rs[0].Success? {
      assert EngineSettled(jobs[1..], rs[1..]) by {
        forall i | 0 <= i < |rs[1..]| && rs[1..][i].Success?
          ensures rs[1..][i].value.profit == CalProfit(jobs[1..][i].betAmount, rs[1..][i].value.payout)
        {
          assert rs[1..][i] == rs[i + 1] && jobs[1..][i] == jobs[i + 1];
        }
      }
      WorkerWagersFromEngine(jobs[1..], rs[1..]);
      var s := rs[0].value;
      var rest := WorkerWagers(jobs[1..], rs[1..]);
      if PassesCoinFilter(jobs[0]) {
        var w := Wager("", jobs[0].betAmount, s.profit);
        var ws := [w] + rest;
        assert WorkerWagers(jobs, rs) == ws;
        forall i | 0 <= i < |ws|
          ensures ws[i].betAmount >= 0.0
          ensures exists pay: Hundredths :: ws[i].profit == CalProfit(ws[i].betAmount, pay)
        {
          if i == 0 {
            assert ws[0].profit == CalProfit(ws[0].betAmount, s.payout);
          } else {
            assert ws[i] == rest[i - 1];
          }
        }
      }
    }
  }

  /** The balances a worker run leaves are those of replaying its wagers through the ledger's
      balance rule. */
  lemma WorkerRunIsReplay(jobs: seq<BetRequest>, rs: seq<Result<Settlement, SettleError>>,
                          balances: map<string, real>, nextId: nat)
    requires |rs| == |jobs|
    ensures WorkerRun(jobs, rs, balances, nextId).balances == Replay(balances, WorkerWagers(jobs, rs))
  {
    JobStepSettledSteps();
    FoldIsReplay(JobStepSettled, jobs, rs, balances, nextId);
  }

  /** A worker run never drives a balance below zero, and a member's final balance is the
      initial one plus the profits of exactly the wagers the ledger accepted. */
  lemma WorkerRunKeepsBalances(jobs: seq<BetRequest>, rs: seq<Result<Settlement, SettleError>>,
                               balances: map<string, real>, nextId: nat)
    requires |rs| == |jobs| && EngineSettled(jobs, rs)
    ensures var w := WorkerRun(jobs, rs, balances, nextId);
      && (NonNegative(balances) ==> NonNegative(w.balances))
      && forall name :: name in balances ==>
           name in w.balances
           && w.balances[name] == balances[name] + CommittedProfit(balances, WorkerWagers(jobs, rs), name)
  {
    WorkerRunIsReplay(jobs, rs, balances, nextId);
    WorkerWagersFromEngine(jobs, rs);
    if NonNegative(balances) {
      ReplayKeepsBalancesNonNegative(balances, WorkerWagers(jobs, rs));
    }
    forall name | name in balances
      ensures name in Replay(balances, WorkerWagers(jobs, rs))
      ensures Replay(balances, WorkerWagers(jobs, rs))[name]
        == balances[name] + CommittedProfit(balances, WorkerWagers(jobs, rs), name)
    {
      ReplayAddsCommittedProfits(balances, WorkerWagers(jobs, rs), name);
    }
  }

  /** The structure of a worker run: it stops exactly at its first crash, answers only as
      settled, and records one unnamed row per answer, with increasing ids from the counter's
      start below its final value. */
  lemma WorkerRunShape(jobs: seq<BetRequest>, rs: seq<Result<Settlement, SettleError>>, balances: map<string, real>, nextId: nat)
    requires |rs| == |jobs|
    ensures var w := WorkerRun(jobs, rs, balances, nextId);
      && (|w.outcomes| < |jobs| ==> |w.outcomes| > 0 && w.outcomes[|w.outcomes| - 1] == Crashed)
      && (forall k :: 0 <= k < |w.outcomes| - 1 ==> w.outcomes[k] != Crashed)
      && (forall k {:trigger w.outcomes[k]} :: 0 <= k < |w.outcomes| ==> SettledAnswer(jobs[k], rs[k], w.outcomes[k]))
      && |w.appended| == SentCount(w.outcomes)
      && WorkerRows(w.appended)
      && IdsIncreasing(w.appended)
      && RowIdsWithin(w.appended, nextId, w.nextId)
  {
    JobStepSettledSteps();
    FoldEndsAtCrash(JobStepSettled, jobs, rs, balances, nextId);
    FoldCrashesLast(JobStepSettled, jobs, rs, balances, nextId);
    FoldAnswersAsSettled(JobStepSettled, jobs, rs, balances, nextId);
    FoldRowPerAnswer(JobStepSettled, jobs, rs, balances, nextId);
    FoldRowsUnnamed(JobStepSettled, jobs, rs, balances, nextId);
    FoldRowIds(JobStepSettled, jobs, rs, balances, nextId);
    FoldRowIdsBounded(JobStepSettled, jobs, rs, balances, nextId);
  }

  /** What a worker run over a queue promises: it stops exactly at its first crash, answers
      only as the engine settled, records one unnamed row per answer, and leaves no balance
      negative that was not negative before. */
  lemma WorkerRunSummary(jobs: seq<BetRequest>, perms: seq<seq<int>>, balances: map<string, real>, nextId: nat)
    requires |perms| == |jobs| && AllPermutations(perms)
    ensures var w := WorkerRun(jobs, Settlements(jobs, perms), balances, nextId);
      && (|w.outcomes| < |jobs| ==> |w.outcomes| > 0 && w.outcomes[|w.outcomes| - 1] == Crashed)
      && (forall k :: 0 <= k < |w.outcomes| - 1 ==> w.outcomes[k] != Crashed)
      && (forall k :: 0 <= k < |w.outcomes| ==> AnsweredAsSettled(jobs[k], perms[k], w.outcomes[k]))
      && |w.appended| == SentCount(w.outcomes)
      && WorkerRows(w.appended)
      && (NonNegative(balances) ==> NonNegative(w.balances))
  {
    var rs := Settlements(jobs, perms);
    var w := WorkerRun(jobs, rs, balances, nextId);
    WorkerRunShape(jobs, rs, balances, nextId);
    WorkerRunNonNegative(jobs, perms, balances, nextId);
    AnsweredFromSettlements(jobs, perms, w.outcomes);
  }

  /** A ledger that went through a worker run: its history grew by one unnamed row per
      answer and kept its earlier rows, and no balance became negative. */
  lemma WorkerRunOnLedger(jobs: seq<BetRequest>, perms: seq<seq<int>>,
                          balances: map<string, real>, nextId: nat, history: seq<GameResult>,
                          outcomes: seq<JobOutcome>, balances': map<string, real>, history': seq<GameResult>)
    requires |perms| == |jobs| && AllPermutations(perms)
    requires var w := WorkerRun(jobs, Settlements(jobs, perms), balances, nextId);
      outcomes == w.outcomes && balances' == w.balances && history' == history + w.appended
    ensures |outcomes| < |jobs| ==> |outcomes| > 0 && outcomes[|outcomes| - 1] == Crashed
    ensures forall k :: 0 <= k < |outcomes| - 1 ==> outcomes[k] != Crashed
    ensures forall k :: 0 <= k < |outcomes| ==> AnsweredAsSettled(jobs[k], perms[k], outcomes[k])
    ensures |history'| == |history| + SentCount(outcomes)
    ensures history'[..|history|] == history
    ensures WorkerRows(history'[|history|..])
    ensures NonNegative(balances) ==> NonNegative(balances')
  {
    WorkerRunSummary(jobs, perms, balances, nextId);
    var w := WorkerRun(jobs, Settlements(jobs, perms), balances, nextId);
    assert history'[..|history|] == history && history'[|history|..] == w.appended;
  }

  /** A worker run leaves no balance negative that was not negative before. */
  lemma WorkerRunNonNegative(jobs: seq<BetRequest>, perms: seq<seq<int>>, balances: map<string, real>, nextId: nat)
    requires |perms| == |jobs| && AllPermutations(perms)
    ensures NonNegative(balances) ==> NonNegative(WorkerRun(jobs, Settlements(jobs, perms), balances, nextId).balances)
  {
    SettlementsFromEngine(jobs, perms);
    WorkerRunKeepsBalances(jobs, Settlements(jobs, perms), balances, nextId);
  }

  lemma AppendAssoc<T>(a: seq<T>, b: seq<T>, c: seq<T>)
    ensures (a + b) + c == a + (b + c)
  {
  }

  /** The outcomes and rows of a finished part of a run put in front of the rest. */
  function Prepend(outcomes: seq<JobOutcome>, acc: seq<GameResult>, w: WorkerState): WorkerState
  {
    WorkerState(outcomes + w.outcomes, w.balances, acc + w.appended, w.nextId)
  }

  /** Moving one step's outcome and rows from the rest to the finished part changes nothing. */
  lemma PrependStep(outcomes: seq<JobOutcome>, acc: seq<GameResult>,
                    outcome: JobOutcome, appended: seq<GameResult>, w: WorkerState)
    ensures Prepend(outcomes, acc, WorkerState([outcome] + w.outcomes, w.balances, appended + w.appended, w.nextId))
      == Prepend(outcomes + [outcome], acc + appended, w)
  {
    assert (outcomes + [outcome]) + w.outcomes == outcomes + ([outcome] + w.outcomes);
    assert (acc + appended) + w.appended == acc + (appended + w.appended);
  }

  /** Taking job i keeps a fold's loop invariant: the whole fold is what has been done so far
      followed by the fold from job i on; a crash there ends the whole fold. */
  lemma FoldStepSoFar(step: JobStepFn, jobs: seq<BetRequest>, rs: seq<Result<Settlement, SettleError>>, i: nat,
                      balances: map<string, real>, nextId: nat,
                      outcomes: seq<JobOutcome>, acc: seq<GameResult>, whole: WorkerState)
    requires |rs| == |jobs| && i < |jobs|
    requires whole == Prepend(outcomes, acc, WorkerFold(step, jobs[i..], rs[i..], balances, nextId))
    ensures var e := step(jobs[i], rs[i], balances, nextId);
      && (e.outcome == Crashed ==> whole == WorkerState(outcomes + [Crashed], balances, acc, nextId))
      && (e.outcome != Crashed ==>
            whole == Prepend(outcomes + [e.outcome], acc + e.appended,
                             WorkerFold(step, jobs[i + 1..], rs[i + 1..], e.balances, nextId + e.idsUsed)))
  {
    assert jobs[i..][0] == jobs[i] && rs[i..][0] == rs[i];
    assert jobs[i..][1..] == jobs[i + 1..] && rs[i..][1..] == rs[i + 1..];
    var e := step(jobs[i], rs[i], balances, nextId);
    if e.outcome != Crashed {
      PrependStep(outcomes, acc, e.outcome, e.appended,
                  WorkerFold(step, jobs[i + 1..], rs[i + 1..], e.balances, nextId + e.idsUsed));
    } else {
      assert acc + [] == acc;
    }
  }

  /** The loop invariant of the worker: the run over the whole queue is what has been done
      so far followed by the run over the jobs from i on. */
  ghost predicate RunSoFar(jobs: seq<BetRequest>, rs: seq<Result<Settlement, SettleError>>, i: nat,
                           balances: map<string, real>, nextId: nat,
                           outcomes: seq<JobOutcome>, acc: seq<GameResult>, whole: WorkerState)
    requires |rs| == |jobs| && i <= |jobs|
  {
    whole == Prepend(outcomes, acc, WorkerRun(jobs[i..], rs[i..], balances, nextId))
  }

  /** Taking job i, with its known settlement, keeps the loop invariant, or ends the whole
      run when the job crashes. */
  lemma RunSoFarStep(jobs: seq<BetRequest>, rs: seq<Result<Settlement, SettleError>>, i: nat,
                     balances: map<string, real>, nextId: nat,
                     outcomes: seq<JobOutcome>, acc: seq<GameResult>, whole: WorkerState,
                     outcome: JobOutcome, balances': map<string, real>, nextId': nat, appended: seq<GameResult>)
    requires |rs| == |jobs| && i < |jobs|
    requires RunSoFar(jobs, rs, i, balances, nextId, outcomes, acc, whole)
    requires var e := JobStepSettled(jobs[i], rs[i], balances, nextId);
      && outcome == e.outcome
      && balances' == e.balances
      && nextId' == nextId + e.idsUsed
      && appended == e.appended
    ensures outcome == Crashed ==> whole == WorkerState(outcomes + [outcome], balances', acc + appended, nextId')
    ensures outcome != Crashed ==>
      RunSoFar(jobs, rs, i + 1, balances', nextId', outcomes + [outcome], acc + appended, whole)
  {
    FoldStepSoFar(JobStepSettled, jobs, rs, i, balances, nextId, outcomes, acc, whole);
    if outcome == Crashed {
      assert acc + appended == acc;
    }
  }

  /** At the end of the queue the loop invariant says the run is done. */
  lemma RunSoFarDone(jobs: seq<BetRequest>, rs: seq<Result<Settlement, SettleError>>,
                     balances: map<string, real>, nextId: nat,
                     outcomes: seq<JobOutcome>, acc: seq<GameResult>, whole: WorkerState)
    requires |rs| == |jobs|
    requires RunSoFar(jobs, rs, |jobs|, balances, nextId, outcomes, acc, whole)
    ensures whole == WorkerState(outcomes, balances, acc, nextId)
  {
    assert jobs[|jobs|..] == [];
    assert outcomes + [] == outcomes && acc + [] == acc;
  }

  /** The worker loop over the queued jobs, each with the permutation its draw uses. A panic
      ends the loop. */
  method RunBetWorker(ledger: Ledger, jobs: seq<BetRequest>, perms: seq<seq<int>>)
    returns (outcomes: seq<JobOutcome>)
    requires ledger.Valid()
    requires |perms| == |jobs| && AllPermutations(perms)
    modifies ledger
    ensures ledger.Valid()
    ensures var w := WorkerRun(jobs, Settlements(jobs, perms), old(ledger.balances), old(ledger.nextId));
      && outcomes == w.outcomes
      && ledger.balances == w.balances
      && ledger.history == old(ledger.history) + w.appended
      && ledger.nextId == w.nextId
    ensures NonNegative(old(ledger.balances)) ==> NonNegative(ledger.balances)
  {
    WorkerRunNonNegative(jobs, perms, ledger.balances, ledger.nextId);
    ghost var rs := Settlements(jobs, perms);
    ghost var acc: seq<GameResult> := [];
    ghost var whole := WorkerRun(jobs, rs, ledger.balances, ledger.nextId);
    assert jobs[0..] == jobs && rs[0..] == rs;
    outcomes := [];
    var i := 0;
    while i < |jobs|
      invariant 0 <= i <= |jobs|
      invariant ledger.Valid()
      invariant ledger.history == old(ledger.history) + acc
      invariant RunSoFar(jobs, rs, i, ledger.balances, ledger.nextId, outcomes, acc, whole)
    {
      ghost var balances, nextId, history := ledger.balances, ledger.nextId, ledger.history;
      var outcome := HandleBetJob(ledger, jobs[i], perms[i]);
      ghost var appended := JobStep(jobs[i], perms[i], balances, nextId).appended;
      JobStepAt(jobs, perms, i, balances, nextId);
      RunSoFarStep(jobs, rs, i, balances, nextId, outcomes, acc, whole,
                   outcome, ledger.balances, ledger.nextId, appended);
      AppendAssoc(old(ledger.history), acc, appended);
      outcomes := outcomes + [outcome];
      acc := acc + appended;
      if outcome == Crashed {
        break;
      }
      i := i + 1;
    }
    if i == |jobs| {
      RunSoFarDone(jobs, rs, ledger.balances, ledger.nextId, outcomes, acc, whole);
    }
  }

  /** A request as the handler sees it: whether the token verified, whether it is a POST,
      and the decoded body (None when decoding fails). */
  datatype HttpRequest = HttpRequest(tokenValid: bool, isPost: bool, body: Option<BetRequest>)

  /** What the caller is told. */
  datatype Reply =
    | Unauthorized
    | MethodNotAllowed
    | QueueFull       // 503: the queue counter is at its limit
    | BadRequest      // 400: the body did not decode
    | TooManyActive   // 503: the active-task counter is at its limit
    | Served(resp: BetResponse)
    | TimedOut        // 408: no answer before the timer fired

  /** What reaches a waiting handler first: the worker's answer, or the timer. */
  datatype Wait = Answered(resp: BetResponse) | Timeout

  datatype Counters = Counters(queueSize: int, activeTask: int)

  /** The request passed the token and method checks and there was room in the queue. */
  predicate Queued(c: Counters, r: HttpRequest) {
    r.tokenValid && r.isPost && c.queueSize < MaxQueue
  }

  /** The request was handed to the workers. */
  predicate Accepted(c: Counters, r: HttpRequest) {
    Queued(c, r) && r.body.Some? && c.activeTask < MaxWorkers
  }

  /** The handler's effect on the counters and its reply, as written. */
  function Handle(c: Counters, r: HttpRequest, w: Wait): (res: (Counters, Reply))
    ensures res.1 == Unauthorized <==> !r.tokenValid
    ensures res.1 == MethodNotAllowed <==> r.tokenValid && !r.isPost
    ensures res.1 == QueueFull <==> r.tokenValid && r.isPost && c.queueSize >= MaxQueue
    ensures res.1 == TooManyActive <==> Queued(c, r) && r.body.Some? && c.activeTask >= MaxWorkers
    ensures res.1 == BadRequest <==> Queued(c, r) && r.body.None?
    ensures (res.1.Served? || res.1 == TimedOut) <==> Accepted(c, r)
    ensures res.1.Served? ==> w == Answered(res.1.resp)
    ensures Accepted(c, r) && w.Answered? ==> res.1 == Served(w.resp)
    ensures Accepted(c, r) && w == Timeout ==> res.1 == TimedOut
    ensures res.1.Served? ==> res.0 == Counters(c.queueSize + 1, c.activeTask + 1)
    ensures res.1 == BadRequest ==> res.0 == Counters(c.queueSize + 1, c.activeTask)
    ensures !(res.1.Served? || res.1 == BadRequest) ==> res.0 == c
  {
    if !r.tokenValid then (c, Unauthorized)
    else if !r.isPost then (c, MethodNotAllowed)
    else if c.queueSize >= MaxQueue then (c, QueueFull)
    else
      var queued := c.(queueSize := c.queueSize + 1);
      match r.body
      case None => (queued, BadRequest)
      case Some(_) =>
        if queued.activeTask >= MaxWorkers then (queued.(queueSize := queued.queueSize - 1), TooManyActive)
        else
          var running := queued.(activeTask := queued.activeTask + 1);
          match w
          case Answered(resp) => (running, Served(resp))
          case Timeout => (Counters(running.queueSize - 1, running.activeTask - 1), TimedOut)
  }

  /** The /cryptokeon handler's counters. */
  class Admission {
    var queueSize: int
    var activeTask: int

    constructor ()
      ensures queueSize == 0 && activeTask == 0
    {
      queueSize := 0;
      activeTask := 0;
    }

    /** Admits or refuses one request and, once the job is queued, waits for `w`. */
    method CryptoKeon(r: HttpRequest, w: Wait) returns (reply: Reply)
      modifies this
      ensures (Counters(queueSize, activeTask), reply) == Handle(Counters(old(queueSize), old(activeTask)), r, w)
    {
      if !r.tokenValid {
        return Unauthorized;
      }
      if !r.isPost {
        return MethodNotAllowed;
      }
      if queueSize >= MaxQueue {
        return QueueFull;
      }
      queueSize := queueSize + 1;
      if r.body.None? {
        return BadRequest;
      }
      if activeTask >= MaxWorkers {
        queueSize := queueSize - 1;
        return TooManyActive;
      }
      activeTask := activeTask + 1;
      match w {
        case Answered(resp) =>
          reply := Served(resp);
        case Timeout =>
          queueSize := queueSize - 1;
          activeTask := activeTask - 1;
          reply := TimedOut;
      }
    }
  }

  /** One request together with what its handler receives while waiting. */
  datatype Step = Step(request: HttpRequest, wait: Wait)

  /** The handler run over a sequence of requests, one after another. */
  function Run(c: Counters, steps: seq<Step>): (res: (Counters, seq<Reply>))
    ensures |res.1| == |steps|
    decreases |steps|
  {
    if steps == [] then (c, [])
    else
      var first := Handle(c, steps[0].request, steps[0].wait);
      var rest := Run(first.0, steps[1..]);
      (rest.0, [first.1] + rest.1)
  }

  function ServedCount(replies: seq<Reply>): nat {
    if replies == [] then 0 else (if replies[0].Served? then 1 else 0) + ServedCount(replies[1..])
  }

  function BadRequestCount(replies: seq<Reply>): nat {
    if replies == [] then 0 else (if replies[0] == BadRequest then 1 else 0) + BadRequestCount(replies[1..])
  }

  /** As written, neither counter ever falls back: every served request leaves both one
      higher and every undecodable request leaves the queue size one higher. */
  lemma {:induction false} RunCounters(c: Counters, steps: seq<Step>)
    ensures var res := Run(c, steps);
      res.0 == Counters(c.queueSize + ServedCount(res.1) + BadRequestCount(res.1), c.activeTask + ServedCount(res.1))
    decreases |steps|
  {
    if steps != [] {
      var first := Handle(c, steps[0].request, steps[0].wait);
      RunCounters(first.0, steps[1..]);
      var res := Run(c, steps);
      assert res.1[1..] == Run(first.0, steps[1..]).1;
    }
  }

  /** Hence, from idle counters, the handler serves at most MaxWorkers requests over its
      whole lifetime: after five answers every well-formed request is refused. */
  lemma {:induction false} ServesAtMostMaxWorkers(c: Counters, steps: seq<Step>)
    requires 0 <= c.activeTask <= MaxWorkers
    ensures ServedCount(Run(c, steps).1) <= MaxWorkers - c.activeTask
    decreases |steps|
  {
    if steps != [] {
      var first := Handle(c, steps[0].request, steps[0].wait);
      ServesAtMostMaxWorkers(first.0, steps[1..]);
      assert Run(c, steps).1[1..] == Run(first.0, steps[1..]).1;
    }
  }

  /** Likewise at most MaxQueue requests, counting answered and undecodable ones together,
      ever get past the queue check. */
  lemma {:induction false} AdmitsAtMostMaxQueue(c: Counters, steps: seq<Step>)
    requires 0 <= c.queueSize <= MaxQueue
    ensures var replies := Run(c, steps).1;
      ServedCount(replies) + BadRequestCount(replies) <= MaxQueue - c.queueSize
    decreases |steps|
  {
    if steps != [] {
      var first := Handle(c, steps[0].request, steps[0].wait);
      AdmitsAtMostMaxQueue(first.0, steps[1..]);
      assert Run(c, steps).1[1..] == Run(first.0, steps[1..]).1;
    }
  }

  /** A concrete run: five well-formed requests are answered, the sixth is refused. */
  lemma SixthRequestRefused(req: BetRequest, resp: BetResponse)
    ensures var good := Step(HttpRequest(true, true, Some(req)), Answered(resp));
      Run(Counters(0, 0), [good, good, good, good, good, good]).1 == [Served(resp), Served(resp), Served(resp), Served(resp), Served(resp), TooManyActive]
  {
    var good := Step(HttpRequest(true, true, Some(req)), Answered(resp));
    assert Run(Counters(5, 5), [good]).1 == [TooManyActive];
    assert Run(Counters(4, 4), [good, good]).1 == [Served(resp), TooManyActive];
    assert Run(Counters(3, 3), [good, good, good]).1 == [Served(resp), Served(resp), TooManyActive];
    assert Run(Counters(2, 2), [good, good, good, good]).1 == [Served(resp), Served(resp), Served(resp), TooManyActive];
    assert [good, good, good, good, good][1..] == [good, good, good, good];
    assert Run(Counters(1, 1), [good, good, good, good, good]).1
      == [Served(resp), Served(resp), Served(resp), Served(resp), TooManyActive];
    assert [good, good, good, good, good, good][1..] == [good, good, good, good, good];
  }

  /** The handler with the worker's decrements in effect: an answered request releases its
      queue slot and its active task, as the worker's `atomic.AddInt64` calls intend. */
  function CorrectedHandle(c: Counters, r: HttpRequest, w: Wait): (res: (Counters, Reply))
    ensures res.1 == Handle(c, r, w).1
    ensures res.1.Served? ==> res.0 == c
    ensures res.0.activeTask == c.activeTask
  {
    var written := Handle(c, r, w);
    if written.1.Served? then (c, written.1) else written
  }

  function CorrectedRun(c: Counters, steps: seq<Step>): (res: (Counters, seq<Reply>))
    ensures |res.1| == |steps|
    decreases |steps|
  {
    if steps == [] then (c, [])
    else
      var first := CorrectedHandle(c, steps[0].request, steps[0].wait);
      var rest := CorrectedRun(first.0, steps[1..]);
      (rest.0, [first.1] + rest.1)
  }

  /** With the decrements in effect the active-task count returns to where it started after
      every request, so a request is never refused for too many active tasks. */
  lemma {:induction false} CorrectedNeverRefusesForActiveTasks(c: Counters, steps: seq<Step>)
    requires 0 <= c.activeTask < MaxWorkers
    ensures CorrectedRun(c, steps).0.activeTask == c.activeTask
    ensures TooManyActive !in CorrectedRun(c, steps).1
    decreases |steps|
  {
    if steps != [] {
      var first := CorrectedHandle(c, steps[0].request, steps[0].wait);
      CorrectedNeverRefusesForActiveTasks(first.0, steps[1..]);
    }
  }
}
