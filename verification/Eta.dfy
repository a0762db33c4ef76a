// Throughput statistics and the time-remaining estimate (eta.py), over exact reals.
module Eta {
  import opened Model
  import opened Sums

  const PROMPT_TOKEN_WEIGHT := 0.1

  function Weighted(prompt: nat, completion: nat): real {
    prompt as real * PROMPT_TOKEN_WEIGHT + completion as real
  }

  function OrZero(x: Option<nat>): nat { if x.Some? then x.value else 0 }

  function RMin(a: real, b: real): real { if a <= b then a else b }

  // --- Rolling averages. ---

  function Blend(prior: Option<real>, sample: real, alpha: real): real {
    if prior.None? then sample else alpha * sample + (1.0 - alpha) * prior.value
  }

  // The throughput sample a finished task contributes, if it counts at all.
  function Sample(task: Task): Option<real> {
    if task.startedAt.None? || task.finishedAt.None? then None
    else
      var micros := task.finishedAt.value - task.startedAt.value;
      var weighted := Weighted(OrZero(task.promptTokens), OrZero(task.completionTokens));
      if micros <= 0 || weighted <= 0.0 then None
      else Some(weighted / (micros as real / SECOND as real))
  }

  function Record(stat: DispatchStat, task: Task, alpha: real): DispatchStat {
    match Sample(task)
    case None => stat
    case Some(tps) =>
      var completion := OrZero(task.completionTokens);
      DispatchStat(
        Some(Blend(stat.tps, tps, alpha)),
        if completion > 0 then Some(Blend(stat.avgCompletion, completion as real, alpha)) else stat.avgCompletion,
        stat.samples + 1)
  }

  method UpdateDispatchStats(db: Store, task: Task, alpha: real)
    modifies db`stat
    ensures db.stat == Record(old(db.stat), task, alpha)
  {
    if task.startedAt.None? || task.finishedAt.None? { return; }
    var micros := task.finishedAt.value - task.startedAt.value;
    if micros <= 0 { return; }
    var weighted := Weighted(OrZero(task.promptTokens), OrZero(task.completionTokens));
    if weighted <= 0.0 { return; }
    var sampleTps := weighted / (micros as real / SECOND as real);
    var stat := db.stat;
    stat := stat.(tps := Some(Blend(stat.tps, sampleTps, alpha)));
    var completion := OrZero(task.completionTokens);
    if completion > 0 {
      stat := stat.(avgCompletion := Some(Blend(stat.avgCompletion, completion as real, alpha)));
    }
    stat := stat.(samples := stat.samples + 1);
    db.stat := stat;
  }

  // --- The average after any history of accepted samples. ---

  function Ewma(xs: seq<real>, alpha: real): Option<real> {
    if xs == [] then None
    else Some(Blend(Ewma(xs[..|xs| - 1], alpha), xs[|xs| - 1], alpha))
  }

  function Power(x: real, n: nat): real { if n == 0 then 1.0 else x * Power(x, n - 1) }

  // The weight of sample i once the history is n long: later samples discount it, and the
  // first sample is not discounted by alpha.
  function Weight(alpha: real, i: nat, n: nat): real
    requires i < n
  {
    if n == i + 1 then (if i == 0 then 1.0 else alpha) else (1.0 - alpha) * Weight(alpha, i, n - 1)
  }

  lemma {:induction false} WeightIsGeometric(alpha: real, i: nat, n: nat)
    requires i < n
    ensures Weight(alpha, i, n) == (if i == 0 then 1.0 else alpha) * Power(1.0 - alpha, n - 1 - i)
  {
    if n > i + 1 {
      WeightIsGeometric(alpha, i, n - 1);
      Commute(1.0 - alpha, if i == 0 then 1.0 else alpha, Power(1.0 - alpha, n - 2 - i));
    }
  }

  lemma Commute(a: real, w: real, p: real)
    ensures a * (w * p) == w * (a * p)
  {
  }

  // The first m terms of the weighted average of a history of length n.
  function WeightedSum(xs: seq<real>, alpha: real, m: nat, n: nat): real
    requires m <= |xs| && m <= n
  {
    if m == 0 then 0.0 else WeightedSum(xs, alpha, m - 1, n) + Weight(alpha, m - 1, n) * xs[m - 1]
  }

  lemma {:induction false} LongerHistoryDiscounts(xs: seq<real>, ys: seq<real>, alpha: real, m: nat, n: nat)
    requires m <= n && m <= |xs| && m <= |ys|
    requires forall i :: 0 <= i < m ==> xs[i] == ys[i]
    ensures WeightedSum(ys, alpha, m, n + 1) == (1.0 - alpha) * WeightedSum(xs, alpha, m, n)
  {
    if m > 0 {
      LongerHistoryDiscounts(xs, ys, alpha, m - 1, n);
      Discount(1.0 - alpha,
               WeightedSum(xs, alpha, m - 1, n), Weight(alpha, m - 1, n),
               WeightedSum(ys, alpha, m - 1, n + 1), Weight(alpha, m - 1, n + 1), xs[m - 1]);
    }
  }

  lemma Discount(a: real, sum: real, w: real, sum': real, w': real, x: real)
    requires sum' == a * sum && w' == a * w
    ensures sum' + w' * x == a * (sum + w * x)
  {
    assert a * w * x == a * (w * x);
    assert a * (sum + w * x) == a * sum + a * (w * x);
  }

  // The recurrence is the exponentially weighted average of the whole history.
  lemma {:induction false} EwmaClosedForm(xs: seq<real>, alpha: real)
    requires xs != []
    ensures Ewma(xs, alpha) == Some(WeightedSum(xs, alpha, |xs|, |xs|))
  {
    var n := |xs| - 1;
    var init := xs[..n];
    if n == 0 {
      assert WeightedSum(xs, alpha, 1, 1) == WeightedSum(xs, alpha, 0, 1) + Weight(alpha, 0, 1) * xs[0];
      assert Ewma(init, alpha) == None;
    } else {
      EwmaClosedForm(init, alpha);
      LongerHistoryDiscounts(init, xs, alpha, n, n);
      assert Weight(alpha, n, n + 1) == alpha;
      assert WeightedSum(xs, alpha, n + 1, n + 1) == WeightedSum(xs, alpha, n, n + 1) + alpha * xs[n];
      var blend := Blend(Some(WeightedSum(init, alpha, n, n)), xs[n], alpha);
      assert Ewma(xs, alpha) == Some(blend);
      assert blend == WeightedSum(xs, alpha, n + 1, n + 1);
    }
  }

  // It never leaves the range of the samples.
  lemma {:induction false} EwmaBetween(xs: seq<real>, alpha: real, lo: real, hi: real)
    requires xs != [] && 0.0 <= alpha <= 1.0
    requires forall i :: 0 <= i < |xs| ==> lo <= xs[i] <= hi
    ensures Ewma(xs, alpha).Some? && lo <= Ewma(xs, alpha).value <= hi
  {
    var n := |xs| - 1;
    if n > 0 {
      EwmaBetween(xs[..n], alpha, lo, hi);
      BlendBetween(Ewma(xs[..n], alpha).value, xs[n], alpha, lo, hi);
    }
  }

  lemma BlendBetween(prior: real, sample: real, alpha: real, lo: real, hi: real)
    requires 0.0 <= alpha <= 1.0 && lo <= prior <= hi && lo <= sample <= hi
    ensures lo <= Blend(Some(prior), sample, alpha) <= hi
  {
    ProductNonNegative(alpha, sample - lo);
    ProductNonNegative(1.0 - alpha, prior - lo);
    ProductNonNegative(alpha, hi - sample);
    ProductNonNegative(1.0 - alpha, hi - prior);
  }

  lemma ProductNonNegative(a: real, b: real)
    requires a >= 0.0 && b >= 0.0
    ensures a * b >= 0.0
  {
  }

  // The samples some finished tasks contribute.
  function Samples(tasks: seq<Task>): seq<real> {
    if tasks == [] then []
    else
      var init := Samples(tasks[..|tasks| - 1]);
      match Sample(tasks[|tasks| - 1])
      case None => init
      case Some(x) => init + [x]
  }

  // The completion lengths among the accepted samples; a response of no tokens is not one.
  function CompletionSamples(tasks: seq<Task>): seq<real> {
    if tasks == [] then []
    else
      var init := CompletionSamples(tasks[..|tasks| - 1]);
      var task := tasks[|tasks| - 1];
      if Sample(task).Some? && OrZero(task.completionTokens) > 0 then init + [OrZero(task.completionTokens) as real] else init
  }

  function RecordAll(stat: DispatchStat, tasks: seq<Task>, alpha: real): DispatchStat {
    if tasks == [] then stat
    else Record(RecordAll(stat, tasks[..|tasks| - 1], alpha), tasks[|tasks| - 1], alpha)
  }

  // Recording any tasks leaves the averages of exactly the samples accepted, and their number.
  lemma {:induction false} RecordedHistory(tasks: seq<Task>, alpha: real)
    ensures RecordAll(DispatchStat(None, None, 0), tasks, alpha).tps == Ewma(Samples(tasks), alpha)
    ensures RecordAll(DispatchStat(None, None, 0), tasks, alpha).avgCompletion == Ewma(CompletionSamples(tasks), alpha)
    ensures RecordAll(DispatchStat(None, None, 0), tasks, alpha).samples == |Samples(tasks)|
  {
    if tasks != [] {
      RecordedHistory(tasks[..|tasks| - 1], alpha);
      var task := tasks[|tasks| - 1];
      if Sample(task).Some? {
        EwmaNext(Samples(tasks[..|tasks| - 1]), Sample(task).value, alpha);
        EwmaNext(CompletionSamples(tasks[..|tasks| - 1]), OrZero(task.completionTokens) as real, alpha);
      }
    }
  }

  lemma {:induction false} EwmaNext(xs: seq<real>, x: real, alpha: real)
    ensures Ewma(xs + [x], alpha) == Some(Blend(Ewma(xs, alpha), x, alpha))
  {
    assert (xs + [x])[..|xs|] == xs;
  }

  // The row as every reachable database has it: empty before the first sample, positive after.
  predicate StatOk(stat: DispatchStat) {
    && (stat.samples == 0 <==> stat.tps.None?)
    && (stat.tps.Some? ==> stat.tps.value > 0.0)
    && (stat.avgCompletion.Some? ==> stat.avgCompletion.value > 0.0)
  }

  lemma SamplePositive(task: Task)
    ensures Sample(task).Some? ==> Sample(task).value > 0.0
  {
    if Sample(task).Some? {
      var w := Weighted(OrZero(task.promptTokens), OrZero(task.completionTokens));
      var d := (task.finishedAt.value - task.startedAt.value) as real / SECOND as real;
      assert d > 0.0;
      QuotientPositive(w, d);
    }
  }

  lemma QuotientPositive(w: real, d: real)
    requires w > 0.0 && d > 0.0
    ensures w / d > 0.0
  {
    assert (w / d) * d == w;
    FactorSign(w / d, d);
  }

  lemma FactorSign(x: real, d: real)
    requires d > 0.0
    ensures x * d > 0.0 ==> x > 0.0
    ensures x * d >= 0.0 ==> x >= 0.0
  {
  }

  lemma BlendPositive(prior: Option<real>, sample: real, alpha: real)
    requires 0.0 <= alpha <= 1.0 && sample > 0.0 && (prior.Some? ==> prior.value > 0.0)
    ensures Blend(prior, sample, alpha) > 0.0
  {
    if prior.Some? { BlendBetween(prior.value, sample, alpha, RMin(prior.value, sample), prior.value + sample); }
  }

  lemma RecordOk(stat: DispatchStat, task: Task, alpha: real)
    requires StatOk(stat) && 0.0 <= alpha <= 1.0
    ensures StatOk(Record(stat, task, alpha))
  {
    SamplePositive(task);
    match Sample(task)
    case None =>
    case Some(x) =>
      BlendPositive(stat.tps, x, alpha);
      if OrZero(task.completionTokens) > 0 {
        BlendPositive(stat.avgCompletion, OrZero(task.completionTokens) as real, alpha);
      }
  }

  // --- The estimate. ---

  datatype Confidence = NORMAL | LOW | UNAVAILABLE
  datatype BatchEta = BatchEta(seconds: Option<real>, queuePosition: Option<nat>, confidence: Confidence)

  const NO_ETA := BatchEta(None, None, UNAVAILABLE)

  function TaskWork(t: Task, avg: real): real {
    t.promptEstimate as real * PROMPT_TOKEN_WEIGHT
    + if t.maxTokens != 0 then RMin(t.maxTokens as real, avg) else avg
  }

  function Remaining(tasks: seq<Task>, b: nat, avg: real): real {
    if tasks == [] then 0.0
    else
      var t := tasks[|tasks| - 1];
      Remaining(tasks[..|tasks| - 1], b, avg)
      + if t.batch == b && t.Live() then TaskWork(t, avg) else 0.0
  }

  method RemainingWeightedTokens(db: Store, b: nat, avg: real) returns (total: real)
    ensures total == Remaining(db.tasks, b, avg)
  {
    total := 0.0;
    for i := 0 to |db.tasks|
      invariant total == Remaining(db.tasks[..i], b, avg)
    {
      assert db.tasks[..i + 1][..i] == db.tasks[..i];
      var t := db.tasks[i];
      if t.batch == b && t.Live() {
        var expected := if t.maxTokens != 0 then RMin(t.maxTokens as real, avg) else avg;
        total := total + (t.promptEstimate as real * PROMPT_TOKEN_WEIGHT + expected);
      }
    }
    assert db.tasks[..|db.tasks|] == db.tasks;
  }

  predicate Ahead(db: Db, i: nat, created: Time)
    requires i < |db.batches|
  {
    db.batches[i].status == IN_PROGRESS && db.batches[i].createdAt < created
  }

  // Among the first n batches: how many are ahead, and how much work they hold.
  function AheadCount(db: Db, created: Time, n: nat): nat
    requires n <= |db.batches|
  {
    if n == 0 then 0 else AheadCount(db, created, n - 1) + if Ahead(db, n - 1, created) then 1 else 0
  }

  function AheadWork(db: Db, created: Time, avg: real, n: nat): real
    requires n <= |db.batches|
  {
    if n == 0 then 0.0
    else AheadWork(db, created, avg, n - 1)
         + if Ahead(db, n - 1, created) then Remaining(db.tasks, n - 1, avg) else 0.0
  }

  function SlotsPerNode(nodes: map<string, Node>): string -> int {
    (n: string) => if n in nodes then nodes[n].slots else 0
  }

  // The slots of the healthy nodes, in whatever order their query returns them.
  function HealthySlots(nodes: map<string, Node>, order: seq<string>): int
    requires HealthyQuery(nodes, order)
  {
    Sum(order, SlotsPerNode(nodes))
  }

  function SlotThroughput(db: Db, cfg: Settings): real {
    if db.stat.tps.Some? && db.stat.tps.value != 0.0 then db.stat.tps.value else cfg.bootstrapTps
  }

  function ExpectedCompletion(db: Db, cfg: Settings): real {
    if db.stat.avgCompletion.Some? && db.stat.avgCompletion.value != 0.0 then db.stat.avgCompletion.value
    else cfg.bootstrapCompletion
  }

  function ClusterTps(db: Db, cfg: Settings, nodeOrder: seq<string>): real
    requires HealthyQuery(db.nodes, nodeOrder)
  {
    SlotThroughput(db, cfg) * HealthySlots(db.nodes, nodeOrder) as real
  }

  function EstimateBatchEta(db: Db, cfg: Settings, nodeOrder: seq<string>, b: nat): BatchEta
    requires b < |db.batches| && HealthyQuery(db.nodes, nodeOrder)
  {
    var batch := db.batches[b];
    var slots := HealthySlots(db.nodes, nodeOrder);
    var clusterTps := ClusterTps(db, cfg, nodeOrder);
    if batch.status != VALIDATING && batch.status != IN_PROGRESS then NO_ETA
    else if !cfg.nodesConfigured then NO_ETA
    else if slots <= 0 then NO_ETA
    else if clusterTps <= 0.0 then NO_ETA
    else
      var avg := ExpectedCompletion(db, cfg);
      BatchEta(Some(QueuedWork(db, avg, b) / clusterTps), Some(AheadCount(db, batch.createdAt, |db.batches|)),
               if db.stat.samples >= cfg.minSamples then NORMAL else LOW)
  }

  // The bootstrap constants are used exactly as long as no sample has been accepted, and no
  // sample with a completion, respectively.
  lemma BootstrapExactlyBeforeSamples(db: Db, cfg: Settings)
    requires StatOk(db.stat) && ValidSettings(cfg)
    ensures SlotThroughput(db, cfg) > 0.0 && ExpectedCompletion(db, cfg) > 0.0
    ensures db.stat.samples == 0 ==> SlotThroughput(db, cfg) == cfg.bootstrapTps
    ensures db.stat.samples > 0 ==> Some(SlotThroughput(db, cfg)) == db.stat.tps
    ensures ExpectedCompletion(db, cfg) ==
            if db.stat.avgCompletion.Some? then db.stat.avgCompletion.value else cfg.bootstrapCompletion
  {
  }

  lemma {:induction false} RemainingNonNegative(tasks: seq<Task>, b: nat, avg: real)
    requires avg >= 0.0
    ensures Remaining(tasks, b, avg) >= 0.0
  {
    if tasks != [] { RemainingNonNegative(tasks[..|tasks| - 1], b, avg); }
  }

  // Everything ahead of an older batch is ahead of a younger one, and so is the older batch itself.
  lemma {:induction false} QueueGrows(db: Db, c1: Time, c2: Time, avg: real, n: nat, b1: nat)
    requires n <= |db.batches| && c1 < c2 && avg >= 0.0
    requires b1 < |db.batches| && db.batches[b1].status == IN_PROGRESS && db.batches[b1].createdAt == c1
    ensures AheadCount(db, c2, n) >= AheadCount(db, c1, n) + if b1 < n then 1 else 0
    ensures AheadWork(db, c2, avg, n)
            >= AheadWork(db, c1, avg, n) + if b1 < n then Remaining(db.tasks, b1, avg) else 0.0
  {
    if n > 0 {
      QueueGrows(db, c1, c2, avg, n - 1, b1);
      RemainingNonNegative(db.tasks, n - 1, avg);
    }
  }

  lemma DivideMonotone(a: real, b: real, c: real, d: real)
    requires a >= b + c && d > 0.0
    ensures a / d >= b / d + c / d
  {
    assert (a / d) * d == a && (b / d) * d == b && (c / d) * d == c;
    var x := a / d - (b / d + c / d);
    assert x * d == a - (b + c);
    FactorSign(x, d);
  }

  // An in-progress batch has an estimate exactly when nodes are configured and the healthy
  // ones have slots: as slots are not negative, when a healthy node with a slot exists.
  lemma EtaAvailability(db: Db, cfg: Settings, nodeOrder: seq<string>, b: nat)
    requires StatOk(db.stat) && ValidSettings(cfg) && HealthyQuery(db.nodes, nodeOrder)
    requires b < |db.batches| && db.batches[b].status == IN_PROGRESS
    ensures EstimateBatchEta(db, cfg, nodeOrder, b).seconds.Some? <==>
            (cfg.nodesConfigured && HealthySlots(db.nodes, nodeOrder) > 0)
    ensures (forall n :: n in db.nodes ==> db.nodes[n].slots >= 0) ==>
              (EstimateBatchEta(db, cfg, nodeOrder, b).seconds.Some? <==>
               (cfg.nodesConfigured && SlotExists(db.nodes)))
  {
    if cfg.nodesConfigured && HealthySlots(db.nodes, nodeOrder) > 0 { EstimateIs(db, cfg, nodeOrder, b); }
    if forall n :: n in db.nodes ==> db.nodes[n].slots >= 0 { SlotsAddUp(db.nodes, nodeOrder); }
  }

  ghost predicate SlotExists(nodes: map<string, Node>) {
    exists n :: n in nodes && nodes[n].health == HEALTHY && nodes[n].slots > 0
  }

  lemma SlotsAddUp(nodes: map<string, Node>, order: seq<string>)
    requires HealthyQuery(nodes, order) && forall n :: n in nodes ==> nodes[n].slots >= 0
    ensures HealthySlots(nodes, order) > 0 <==> SlotExists(nodes)
  {
    if SlotExists(nodes) {
      var n :| n in nodes && nodes[n].health == HEALTHY && nodes[n].slots > 0;
      var i :| 0 <= i < |order| && order[i] == n;
      SumMember(order, i, SlotsPerNode(nodes));
    } else {
      SumZero(order, SlotsPerNode(nodes));
    }
  }

  // In one state, a batch created later is further back in the queue, and is estimated to
  // finish no earlier than the older one's estimate plus the time its own work takes.
  lemma {:induction false} EtaRespectsQueueOrder(db: Db, cfg: Settings, nodeOrder: seq<string>, b1: nat, b2: nat)
    requires StatOk(db.stat) && ValidSettings(cfg) && HealthyQuery(db.nodes, nodeOrder)
    requires b1 < |db.batches| && b2 < |db.batches|
    requires db.batches[b1].status == IN_PROGRESS && db.batches[b2].status == IN_PROGRESS
    requires db.batches[b1].createdAt < db.batches[b2].createdAt
    requires EstimateBatchEta(db, cfg, nodeOrder, b1).seconds.Some?
    ensures EstimateBatchEta(db, cfg, nodeOrder, b1).queuePosition.Some?
    ensures EstimateBatchEta(db, cfg, nodeOrder, b2).queuePosition.Some?
    ensures EstimateBatchEta(db, cfg, nodeOrder, b2).seconds.Some?
    ensures EstimateBatchEta(db, cfg, nodeOrder, b1).queuePosition.value
            < EstimateBatchEta(db, cfg, nodeOrder, b2).queuePosition.value
    ensures ClusterTps(db, cfg, nodeOrder) > 0.0
    ensures EstimateBatchEta(db, cfg, nodeOrder, b2).seconds.value
            >= EstimateBatchEta(db, cfg, nodeOrder, b1).seconds.value
               + Remaining(db.tasks, b2, ExpectedCompletion(db, cfg)) / ClusterTps(db, cfg, nodeOrder)
  {
    EtaAvailability(db, cfg, nodeOrder, b1);
    EstimateIs(db, cfg, nodeOrder, b1);
    EstimateIs(db, cfg, nodeOrder, b2);
    WorkAhead(db, cfg, b1, b2);
    DivideMonotone(QueuedWork(db, ExpectedCompletion(db, cfg), b2), QueuedWork(db, ExpectedCompletion(db, cfg), b1),
                   Remaining(db.tasks, b2, ExpectedCompletion(db, cfg)), ClusterTps(db, cfg, nodeOrder));
  }

  lemma {:induction false} WorkAhead(db: Db, cfg: Settings, b1: nat, b2: nat)
    requires StatOk(db.stat) && ValidSettings(cfg)
    requires b1 < |db.batches| && b2 < |db.batches|
    requires db.batches[b1].status == IN_PROGRESS
    requires db.batches[b1].createdAt < db.batches[b2].createdAt
    ensures AheadCount(db, db.batches[b1].createdAt, |db.batches|)
            < AheadCount(db, db.batches[b2].createdAt, |db.batches|)
    ensures QueuedWork(db, ExpectedCompletion(db, cfg), b2)
            >= QueuedWork(db, ExpectedCompletion(db, cfg), b1) + Remaining(db.tasks, b2, ExpectedCompletion(db, cfg))
  {
    BootstrapExactlyBeforeSamples(db, cfg);
    QueueGrows(db, db.batches[b1].createdAt, db.batches[b2].createdAt, ExpectedCompletion(db, cfg), |db.batches|, b1);
  }

  lemma {:induction false} EstimateIs(db: Db, cfg: Settings, nodeOrder: seq<string>, b: nat)
    requires StatOk(db.stat) && ValidSettings(cfg) && HealthyQuery(db.nodes, nodeOrder)
    requires b < |db.batches| && db.batches[b].status == IN_PROGRESS
    requires HealthySlots(db.nodes, nodeOrder) > 0 && cfg.nodesConfigured
    ensures ClusterTps(db, cfg, nodeOrder) > 0.0
    ensures EstimateBatchEta(db, cfg, nodeOrder, b).seconds.Some?
    ensures EstimateBatchEta(db, cfg, nodeOrder, b).seconds.value ==
            QueuedWork(db, ExpectedCompletion(db, cfg), b)
            / ClusterTps(db, cfg, nodeOrder)
    ensures EstimateBatchEta(db, cfg, nodeOrder, b).queuePosition ==
            Some(AheadCount(db, db.batches[b].createdAt, |db.batches|))
  {
    BootstrapExactlyBeforeSamples(db, cfg);
    ProductPositive(SlotThroughput(db, cfg), HealthySlots(db.nodes, nodeOrder));
  }

  // The batch's own remaining work and everything ahead of it.
  function QueuedWork(db: Db, avg: real, b: nat): real
    requires b < |db.batches|
  {
    AheadWork(db, db.batches[b].createdAt, avg, |db.batches|) + Remaining(db.tasks, b, avg)
  }

  lemma ProductPositive(x: real, n: int)
    requires x > 0.0 && n > 0
    ensures x * n as real > 0.0
  {
  }

  // --- The figures themselves. ---

  // A sample is the tokens per second of a task that took time and tokens, a prompt token
  // counting a tenth of a generated one.
  lemma SampleIs(task: Task)
    ensures Sample(task).Some? <==>
            && task.startedAt.Some? && task.finishedAt.Some? && task.startedAt.value < task.finishedAt.value
            && OrZero(task.promptTokens) + OrZero(task.completionTokens) > 0
    ensures Sample(task).Some? ==>
              Sample(task).value * (task.finishedAt.value - task.startedAt.value) as real ==
              1_000_000.0 * (0.1 * OrZero(task.promptTokens) as real + OrZero(task.completionTokens) as real)
  {
    if Sample(task).Some? {
      var micros := (task.finishedAt.value - task.startedAt.value) as real;
      var weighted := Weighted(OrZero(task.promptTokens), OrZero(task.completionTokens));
      QuotientTimes(weighted, micros, 1_000_000.0);
    }
  }

  lemma QuotientTimes(w: real, d: real, c: real)
    requires d > 0.0 && c > 0.0
    ensures w / (d / c) * d == c * w
  {
    var q := d / c;
    assert q * c == d;
    assert q > 0.0 by { QuotientPositive(d, c); }
    var x := w / q;
    assert x * q == w;
    assert x * d == x * (q * c) == (x * q) * c;
  }

  // The work left in a batch grows by one live task of it: a tenth of a token for each token of
  // the prompt, and the expected completion, but no more than the task may generate.
  lemma {:induction false} RemainingNext(tasks: seq<Task>, t: Task, b: nat, avg: real)
    ensures Remaining([], b, avg) == 0.0
    ensures Remaining(tasks + [t], b, avg) ==
            Remaining(tasks, b, avg)
            + if t.batch == b && (t.status == PENDING || t.status == RUNNING) then
                0.1 * t.promptEstimate as real
                + (if 0 < t.maxTokens && t.maxTokens as real <= avg then t.maxTokens as real else avg)
              else 0.0
  {
    assert (tasks + [t])[..|tasks|] == tasks;
  }

  // The in-progress batches created before batch b.
  function BatchesAhead(db: Db, b: nat, n: nat): set<nat>
    requires b < |db.batches| && n <= |db.batches|
  {
    set a: nat | a < n && db.batches[a].status == IN_PROGRESS && db.batches[a].createdAt < db.batches[b].createdAt
  }

  lemma {:induction false} AheadIsCount(db: Db, b: nat, n: nat)
    requires b < |db.batches| && n <= |db.batches|
    ensures AheadCount(db, db.batches[b].createdAt, n) == |BatchesAhead(db, b, n)|
  {
    if n == 0 {
      assert BatchesAhead(db, b, 0) == {};
    } else {
      AheadIsCount(db, b, n - 1);
      assert BatchesAhead(db, b, n) ==
             BatchesAhead(db, b, n - 1) + if Ahead(db, n - 1, db.batches[b].createdAt) then {n - 1} else {};
    }
  }

  // In the estimated time the healthy slots, at the recorded throughput each, get exactly the
  // work done that is ahead of the batch and its own; the position counts the batches ahead.
  lemma {:induction false} EstimateBalances(db: Db, cfg: Settings, nodeOrder: seq<string>, b: nat)
    requires StatOk(db.stat) && ValidSettings(cfg) && HealthyQuery(db.nodes, nodeOrder)
    requires b < |db.batches| && db.batches[b].status == IN_PROGRESS
    requires EstimateBatchEta(db, cfg, nodeOrder, b).seconds.Some?
    ensures var eta := EstimateBatchEta(db, cfg, nodeOrder, b);
            && eta.seconds.value * (SlotThroughput(db, cfg) * Sum(nodeOrder, SlotsPerNode(db.nodes)) as real) ==
               QueuedWork(db, ExpectedCompletion(db, cfg), b)
            && eta.queuePosition == Some(|BatchesAhead(db, b, |db.batches|)|)
            && eta.confidence == if db.stat.samples >= cfg.minSamples then NORMAL else LOW
  {
    EtaAvailability(db, cfg, nodeOrder, b);
    EstimateIs(db, cfg, nodeOrder, b);
    AheadIsCount(db, b, |db.batches|);
    var work, tps := QueuedWork(db, ExpectedCompletion(db, cfg), b), ClusterTps(db, cfg, nodeOrder);
    assert work / tps * tps == work;
  }
}
