// Which nodes are in rotation: by what their health checks answered, and by the configuration.
module HealthRuns {
  import opened Model
  import opened Sums
  import opened Ledger
  import opened Parsing
  import opened BatchOps
  import opened Retention
  import opened Dispatching
  import opened Engine
  import opened Structure
  import opened Invariants

  // How many of node n's latest checks failed in a row.
  function FailedLately(results: seq<(string, bool)>, n: string): nat {
    if results == [] then 0
    else
      var before := FailedLately(results[..|results| - 1], n);
      var (name, ok) := results[|results| - 1];
      if name != n then before else if ok then 0 else before + 1
  }

  predicate Succeeded(results: seq<(string, bool)>, n: string) {
    exists i :: 0 <= i < |results| && results[i] == (n, true)
  }

  // What the checks make of a node: failures are counted from the last success; a success puts
  // the node into rotation, and only a failure that brings the count to the threshold takes it out.
  ghost predicate Judged(node: Node, node': Node, failed: nat, succeeded: bool, threshold: nat) {
    && node'.slots == node.slots
    && node'.failures == failed + (if succeeded then 0 else node.failures)
    && node'.health ==
       if failed > 0 && node'.failures >= threshold then UNHEALTHY
       else if succeeded then HEALTHY else node.health
  }

  lemma {:induction false} JudgedByResults(nodes: map<string, Node>, results: seq<(string, bool)>, threshold: nat, n: string)
    ensures n in HealthApplied(nodes, results, threshold) <==> n in nodes
    ensures n in nodes ==>
              Judged(nodes[n], HealthApplied(nodes, results, threshold)[n],
                     FailedLately(results, n), Succeeded(results, n), threshold)
  {
    if results != [] {
      var init, last := results[..|results| - 1], results[|results| - 1];
      JudgedByResults(nodes, init, threshold, n);
      SucceededNext(init, last, n);
      assert results == init + [last];
    }
  }

  lemma SucceededNext(results: seq<(string, bool)>, last: (string, bool), n: string)
    ensures Succeeded(results + [last], n) <==> Succeeded(results, n) || last == (n, true)
  {
    assert (results + [last])[|results|] == last;
    if Succeeded(results, n) {
      var i :| 0 <= i < |results| && results[i] == (n, true);
      assert (results + [last])[i] == (n, true);
    }
  }

  // --- Over runs, between two restarts. ---

  predicate Restarts(step: Step) { step.Crash? || step.SettleThenCrash? }

  // All the checks whose results a run has applied.
  function Checks(cfg: Settings, s: Sys, steps: seq<Step>): seq<(string, bool)>
    requires cfg.defaultMaxTokens > 0
  {
    if steps == [] then []
    else
      var n := |steps| - 1;
      Checks(cfg, s, steps[..n]) + CheckedBy(Run(cfg, s, steps[..n]), steps[n])
  }

  function CheckedBy(s: Sys, step: Step): seq<(string, bool)> {
    if step.Health? && HealthResults(s.db.nodes, step.results) then step.results else []
  }

  lemma {:induction false} HealthConcat(nodes: map<string, Node>, a: seq<(string, bool)>, b: seq<(string, bool)>, threshold: nat)
    ensures HealthApplied(nodes, a + b, threshold) == HealthApplied(HealthApplied(nodes, a, threshold), b, threshold)
  {
    if b == [] {
      assert a + b == a;
    } else {
      assert (a + b)[..|a + b| - 1] == a + b[..|b| - 1];
      HealthConcat(nodes, a, b[..|b| - 1], threshold);
    }
  }

  // Nothing else touches the node table.
  lemma OtherNodes(cfg: Settings, s: Sys, step: Step)
    requires cfg.defaultMaxTokens > 0 && !Restarts(step) && !step.Health?
    ensures Apply(cfg, s, step).db.nodes == s.db.nodes
  {
    match step
    case Grant(u, tokens) =>
    case Upload(u, raw) =>
    case Submit(u, f, window, now) => SubmittedNodes(s.db, cfg, u, f, window, now);
    case StartPass(ids, names, now) =>
      if PassOver(s.flights) && ClaimQuery(s.db, ids) && HealthyQuery(s.db.nodes, names) {
        PassStartRows(s, ids, names, now);
      }
    case Return(i) =>
    case Settle(i, outcome, now) =>
      if CanSettle(s, i) {
        var t := s.flights[i].task;
        SettledTables(s.db, t, outcome, cfg.alpha, now);
        FinalizedTables(Settled(s.db, t, outcome, cfg.alpha, now), s.db.tasks[t].batch, now);
      }
    case Cancel(u, b, now) =>
      if OwnedBy(s.db.batches, b, u) && Cancellable(s.db.batches[b].status) {
        TerminatedTables(s.db, b, BATCH_CANCELLED, now);
      }
    case Expire(b, now) =>
      if b < |s.db.batches| && Overdue(s.db.batches[b], now) { TerminatedTables(s.db, b, EXPIRED, now); }
    case Purge(now) =>
  }

  lemma SubmittedNodes(db: Db, cfg: Settings, u: UserId, f: nat, window: string, now: Time)
    requires cfg.defaultMaxTokens > 0
    ensures Submitted(db, cfg, u, f, window, now).nodes == db.nodes
  {
    if SubmittableFile(db, u, f) && window == "24h" {
      match Parse(db.files[f].value.content.raw, cfg.defaultMaxTokens)
      case Parsed(lines) => CreatedTables(db, u, f, window, lines, now);
      case NoLines =>
      case Rejected(_) =>
    }
  }

  lemma NodesStep(cfg: Settings, s: Sys, step: Step)
    requires cfg.defaultMaxTokens > 0 && !Restarts(step)
    ensures Apply(cfg, s, step).db.nodes == HealthApplied(s.db.nodes, CheckedBy(s, step), cfg.unhealthyThreshold)
  {
    if !step.Health? { OtherNodes(cfg, s, step); }
  }

  lemma {:induction false} NodesOfRun(cfg: Settings, s: Sys, steps: seq<Step>)
    requires cfg.defaultMaxTokens > 0 && forall i :: 0 <= i < |steps| ==> !Restarts(steps[i])
    ensures Run(cfg, s, steps).db.nodes == HealthApplied(s.db.nodes, Checks(cfg, s, steps), cfg.unhealthyThreshold)
  {
    if steps != [] {
      var n := |steps| - 1;
      var before := Run(cfg, s, steps[..n]);
      NodesOfRun(cfg, s, steps[..n]);
      NodesStep(cfg, before, steps[n]);
      HealthConcat(s.db.nodes, Checks(cfg, s, steps[..n]), CheckedBy(before, steps[n]), cfg.unhealthyThreshold);
    }
  }

  // As long as the service is not restarted, every node is judged by the checks it was given,
  // in whatever portions their results arrived and whatever happened in between.
  lemma {:induction false} RotationOnRuns(cfg: Settings, s: Sys, steps: seq<Step>, n: string)
    requires cfg.defaultMaxTokens > 0 && forall i :: 0 <= i < |steps| ==> !Restarts(steps[i])
    ensures var checks, nodes' := Checks(cfg, s, steps), Run(cfg, s, steps).db.nodes;
            && (n in nodes' <==> n in s.db.nodes)
            && (n in nodes' ==>
                  Judged(s.db.nodes[n], nodes'[n], FailedLately(checks, n), Succeeded(checks, n), cfg.unhealthyThreshold))
  {
    NodesOfRun(cfg, s, steps);
    JudgedByResults(s.db.nodes, Checks(cfg, s, steps), cfg.unhealthyThreshold, n);
  }

  // --- Restarts. ---

  // A restart gives every configured node its configured slots and puts new and disabled ones
  // into rotation; every other node is disabled; and the tasks that were running wait again.
  lemma RestartEffect(s: Sys, config: map<string, int>, n: string, t: nat)
    ensures var s' := Restarted(s, config);
            && (n in s'.db.nodes <==> n in s.db.nodes || n in config)
            && (n in config ==>
                  && s'.db.nodes[n].slots == config[n]
                  && (n !in s.db.nodes || s.db.nodes[n].health == DISABLED ==>
                        s'.db.nodes[n].health == HEALTHY && s'.db.nodes[n].failures == 0)
                  && (n in s.db.nodes && s.db.nodes[n].health != DISABLED ==>
                        && s'.db.nodes[n].health == s.db.nodes[n].health
                        && s'.db.nodes[n].failures == s.db.nodes[n].failures))
            && (n !in config && n in s.db.nodes ==>
                  s'.db.nodes[n] == s.db.nodes[n].(health := DISABLED))
            && s'.flights == [] && s'.inFlight == map[] && |s'.db.tasks| == |s.db.tasks|
            && (t < |s.db.tasks| ==>
                  if s.db.tasks[t].status == RUNNING then
                    s'.db.tasks[t] == s.db.tasks[t].(status := PENDING, node := None, startedAt := None)
                  else s'.db.tasks[t] == s.db.tasks[t])
            && s'.db == s.db.(nodes := s'.db.nodes, tasks := s'.db.tasks)
  {
  }
}
