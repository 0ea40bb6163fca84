/** What pruning leaves behind. */
module ServicePruning {
  import opened Seqs
  import opened Pruning
  import opened ServiceModel
  import opened ServiceStore

  lemma CandidatesAfter(executions: map<Key, Execution>, kept: map<Key, Execution>, now: nat, cfg: Config)
    requires kept == map k | k in executions && k in KeptExecutions(executions, now, cfg) :: executions[k]
    ensures KeptExecutions(kept, now, cfg) == kept.Keys
  {
    var times := ExecCandidates(executions, now, cfg);
    var newest := KeepNewest(times, ExecutionKey, cfg.finishedLimit);
    assert ExecCandidates(kept, now, cfg) == map k | k in times && k in newest :: times[k];
    KeepNewestIdempotent(times, ExecutionKey, cfg.finishedLimit);
  }

  lemma KeptAfterExecutions(s: State, now: nat, cfg: Config)
    ensures var s1 := PruneExecutions(s, now, cfg);
            KeptExecutions(s1.executions, now, cfg) == s1.executions.Keys
  {
    var kept := map k | k in s.executions && k in KeptExecutions(s.executions, now, cfg) :: s.executions[k];
    assert PruneExecutions(s, now, cfg).executions == kept;
    CandidatesAfter(s.executions, kept, now, cfg);
  }

  lemma KeptAfterSandboxes(s: State, now: nat, cfg: Config)
    ensures var s1 := PruneSandboxes(s, now, cfg);
            KeptSandboxes(s1, now, cfg) == s1.sandboxes.Keys && s1.executions == s.executions
  {
    var s1 := PruneSandboxes(s, now, cfg);
    var times := SandboxCandidates(s, now, cfg);
    var newest := KeepNewest(times, IdName, cfg.stoppedLimit);
    assert SandboxCandidates(s1, now, cfg) == map id | id in times && id in newest :: times[id];
    KeepNewestIdempotent(times, IdName, cfg.stoppedLimit);
  }

  /** With nothing finished and nothing stopped, pruning does nothing. */
  lemma PruneIdle(s: State, now: nat, cfg: Config)
    requires forall k :: k in s.executions ==> Live(s.executions, k)
    requires forall id :: id in s.sandboxes ==> !s.sandboxes[id].status.Stopped?
    ensures Prune(s, now, cfg) == s
  {
    assert s.executions.Keys - KeptExecutions(s.executions, now, cfg) == {};
    DropNoExecutions(s);
    assert s.sandboxes.Keys - KeptSandboxes(s, now, cfg) == {};
    DropNoSandboxes(s);
  }

  /** Pruning twice at the same time is pruning once, for executions, sandboxes, feeds and sessions alike. */
  lemma PruneIdempotent(s: State, now: nat, cfg: Config)
    ensures Prune(Prune(s, now, cfg), now, cfg) == Prune(s, now, cfg)
  {
    var s1 := PruneExecutions(s, now, cfg);
    var s2 := PruneSandboxes(s1, now, cfg);
    KeptAfterExecutions(s, now, cfg);
    KeptAfterSandboxes(s1, now, cfg);
    DropNoExecutions(s2);
    DropNoSandboxes(s2);
    assert s2.executions.Keys - KeptExecutions(s2.executions, now, cfg) == {};
    assert PruneExecutions(s2, now, cfg) == s2;
    assert s2.sandboxes.Keys - KeptSandboxes(s2, now, cfg) == {};
  }

  /** Dropping finished executions does not change which sandboxes may go. */
  lemma SameSandboxCandidates(s: State, now: nat, cfg: Config)
    ensures var s1 := PruneExecutions(s, now, cfg);
            && s1.sandboxes == s.sandboxes && (forall id :: Stale(s1, id) <==> Stale(s, id))
            && SandboxCandidates(s1, now, cfg) == SandboxCandidates(s, now, cfg)
  {
    var s1 := PruneExecutions(s, now, cfg);
    forall id ensures HasLive(s1.executions, id) <==> HasLive(s.executions, id) {
      if HasLive(s.executions, id) {
        var k :| k in s.executions && k.sandbox == id && Live(s.executions, k);
        assert k in s1.executions && Live(s1.executions, k);
      }
    }
  }

  /** A finished record is young enough to keep: ages are not limited, its time is unknown, or no more than the maximum
      age has passed since. */
  predicate Young(time: nat, now: nat, cfg: Config) {
    cfg.maxAge <= 0 || time == 0 || now <= time + cfg.maxAge
  }

  /** The finished executions, young enough, that ended after this one; names decide between equal times. */
  ghost function EndedAfter(executions: map<Key, Execution>, now: nat, cfg: Config, k: Key): set<Key>
    requires k in executions
  {
    set j | && j in executions && Final(executions[j].status) && Young(EndTime(executions[j]), now, cfg)
            && (|| EndTime(executions[j]) > EndTime(executions[k])
                || (EndTime(executions[j]) == EndTime(executions[k])
                    && StringLess(ExecutionKey(k), ExecutionKey(j))))
  }

  function EndTime(e: Execution): nat {
    match (e.finishedAt, e.startedAt)
    case (Some(t), _) => t
    case (None, Some(t)) => t
    case (None, None) => 0
  }

  /** The stopped sandboxes without live executions, young enough, that stopped after this one. */
  ghost function StoppedAfter(s: State, now: nat, cfg: Config, id: Id): set<Id>
    requires id in s.sandboxes
  {
    set j | && j in s.sandboxes && s.sandboxes[j].status.Stopped? && !HasLive(s.executions, j)
            && Young(StopTime(s.sandboxes[j]), now, cfg)
            && (|| StopTime(s.sandboxes[j]) > StopTime(s.sandboxes[id])
                || (StopTime(s.sandboxes[j]) == StopTime(s.sandboxes[id]) && StringLess(id, j)))
  }

  function StopTime(sb: Sandbox): nat {
    if sb.updatedAt == 0 then sb.createdAt else sb.updatedAt
  }

  /** Exactly the survivors: executions that are not finished, or are young enough and have fewer than `finishedLimit`
      others that ended after them; sandboxes that are not stopped, or have a live execution, or are young enough and
      have fewer than `stoppedLimit` others that stopped after them. What survives is unchanged. */
  lemma Survivors(s: State, now: nat, cfg: Config)
    ensures var s' := Prune(s, now, cfg);
            && (forall k :: k in s'.executions <==>
                  && k in s.executions
                  && (|| !Final(s.executions[k].status)
                      || (&& Young(EndTime(s.executions[k]), now, cfg)
                          && |EndedAfter(s.executions, now, cfg, k)| < cfg.finishedLimit)))
            && (forall k :: k in s'.executions ==> s'.executions[k] == s.executions[k])
            && (forall id :: id in s'.sandboxes <==>
                  && id in s.sandboxes
                  && (|| !s.sandboxes[id].status.Stopped? || HasLive(s.executions, id)
                      || (&& Young(StopTime(s.sandboxes[id]), now, cfg)
                          && |StoppedAfter(s, now, cfg, id)| < cfg.stoppedLimit)))
            && (forall id :: id in s'.sandboxes ==> s'.sandboxes[id] == s.sandboxes[id])
  {
    var s', s1 := Prune(s, now, cfg), PruneExecutions(s, now, cfg);
    SameSandboxCandidates(s, now, cfg);
    SandboxSurvivors(s1, now, cfg);
    forall k ensures k in s'.executions <==>
        && k in s.executions
        && (|| !Final(s.executions[k].status)
            || (&& Young(EndTime(s.executions[k]), now, cfg)
                && |EndedAfter(s.executions, now, cfg, k)| < cfg.finishedLimit))
    {
      ExecutionSurvives(s, now, cfg, k);
    }
    forall id | id in s.sandboxes
      ensures id in s'.sandboxes <==>
                || !s.sandboxes[id].status.Stopped? || HasLive(s.executions, id)
                || (Young(StopTime(s.sandboxes[id]), now, cfg) && |StoppedAfter(s, now, cfg, id)| < cfg.stoppedLimit)
    {
      assert Stale(s1, id) <==> Stale(s, id);
      SandboxCandidate(s, now, cfg, id);
    }
  }

  lemma ExecutionSurvives(s: State, now: nat, cfg: Config, k: Key)
    ensures k in PruneExecutions(s, now, cfg).executions <==>
              && k in s.executions
              && (|| !Final(s.executions[k].status)
                  || (&& Young(EndTime(s.executions[k]), now, cfg)
                      && |EndedAfter(s.executions, now, cfg, k)| < cfg.finishedLimit))
  {
    var finished := ExecCandidates(s.executions, now, cfg);
    if k in finished {
      assert Newer(finished, ExecutionKey, k) == EndedAfter(s.executions, now, cfg, k);
    }
  }

  lemma SandboxCandidate(s: State, now: nat, cfg: Config, id: Id)
    requires id in s.sandboxes
    ensures var stopped := SandboxCandidates(s, now, cfg);
            && (id in stopped <==> Stale(s, id) && Young(StopTime(s.sandboxes[id]), now, cfg))
            && (id in stopped ==> Newer(stopped, IdName, id) == StoppedAfter(s, now, cfg, id))
  {
  }

  lemma SandboxSurvivors(s: State, now: nat, cfg: Config)
    ensures var s', stopped := PruneSandboxes(s, now, cfg), SandboxCandidates(s, now, cfg);
            && s'.executions == s.executions
            && (forall id :: id in s'.sandboxes <==>
                  id in s.sandboxes
                      && (!Stale(s, id) || (id in stopped && |Newer(stopped, IdName, id)| < cfg.stoppedLimit)))
            && (forall id :: id in s'.sandboxes ==> s'.sandboxes[id] == s.sandboxes[id])
  {
  }
}
