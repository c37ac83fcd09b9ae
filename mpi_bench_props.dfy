/** What the training loop of mpi_bench.py guarantees, stated about the
    functions of MpiBench that `Train` is proved to follow: how many episodes
    run and why the run stops, the shape of every episode, the order of the
    calls made on the agent, and how the agent's state follows from those
    calls. */
module TrainingProperties {
  import opened BaseAgent
  import opened LoopAgent
  import opened MpiBench

  // ---------------------------------------------------------------------
  // One episode's step loop

  /** Each step acts on the state the previous one reached, is answered by
      the environment at its own position, and only the last step may have
      reported `done` or raised. */
  lemma {:induction false} StepsChained(algo: Algo, env: Env, maxPathLength: int, e: nat, k: nat, s: State, v: View)
    requires k < maxPathLength
    ensures var steps := StepsFrom(algo, env, maxPathLength, e, k, s, v).0;
      steps != [] && steps[0].state == s
      && (forall j :: 0 <= j < |steps| ==> steps[j].result == env.step(e, k + j, steps[j].action))
      && (forall j :: 0 <= j < |steps| - 1 ==>
            steps[j + 1].state == steps[j].result.nextState
            && !steps[j].result.done && steps[j].update != Some(None))
    decreases maxPathLength - k
  {
    var (step, v1) := StepOf(algo, env, e, k, s, v);
    if step.update != Some(None) && !(step.result.done || Converged(algo, v1) || k + 1 == maxPathLength) {
      StepsChained(algo, env, maxPathLength, e, k + 1, step.result.nextState, v1);
      var rest := StepsFrom(algo, env, maxPathLength, e, k + 1, step.result.nextState, v1).0;
      var steps := [step] + rest;
      assert StepsFrom(algo, env, maxPathLength, e, k, s, v).0 == steps;
      forall j | 0 < j < |steps|
        ensures steps[j] == rest[j - 1]
      {
      }
    }
  }

  /** How the loop ended is read off its last step: it raised exactly when
      that step's update was `None`; otherwise `new_episode` is told whether
      that step terminated; and a loop that stopped early without the
      environment terminating stopped because the agent was done. */
  lemma {:induction false} StepsEnd(algo: Algo, env: Env, maxPathLength: int, e: nat, k: nat, s: State, v: View)
    requires k < maxPathLength
    ensures var t := StepsFrom(algo, env, maxPathLength, e, k, s, v);
      var (steps, end, v1) := (t.0, t.1, t.2);
      steps != []
      && (end.Crashed? <==> steps[|steps| - 1].update == Some(None))
      && (end.Crashed? ==> end.error == TypeError)
      && (end.Ended? ==> end.terminated == steps[|steps| - 1].result.done)
      && (end.Ended? && !end.terminated && |steps| < maxPathLength - k ==> Converged(algo, v1))
    decreases maxPathLength - k
  {
    var (step, v1) := StepOf(algo, env, e, k, s, v);
    if step.update != Some(None) && !(step.result.done || Converged(algo, v1) || k + 1 == maxPathLength) {
      StepsEnd(algo, env, maxPathLength, e, k + 1, step.result.nextState, v1);
      var rest := StepsFrom(algo, env, maxPathLength, e, k + 1, step.result.nextState, v1).0;
      assert ([step] + rest)[|[step] + rest| - 1] == rest[|rest| - 1];
    }
  }

  /** Against an environment that never terminates, with an agent that is
      never done and always has an update, every episode runs the full
      `maxPathLength` steps and ends unterminated. */
  lemma {:induction false} StepsRunToLimit(algo: Algo, env: Env, maxPathLength: int, e: nat, k: nat, s: State, v: View)
    requires k < maxPathLength
    requires forall e', k', a :: !env.step(e', k', a).done
    requires forall n :: algo.delta(n).Some?
    requires forall w :: !algo.solved(w)
    ensures var t := StepsFrom(algo, env, maxPathLength, e, k, s, v);
      |t.0| == maxPathLength - k && t.1 == Ended(false)
    decreases maxPathLength - k
  {
    var (step, v1) := StepOf(algo, env, e, k, s, v);
    assert !step.result.done && !Converged(algo, v1);
    assert step.update != Some(None) by {
      if step.update.Some? {
        assert algo.delta(AfterLearn(v).produced).Some?;
      }
    }
    if k + 1 < maxPathLength {
      StepsRunToLimit(algo, env, maxPathLength, e, k + 1, step.result.nextState, v1);
    }
  }

  /** An update is taken exactly on the steps where the agent became
      updatable, and it is the next update the agent produces. */
  lemma StepUpdatesWhenReady(algo: Algo, env: Env, e: nat, k: nat, s: State, v: View)
    ensures var t := StepOf(algo, env, e, k, s, v);
      var (step, v1) := (t.0, t.1);
      (step.update.Some? <==> ReadyToUpdate(algo, AfterLearn(v)))
      && (step.update.Some? ==> step.update.value == algo.delta(v.produced) && v1.pending == 0)
      && (step.update.None? ==> v1.pending == v.pending + 1)
      && v1.learned == v.learned + 1
  {
  }

  // ---------------------------------------------------------------------
  // Episodes and runs

  /** Episode `e` starts from `reset(e)` and runs at most `maxPathLength`
      steps; with no step allowed it raises before `new_episode`. */
  lemma EpisodeShape(algo: Algo, env: Env, maxPathLength: int, e: nat, v: View)
    ensures var ep := EpisodeOf(algo, env, maxPathLength, e, v).0;
      (maxPathLength <= 0 ==> ep == Episode([], Crashed(UnboundDone)))
      && (0 < maxPathLength ==>
            1 <= |ep.steps| <= maxPathLength && ep.steps[0].state == env.reset(e)
            && (ep.end.Crashed? ==> ep.end.error == TypeError))
  {
    if 0 < maxPathLength {
      StepsEnd(algo, env, maxPathLength, e, 0, env.reset(e), v);
    }
  }

  /** Only the last episode of a run may have raised, and a run that did not
      raise stopped because the iterations were used up or the agent was
      done. */
  lemma {:induction false} RunStops(algo: Algo, env: Env, nIter: int, maxPathLength: int, it: nat, v: View)
    ensures var r := RunFrom(algo, env, nIter, maxPathLength, it, v);
      (forall i :: 0 <= i < |r.episodes| - 1 ==> r.episodes[i].end.Ended?)
      && (RunOutcome(r) == Pass ==> it + |r.episodes| >= nIter || Converged(algo, r.final))
    decreases nIter - it
  {
    if !(it >= nIter || Converged(algo, v)) {
      var (ep, v1) := EpisodeOf(algo, env, maxPathLength, it, v);
      if ep.end.Ended? {
        RunStops(algo, env, nIter, maxPathLength, it + 1, v1);
        var rest := RunFrom(algo, env, nIter, maxPathLength, it + 1, v1);
        var eps := [ep] + rest.episodes;
        assert RunFrom(algo, env, nIter, maxPathLength, it, v) == Run(eps, rest.final);
        forall i | 0 < i < |eps|
          ensures eps[i] == rest.episodes[i - 1]
        {
        }
        if rest.episodes != [] {
          assert eps[|eps| - 1] == rest.episodes[|rest.episodes| - 1];
        }
      }
    }
  }

  /** The `i`-th of `eps` is a non-empty episode starting from `reset(it + i)`. */
  predicate RunStartsFrom(eps: seq<Episode>, it: nat, env: Env)
  {
    forall i :: 0 <= i < |eps| ==> eps[i].steps != [] && eps[i].steps[0].state == env.reset(it + i)
  }

  /** The `i`-th episode of a run from iteration `it` starts from
      `reset(it + i)`. */
  lemma {:induction false} RunStarts(algo: Algo, env: Env, nIter: int, maxPathLength: int, it: nat, v: View)
    requires 0 < maxPathLength
    ensures RunStartsFrom(RunFrom(algo, env, nIter, maxPathLength, it, v).episodes, it, env)
    decreases nIter - it
  {
    if !(it >= nIter || Converged(algo, v)) {
      var (ep, v1) := EpisodeOf(algo, env, maxPathLength, it, v);
      EpisodeShape(algo, env, maxPathLength, it, v);
      if ep.end.Ended? {
        RunStarts(algo, env, nIter, maxPathLength, it + 1, v1);
        var rest := RunFrom(algo, env, nIter, maxPathLength, it + 1, v1);
        var eps := [ep] + rest.episodes;
        assert RunFrom(algo, env, nIter, maxPathLength, it, v) == Run(eps, rest.final);
        forall i | 0 <= i < |eps|
          ensures eps[i].steps != [] && eps[i].steps[0].state == env.reset(it + i)
        {
          if 0 < i {
            assert eps[i] == rest.episodes[i - 1] && it + i == (it + 1) + (i - 1);
          }
        }
      }
    }
  }

  /** The agent is not done after any of the first `|steps| - 1` steps,
      replayed from `v`. */
  ghost predicate NotDoneBeforeLast(algo: Algo, v: View, steps: seq<Step>)
  {
    forall j :: 0 < j < |steps| ==> !Converged(algo, Replay(v, StepsEvents(steps[..j])))
  }

  /** The loop asks `agent.done()` after every step, so it never runs a step
      after one that left the agent done: the episode ends at the first step
      after which the agent is done, if it does not end earlier. */
  lemma {:induction false} StepsNotDoneBeforeLast(algo: Algo, env: Env, maxPathLength: int, e: nat, k: nat, s: State, v: View)
    requires k < maxPathLength
    ensures NotDoneBeforeLast(algo, v, StepsFrom(algo, env, maxPathLength, e, k, s, v).0)
    decreases maxPathLength - k
  {
    var (step, v1) := StepOf(algo, env, e, k, s, v);
    if step.update != Some(None) && !(step.result.done || Converged(algo, v1) || k + 1 == maxPathLength) {
      StepsNotDoneBeforeLast(algo, env, maxPathLength, e, k + 1, step.result.nextState, v1);
      var rest := StepsFrom(algo, env, maxPathLength, e, k + 1, step.result.nextState, v1).0;
      var steps := [step] + rest;
      assert StepsFrom(algo, env, maxPathLength, e, k, s, v).0 == steps;
      StepReplay(algo, env, e, k, s, v);
      forall j | 0 < j < |steps|
        ensures !Converged(algo, Replay(v, StepsEvents(steps[..j])))
      {
        assert steps[..j] == [step] + rest[..j - 1];
        StepsEventsCons(step, rest[..j - 1]);
        ReplayAppend(v, StepEvents(step), StepsEvents(rest[..j - 1]));
        if j == 1 {
          assert rest[..0] == [];
        }
      }
    }
  }

  /** The agent is not done before any of the episodes of `eps`, replayed from `v`. */
  ghost predicate NotDoneAtStart(algo: Algo, v: View, eps: seq<Episode>)
  {
    forall i :: 0 <= i < |eps| ==> !Converged(algo, Replay(v, RunEvents(eps[..i])))
  }

  /** The loop asks `agent.done()` before every episode, so no episode starts
      while the agent is done. */
  lemma {:induction false} RunNotDoneAtStart(algo: Algo, env: Env, nIter: int, maxPathLength: int, it: nat, v: View)
    ensures NotDoneAtStart(algo, v, RunFrom(algo, env, nIter, maxPathLength, it, v).episodes)
    decreases nIter - it
  {
    if !(it >= nIter || Converged(algo, v)) {
      var (ep, v1) := EpisodeOf(algo, env, maxPathLength, it, v);
      var eps := RunFrom(algo, env, nIter, maxPathLength, it, v).episodes;
      assert eps[..0] == [];
      if ep.end.Ended? {
        RunNotDoneAtStart(algo, env, nIter, maxPathLength, it + 1, v1);
        var rest := RunFrom(algo, env, nIter, maxPathLength, it + 1, v1).episodes;
        assert eps == [ep] + rest;
        EpisodeReplay(algo, env, maxPathLength, it, v);
        forall i | 0 < i < |eps|
          ensures !Converged(algo, Replay(v, RunEvents(eps[..i])))
        {
          assert eps[..i] == [ep] + rest[..i - 1];
          RunEventsCons(ep, rest[..i - 1]);
          ReplayAppend(v, EpisodeEvents(ep), RunEvents(rest[..i - 1]));
        }
      }
    }
  }

  /** Against an environment that never terminates, with an agent that is
      never done and always has an update, the run performs every one of the
      `nIter` iterations, each a full-length episode, and does not raise. */
  lemma {:induction false} RunToLimit(algo: Algo, env: Env, nIter: int, maxPathLength: int, it: nat, v: View)
    requires 0 < maxPathLength
    requires forall e', k', a :: !env.step(e', k', a).done
    requires forall n :: algo.delta(n).Some?
    requires forall w :: !algo.solved(w)
    ensures var r := RunFrom(algo, env, nIter, maxPathLength, it, v);
      |r.episodes| == (if it < nIter then nIter - it else 0)
      && (forall i :: 0 <= i < |r.episodes| ==>
            |r.episodes[i].steps| == maxPathLength && r.episodes[i].end == Ended(false))
      && RunOutcome(r) == Pass
    decreases nIter - it
  {
    if it < nIter {
      var (ep, v1) := EpisodeOf(algo, env, maxPathLength, it, v);
      StepsRunToLimit(algo, env, maxPathLength, it, 0, env.reset(it), v);
      RunToLimit(algo, env, nIter, maxPathLength, it + 1, v1);
      var rest := RunFrom(algo, env, nIter, maxPathLength, it + 1, v1);
      var eps := [ep] + rest.episodes;
      assert RunFrom(algo, env, nIter, maxPathLength, it, v) == Run(eps, rest.final);
      forall i | 0 < i < |eps|
        ensures eps[i] == rest.episodes[i - 1]
      {
      }
    }
  }

  // ---------------------------------------------------------------------
  // The calls made on the agent

  /** The order of calls the loop promises: `learn` directly follows the
      `act` whose state and action it reports; `get_update` directly follows
      a `learn`; and `update` is handed, directly after, exactly what
      `get_update` returned, since `mpi_average` leaves it alone. */
  ghost predicate Protocol(log: seq<Event>)
  {
    (forall i :: 0 <= i < |log| && log[i].ActCall? ==>
       i + 1 < |log| && log[i + 1].LearnCall?
       && log[i + 1].t.state == log[i].state && log[i + 1].t.action == log[i].action)
    && (forall i :: 0 <= i < |log| && log[i].LearnCall? ==> 0 < i && log[i - 1].ActCall?)
    && (forall i :: 0 <= i < |log| && log[i].GetUpdateCall? ==>
          0 < i && log[i - 1].LearnCall? && i + 1 < |log| && log[i + 1] == UpdateCall(log[i].update))
    && (forall i :: 0 <= i < |log| && log[i].UpdateCall? ==>
          0 < i && log[i - 1] == GetUpdateCall(log[i].update))
  }

  lemma ProtocolAppend(a: seq<Event>, b: seq<Event>)
    requires Protocol(a) && Protocol(b)
    ensures Protocol(a + b)
  {
    var c := a + b;
    forall i | 0 <= i < |c|
      ensures c[i] == if i < |a| then a[i] else b[i - |a|]
    {
    }
  }

  lemma StepProtocol(s: Step)
    ensures Protocol(StepEvents(s))
  {
  }

  lemma {:induction false} StepsProtocol(steps: seq<Step>)
    ensures Protocol(StepsEvents(steps))
  {
    if steps != [] {
      StepProtocol(steps[0]);
      StepsProtocol(steps[1..]);
      ProtocolAppend(StepEvents(steps[0]), StepsEvents(steps[1..]));
    }
  }

  /** Every call a run makes, in order, keeps to `Protocol`. */
  lemma {:induction false} RunProtocol(eps: seq<Episode>)
    ensures Protocol(RunEvents(eps))
  {
    if eps != [] {
      var ep := eps[0];
      StepsProtocol(ep.steps);
      ProtocolAppend(StepsEvents(ep.steps), if ep.end.Ended? then [NewEpisodeCall(ep.end.terminated)] else []);
      RunProtocol(eps[1..]);
      ProtocolAppend(EpisodeEvents(ep), RunEvents(eps[1..]));
    }
  }

  /** The agent's view after one call, as the agent's own methods define it. */
  function Effect(v: View, ev: Event): View
  {
    match ev
    case ActCall(_, _) => v
    case LearnCall(_) => AfterLearn(v)
    case GetUpdateCall(_) => AfterGetUpdate(v)
    case UpdateCall(u) => AfterUpdate(v, u)
    case NewEpisodeCall(_) => AfterNewEpisode(v)
  }

  /** The agent's view after a sequence of calls. */
  function Replay(v: View, log: seq<Event>): View
    decreases |log|
  {
    if log == [] then v else Replay(Effect(v, log[0]), log[1..])
  }

  lemma {:induction false} ReplayAppend(v: View, a: seq<Event>, b: seq<Event>)
    ensures Replay(v, a + b) == Replay(Replay(v, a), b)
    decreases |a|
  {
    if a == [] {
      assert a + b == b;
    } else {
      assert (a + b)[0] == a[0] && (a + b)[1..] == a[1..] + b;
      ReplayAppend(Effect(v, a[0]), a[1..], b);
    }
  }

  lemma StepsEventsCons(step: Step, rest: seq<Step>)
    ensures StepsEvents([step] + rest) == StepEvents(step) + StepsEvents(rest)
  {
    assert ([step] + rest)[0] == step && ([step] + rest)[1..] == rest;
  }

  lemma RunEventsCons(ep: Episode, rest: seq<Episode>)
    ensures RunEvents([ep] + rest) == EpisodeEvents(ep) + RunEvents(rest)
  {
    assert ([ep] + rest)[0] == ep && ([ep] + rest)[1..] == rest;
  }

  lemma ReplayCons(v: View, ev: Event, rest: seq<Event>)
    ensures Replay(v, [ev] + rest) == Replay(Effect(v, ev), rest)
  {
    assert ([ev] + rest)[0] == ev && ([ev] + rest)[1..] == rest;
  }

  lemma StepReplay(algo: Algo, env: Env, e: nat, k: nat, s: State, v: View)
    ensures var t := StepOf(algo, env, e, k, s, v);
      t.1 == Replay(v, StepEvents(t.0))
  {
    var (step, v1) := StepOf(algo, env, e, k, s, v);
    var act := ActCall(step.state, step.action);
    var learn := LearnCall(Transition(step.state, step.action, step.result.reward, step.result.nextState, step.result.done));
    var tail := if step.update.Some? then [GetUpdateCall(step.update.value), UpdateCall(step.update.value)] else [];
    assert StepEvents(step) == [act] + ([learn] + tail);
    ReplayCons(v, act, [learn] + tail);
    ReplayCons(v, learn, tail);
    if step.update.Some? {
      var u := step.update.value;
      assert tail == [GetUpdateCall(u)] + ([UpdateCall(u)] + []);
      ReplayCons(AfterLearn(v), GetUpdateCall(u), [UpdateCall(u)] + []);
      ReplayCons(AfterGetUpdate(AfterLearn(v)), UpdateCall(u), []);
    }
  }

  lemma {:induction false} StepsReplay(algo: Algo, env: Env, maxPathLength: int, e: nat, k: nat, s: State, v: View)
    requires k < maxPathLength
    ensures var t := StepsFrom(algo, env, maxPathLength, e, k, s, v);
      t.2 == Replay(v, StepsEvents(t.0))
    decreases maxPathLength - k
  {
    var (step, v1) := StepOf(algo, env, e, k, s, v);
    StepReplay(algo, env, e, k, s, v);
    assert StepsEvents([step]) == StepEvents(step) + [] by {
      assert [step][1..] == [];
    }
    assert StepEvents(step) + [] == StepEvents(step);
    if step.update != Some(None) && !(step.result.done || Converged(algo, v1) || k + 1 == maxPathLength) {
      StepsReplay(algo, env, maxPathLength, e, k + 1, step.result.nextState, v1);
      var rest := StepsFrom(algo, env, maxPathLength, e, k + 1, step.result.nextState, v1).0;
      assert ([step] + rest)[0] == step && ([step] + rest)[1..] == rest;
      ReplayAppend(v, StepEvents(step), StepsEvents(rest));
    }
  }

  lemma EpisodeReplay(algo: Algo, env: Env, maxPathLength: int, e: nat, v: View)
    ensures var t := EpisodeOf(algo, env, maxPathLength, e, v);
      t.1 == Replay(v, EpisodeEvents(t.0))
  {
    if 0 < maxPathLength {
      var (steps, end, v1) := StepsFrom(algo, env, maxPathLength, e, 0, env.reset(e), v);
      StepsReplay(algo, env, maxPathLength, e, 0, env.reset(e), v);
      var tail := if end.Ended? then [NewEpisodeCall(end.terminated)] else [];
      ReplayAppend(v, StepsEvents(steps), tail);
      if end.Ended? {
        assert Replay(v1, tail) == Replay(AfterNewEpisode(v1), []);
      } else {
        assert StepsEvents(steps) + tail == StepsEvents(steps);
      }
    } else {
      assert EpisodeEvents(Episode([], Crashed(UnboundDone))) == [];
    }
  }

  /** The agent's state at the end of a run is exactly what its own methods
      make of the calls the run logged: no change reaches the agent except
      through those calls. */
  lemma {:induction false} RunReplay(algo: Algo, env: Env, nIter: int, maxPathLength: int, it: nat, v: View)
    ensures var r := RunFrom(algo, env, nIter, maxPathLength, it, v);
      r.final == Replay(v, RunEvents(r.episodes))
    decreases nIter - it
  {
    if !(it >= nIter || Converged(algo, v)) {
      var (ep, v1) := EpisodeOf(algo, env, maxPathLength, it, v);
      EpisodeReplay(algo, env, maxPathLength, it, v);
      assert RunEvents([ep]) == EpisodeEvents(ep) + [] by {
        assert [ep][1..] == [];
      }
      assert EpisodeEvents(ep) + [] == EpisodeEvents(ep);
      if ep.end.Ended? {
        RunReplay(algo, env, nIter, maxPathLength, it + 1, v1);
        var rest := RunFrom(algo, env, nIter, maxPathLength, it + 1, v1).episodes;
        assert ([ep] + rest)[0] == ep && ([ep] + rest)[1..] == rest;
        ReplayAppend(v, EpisodeEvents(ep), RunEvents(rest));
      }
    }
  }
}
