/** The synchronous training loop of mpi_bench.py (`mpi_train`) and its
    reduction step `mpi_average`, which does nothing.  The environment is a pair
    of functions: `reset(e)` gives the first state of episode `e`, and
    `step(e, k, a)` gives the outcome of action `a` at step `k` of episode `e`.
    The functions below state what one run does, step by step; the methods
    below them execute the loop against a `Learner` and are proved to do exactly
    that. */
module MpiBench {
  import opened BaseAgent
  import opened LoopAgent

  datatype StepResult = StepResult(nextState: State, reward: real, done: bool)

  datatype Env = Env(reset: nat -> State, step: (nat, nat, Action) -> StepResult)

  /** One executed step: the state acted on, the action, what the environment
      returned, and, when the agent was updatable, the update that `get_update`
      returned and `update` was handed. */
  datatype Step = Step(state: State, action: Action, result: StepResult, update: Option<Option<seq<real>>>)

  /** How an episode finished: `new_episode` was called with `terminated`, or a call raised. */
  datatype End = Ended(terminated: bool) | Crashed(error: Error)

  datatype Episode = Episode(steps: seq<Step>, end: End)

  datatype Run = Run(episodes: seq<Episode>, final: View)

  /** Lines 22-28: act, step the environment, learn, and when updatable fetch
      the update and apply it unchanged. */
  function StepOf(algo: Algo, env: Env, e: nat, k: nat, s: State, v: View): (r: (Step, View))
    ensures r.0.state == s && r.0.action == Chosen(algo, v, s)
    ensures r.0.result == env.step(e, k, r.0.action)
    ensures r.1.learned == v.learned + 1 && r.1.episodes == v.episodes
  {
    var action := Chosen(algo, v, s);
    var r := env.step(e, k, action);
    var learned := AfterLearn(v);
    if ReadyToUpdate(algo, learned) then
      var u := algo.delta(learned.produced);
      (Step(s, action, r, Some(u)), AfterUpdate(AfterGetUpdate(learned), u))
    else
      (Step(s, action, r, None), learned)
  }

  /** Lines 21-32 from step `k` on, in state `s`: the steps executed, how the
      episode's step loop ended, and the agent afterwards. */
  function StepsFrom(algo: Algo, env: Env, maxPathLength: int, e: nat, k: nat, s: State, v: View): (r: (seq<Step>, End, View))
    requires k < maxPathLength
    ensures 1 <= |r.0| <= maxPathLength - k
    ensures r.0[0].state == s
    decreases maxPathLength - k
  {
    var (step, v1) := StepOf(algo, env, e, k, s, v);
    if step.update == Some(None) then
      ([step], Crashed(TypeError), v1)
    else if step.result.done || Converged(algo, v1) || k + 1 == maxPathLength then
      ([step], Ended(step.result.done), v1)
    else
      var (rest, end, v2) := StepsFrom(algo, env, maxPathLength, e, k + 1, step.result.nextState, v1);
      ([step] + rest, end, v2)
  }

  /** Lines 20-33: one episode.  With no step to run, `done` is never bound
      and `new_episode(done)` raises. */
  function EpisodeOf(algo: Algo, env: Env, maxPathLength: int, e: nat, v: View): (r: (Episode, View))
    ensures maxPathLength <= 0 ==> r == (Episode([], Crashed(UnboundDone)), v)
    ensures 0 < maxPathLength ==> 1 <= |r.0.steps| <= maxPathLength && r.0.steps[0].state == env.reset(e)
  {
    if maxPathLength <= 0 then
      (Episode([], Crashed(UnboundDone)), v)
    else
      var (steps, end, v1) := StepsFrom(algo, env, maxPathLength, e, 0, env.reset(e), v);
      if end.Crashed? then (Episode(steps, end), v1) else (Episode(steps, end), AfterNewEpisode(v1))
  }

  /** Lines 19-34 from iteration `it` on: never more than `nIter` episodes. */
  function RunFrom(algo: Algo, env: Env, nIter: int, maxPathLength: int, it: nat, v: View): (r: Run)
    ensures r.episodes == [] || it + |r.episodes| <= nIter
    decreases nIter - it
  {
    if it >= nIter || Converged(algo, v) then
      Run([], v)
    else
      var (ep, v1) := EpisodeOf(algo, env, maxPathLength, it, v);
      if ep.end.Crashed? then
        Run([ep], v1)
      else
        var rest := RunFrom(algo, env, nIter, maxPathLength, it + 1, v1);
        Run([ep] + rest.episodes, rest.final)
  }

  function EndOutcome(end: End): Outcome
  {
    if end.Crashed? then Fail(end.error) else Pass
  }

  /** A run raised exactly when its last episode did. */
  function RunOutcome(r: Run): Outcome
  {
    if r.episodes == [] then Pass else EndOutcome(r.episodes[|r.episodes| - 1].end)
  }


  // The calls each piece of a run makes on the agent, in order.

  function StepEvents(s: Step): seq<Event>
  {
    [ActCall(s.state, s.action),
     LearnCall(Transition(s.state, s.action, s.result.reward, s.result.nextState, s.result.done))]
    + (if s.update.Some? then [GetUpdateCall(s.update.value), UpdateCall(s.update.value)] else [])
  }

  function StepsEvents(steps: seq<Step>): seq<Event>
  {
    if steps == [] then [] else StepEvents(steps[0]) + StepsEvents(steps[1..])
  }

  function EpisodeEvents(ep: Episode): seq<Event>
  {
    StepsEvents(ep.steps) + (if ep.end.Ended? then [NewEpisodeCall(ep.end.terminated)] else [])
  }

  function RunEvents(eps: seq<Episode>): seq<Event>
  {
    if eps == [] then [] else EpisodeEvents(eps[0]) + RunEvents(eps[1..])
  }

  /** mpi_average: the reduction across processes would average `x` in
      place; the placeholder does nothing, so the value the caller goes on
      to use is `x` as it was. */
  method MpiAverage<T(==)>(x: T) returns (averaged: T)
    ensures averaged == x
  {
    averaged := x;
  }

  /** Lines 22-28. */
  method TakeStep(env: Env, e: nat, k: nat, s: State, agent: Learner) returns (r: StepResult, o: Outcome, ghost step: Step)
    requires agent.Valid()
    modifies agent, agent.core.values
    ensures agent.Valid()
    ensures (step, agent.Current()) == StepOf(agent.algo, env, e, k, s, old(agent.Current()))
    ensures r == step.result
    ensures o == if step.update == Some(None) then Fail(TypeError) else Pass
    ensures agent.log == old(agent.log) + StepEvents(step)
  {
    var action := agent.Act(s);
    r := env.step(e, k, action);
    agent.Learn(Transition(s, action, r.reward, r.nextState, r.done));
    o := Pass;
    if agent.Updatable() {
      var u := agent.GetUpdate();
      var averaged := MpiAverage(u);
      o := agent.Update(averaged);
      step := Step(s, action, r, Some(u));
    } else {
      step := Step(s, action, r, None);
    }
  }

  /** EpisodeOf taken apart at how its step loop ended. */
  lemma EpisodeOfSteps(algo: Algo, env: Env, maxPathLength: int, e: nat, v: View, steps: seq<Step>, end: End, v1: View)
    requires 0 < maxPathLength
    requires StepsFrom(algo, env, maxPathLength, e, 0, env.reset(e), v) == (steps, end, v1)
    ensures EpisodeOf(algo, env, maxPathLength, e, v)
      == (Episode(steps, end), if end.Crashed? then v1 else AfterNewEpisode(v1))
  {
  }

  lemma AppendAssoc(a: seq<Event>, b: seq<Event>, c: seq<Event>)
    ensures (a + b) + c == a + (b + c)
  {
  }

  /** StepsFrom with the steps already executed, and the calls they made,
      carried along: the shape the loop of `StepLoop` follows. */
  function StepsAcc(algo: Algo, env: Env, maxPathLength: int, e: nat, k: nat, s: State, v: View,
                    acc: seq<Step>, log: seq<Event>): (seq<Step>, End, View, seq<Event>)
    requires k < maxPathLength
    decreases maxPathLength - k
  {
    var (step, v1) := StepOf(algo, env, e, k, s, v);
    var acc1 := acc + [step];
    var log1 := log + StepEvents(step);
    if step.update == Some(None) then
      (acc1, Crashed(TypeError), v1, log1)
    else if step.result.done || Converged(algo, v1) || k + 1 == maxPathLength then
      (acc1, Ended(step.result.done), v1, log1)
    else
      StepsAcc(algo, env, maxPathLength, e, k + 1, step.result.nextState, v1, acc1, log1)
  }

  lemma {:induction false} StepsAccIsStepsFrom(algo: Algo, env: Env, maxPathLength: int, e: nat, k: nat, s: State, v: View,
                                               acc: seq<Step>, log: seq<Event>)
    requires k < maxPathLength
    ensures var t := StepsFrom(algo, env, maxPathLength, e, k, s, v);
      StepsAcc(algo, env, maxPathLength, e, k, s, v, acc, log) == (acc + t.0, t.1, t.2, log + StepsEvents(t.0))
    decreases maxPathLength - k
  {
    var (step, v1) := StepOf(algo, env, e, k, s, v);
    assert StepsEvents([step]) == StepEvents(step) by {
      assert [step][1..] == [];
    }
    if step.update != Some(None) && !(step.result.done || Converged(algo, v1) || k + 1 == maxPathLength) {
      StepsAccIsStepsFrom(algo, env, maxPathLength, e, k + 1, step.result.nextState, v1, acc + [step], log + StepEvents(step));
      var rest := StepsFrom(algo, env, maxPathLength, e, k + 1, step.result.nextState, v1).0;
      assert ([step] + rest)[0] == step && ([step] + rest)[1..] == rest;
      assert (acc + [step]) + rest == acc + ([step] + rest);
      assert (log + StepEvents(step)) + StepsEvents(rest) == log + (StepEvents(step) + StepsEvents(rest));
    }
  }

  /** Lines 21-32: the step loop of one episode, starting in state `s0`.  A
      `break` of the source ends the loop here too; an exception raised by
      `update` ends it with `Fail`. */
  method StepLoop(env: Env, maxPathLength: int, e: nat, s0: State, agent: Learner)
    returns (o: Outcome, done: bool, ghost steps: seq<Step>)
    requires agent.Valid() && 0 < maxPathLength
    modifies agent, agent.core.values
    ensures agent.Valid()
    ensures StepsFrom(agent.algo, env, maxPathLength, e, 0, s0, old(agent.Current()))
      == (steps, if o.Fail? then Crashed(o.error) else Ended(done), agent.Current())
    ensures agent.log == old(agent.log) + StepsEvents(steps)
  {
    ghost var algo := agent.algo;
    ghost var v0 := agent.Current();
    ghost var v := v0;
    ghost var events: seq<Event> := [];
    ghost var full := StepsAcc(algo, env, maxPathLength, e, 0, s0, v0, [], []);
    var state := s0;
    steps := [];
    var k: nat := 0;
    while true
      invariant k < maxPathLength
      invariant agent.Valid() && agent.algo == algo && agent.Current() == v
      invariant agent.log == old(agent.log) + events
      invariant full == StepsAcc(algo, env, maxPathLength, e, k, state, v, steps, events)
      decreases maxPathLength - k
    {
      var r, so, step := TakeStep(env, e, k, state, agent);
      v := agent.Current();
      AppendAssoc(old(agent.log), events, StepEvents(step));
      steps, events := steps + [step], events + StepEvents(step);
      done := r.done;
      if so.Fail? {
        o := so;
        assert full == (steps, Crashed(TypeError), v, events);
        break;
      }
      if done || agent.Done() || k + 1 == maxPathLength {
        o := Pass;
        assert full == (steps, Ended(done), v, events);
        break;
      }
      state := r.nextState;
      k := k + 1;
    }
    assert StepsFrom(algo, env, maxPathLength, e, 0, s0, v0) == (steps, if o.Fail? then Crashed(o.error) else Ended(done), v)
        && events == StepsEvents(steps) by {
      StepsAccIsStepsFrom(algo, env, maxPathLength, e, 0, s0, v0, [], []);
      var t := StepsFrom(algo, env, maxPathLength, e, 0, s0, v0);
      assert [] + t.0 == t.0 && [] + StepsEvents(t.0) == StepsEvents(t.0);
    }
  }

  /** Lines 20-33: one episode, with the step loop bounded by `maxPathLength`. */
  method RunEpisode(env: Env, maxPathLength: int, e: nat, agent: Learner) returns (o: Outcome, ghost ep: Episode)
    requires agent.Valid()
    modifies agent, agent.core.values
    ensures agent.Valid()
    ensures (ep, agent.Current()) == EpisodeOf(agent.algo, env, maxPathLength, e, old(agent.Current()))
    ensures agent.log == old(agent.log) + EpisodeEvents(ep)
    ensures o == EndOutcome(ep.end)
  {
    var state := env.reset(e);
    if maxPathLength <= 0 {
      // the `for` body never runs, so `done` is unbound when line 33 reads it
      ep := Episode([], Crashed(UnboundDone));
      return Fail(UnboundDone), ep;
    }
    ghost var v0 := agent.Current();
    var done; ghost var steps;
    o, done, steps := StepLoop(env, maxPathLength, e, state, agent);
    EpisodeOfSteps(agent.algo, env, maxPathLength, e, v0, steps, if o.Fail? then Crashed(o.error) else Ended(done), agent.Current());
    if o.Fail? {
      ep := Episode(steps, Crashed(o.error));
      return;
    }
    agent.NewEpisode(done);
    ep := Episode(steps, Ended(done));
  }

  /** RunFrom with the episodes already run, and the calls they made, carried
      along: the shape the loop of `Train` follows. */
  function RunAcc(algo: Algo, env: Env, nIter: int, maxPathLength: int, it: nat, v: View,
                  acc: seq<Episode>, log: seq<Event>): (Run, seq<Event>)
    decreases nIter - it
  {
    if it >= nIter || Converged(algo, v) then
      (Run(acc, v), log)
    else
      var (ep, v1) := EpisodeOf(algo, env, maxPathLength, it, v);
      if ep.end.Crashed? then (Run(acc + [ep], v1), log + EpisodeEvents(ep))
      else RunAcc(algo, env, nIter, maxPathLength, it + 1, v1, acc + [ep], log + EpisodeEvents(ep))
  }

  lemma {:induction false} RunAccIsRunFrom(algo: Algo, env: Env, nIter: int, maxPathLength: int, it: nat, v: View,
                                           acc: seq<Episode>, log: seq<Event>)
    ensures var r := RunFrom(algo, env, nIter, maxPathLength, it, v);
      RunAcc(algo, env, nIter, maxPathLength, it, v, acc, log) == (Run(acc + r.episodes, r.final), log + RunEvents(r.episodes))
    decreases nIter - it
  {
    if it >= nIter || Converged(algo, v) {
      assert acc + [] == acc && log + [] == log;
    } else {
      var (ep, v1) := EpisodeOf(algo, env, maxPathLength, it, v);
      assert RunEvents([ep]) == EpisodeEvents(ep) by {
        assert [ep][1..] == [];
      }
      if ep.end.Ended? {
        RunAccIsRunFrom(algo, env, nIter, maxPathLength, it + 1, v1, acc + [ep], log + EpisodeEvents(ep));
        var rest := RunFrom(algo, env, nIter, maxPathLength, it + 1, v1).episodes;
        assert ([ep] + rest)[0] == ep && ([ep] + rest)[1..] == rest;
        assert (acc + [ep]) + rest == acc + ([ep] + rest);
        assert (log + EpisodeEvents(ep)) + RunEvents(rest) == log + (EpisodeEvents(ep) + RunEvents(rest));
      }
    }
  }

  /** What the loop of `Train` has built is the run RunFrom describes, and the
      calls it logged are that run's. */
  lemma RunClosed(algo: Algo, env: Env, nIter: int, maxPathLength: int, v0: View,
                  eps: seq<Episode>, v: View, events: seq<Event>)
    requires RunAcc(algo, env, nIter, maxPathLength, 0, v0, [], []) == (Run(eps, v), events)
    ensures RunFrom(algo, env, nIter, maxPathLength, 0, v0) == Run(eps, v)
    ensures RunEvents(RunFrom(algo, env, nIter, maxPathLength, 0, v0).episodes) == events
  {
    RunAccIsRunFrom(algo, env, nIter, maxPathLength, 0, v0, [], []);
    var r := RunFrom(algo, env, nIter, maxPathLength, 0, v0);
    assert [] + r.episodes == r.episodes && [] + RunEvents(r.episodes) == RunEvents(r.episodes);
  }

  /** mpi_train, lines 16-34: at most `nIter` episodes, stopping early once the
      agent reports itself done; an exception ends the run. */
  method Train(nIter: int, maxPathLength: int, env: Env, agent: Learner) returns (o: Outcome)
    requires agent.Valid()
    modifies agent, agent.core.values
    ensures agent.Valid()
    ensures var r := RunFrom(agent.algo, env, nIter, maxPathLength, 0, old(agent.Current()));
      agent.Current() == r.final && agent.log == old(agent.log) + RunEvents(r.episodes) && o == RunOutcome(r)
  {
    ghost var algo := agent.algo;
    ghost var v0 := agent.Current();
    ghost var v := v0;
    ghost var events: seq<Event> := [];
    ghost var full := RunAcc(algo, env, nIter, maxPathLength, 0, v0, [], []);
    var trainIter: nat := 0;
    var _ := MpiAverage(agent.core.Parameters());
    ghost var eps: seq<Episode> := [];
    o := Pass;
    while trainIter < nIter && !agent.Done()
      invariant agent.Valid() && agent.algo == algo && agent.Current() == v
      invariant trainIter == |eps|
      invariant agent.log == old(agent.log) + events
      invariant full == RunAcc(algo, env, nIter, maxPathLength, trainIter, v, eps, events)
      invariant o == Pass && RunOutcome(Run(eps, v)) == Pass
      decreases nIter - trainIter
    {
      ghost var ep;
      o, ep := RunEpisode(env, maxPathLength, trainIter, agent);
      v := agent.Current();
      AppendAssoc(old(agent.log), events, EpisodeEvents(ep));
      eps, events := eps + [ep], events + EpisodeEvents(ep);
      if o.Fail? {
        assert full == (Run(eps, v), events);
        break;
      }
      trainIter := trainIter + 1;
    }
    assert full == (Run(eps, v), events) && o == RunOutcome(Run(eps, v));
    ghost var r := RunFrom(algo, env, nIter, maxPathLength, 0, v0);
    RunClosed(algo, env, nIter, maxPathLength, v0, eps, v, events);
  }
}
