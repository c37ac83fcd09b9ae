/** The agent that the training loop of mpi_bench.py drives.  The concrete
    algorithms that subclass BaseAgent are not part of this model; what the loop
    relies on is kept here as configuration: after how many learned transitions
    the agent becomes updatable, which action its policy picks, which update
    `get_update` produces, and when the agent declares itself done.  The
    agent's parameters live in a BaseAgent store, so `update` is the base
    class's in-place addition.  A ghost log records every call the loop makes. */
module LoopAgent {
  import opened BaseAgent

  /** The parts of a concrete algorithm that are opaque to the loop.
      `policy` receives the parameters, the number of transitions learned so far
      (standing in for the sampling randomness) and the state; `delta` gives the
      n-th update `get_update` produces; `solved` decides `done()` from what
      the loop can observe of the agent: its parameters and its counters. */
  datatype Algo = Algo(
    updateFrequency: nat,
    policy: (seq<real>, nat, State) -> Action,
    delta: nat -> Option<seq<real>>,
    solved: View -> bool)

  /** The agent's state as the loop can observe it. */
  datatype View = View(params: seq<real>, pending: nat, learned: nat, episodes: nat, produced: nat)

  /** One call the training loop made on the agent. */
  datatype Event =
    | ActCall(state: State, action: Action)
    | LearnCall(t: Transition)
    | GetUpdateCall(update: Option<seq<real>>)
    | UpdateCall(update: Option<seq<real>>)
    | NewEpisodeCall(terminated: bool)

  predicate ReadyToUpdate(algo: Algo, v: View)
  {
    v.pending >= algo.updateFrequency
  }

  predicate Converged(algo: Algo, v: View)
  {
    algo.solved(v)
  }

  function Chosen(algo: Algo, v: View, s: State): Action
  {
    algo.policy(v.params, v.learned, s)
  }

  function AfterLearn(v: View): View
  {
    v.(pending := v.pending + 1, learned := v.learned + 1)
  }

  function AfterGetUpdate(v: View): View
  {
    v.(pending := 0, produced := v.produced + 1)
  }

  function AfterUpdate(v: View, u: Option<seq<real>>): View
  {
    if u.Some? then v.(params := Applied(v.params, u.value)) else v
  }

  function AfterNewEpisode(v: View): View
  {
    v.(episodes := v.episodes + 1)
  }

  /** With a buffer of `updateFrequency` transitions, the agent becomes
      updatable on exactly the `updateFrequency`-th learn after an update was
      taken, and is not updatable again right after `get_update`. */
  lemma {:induction false} ReadyAfterFrequencyLearns(algo: Algo, v: View, n: nat)
    requires v.pending == 0
    ensures ReadyToUpdate(algo, LearnTimes(v, n)) <==> n >= algo.updateFrequency
    ensures LearnTimes(v, n).learned == v.learned + n
    ensures !ReadyToUpdate(algo, AfterGetUpdate(LearnTimes(v, n))) <==> algo.updateFrequency > 0
  {
    LearnCounts(v, n);
  }

  function LearnTimes(v: View, n: nat): View
  {
    if n == 0 then v else AfterLearn(LearnTimes(v, n - 1))
  }

  lemma {:induction false} LearnCounts(v: View, n: nat)
    ensures LearnTimes(v, n) == v.(pending := v.pending + n, learned := v.learned + n)
  {
    if n > 0 {
      LearnCounts(v, n - 1);
    }
  }

  class Learner {
    const algo: Algo
    const core: BaseAgent.Agent
    var pending: nat    // transitions learned since the last update was taken
    var learned: nat
    var episodes: nat
    var produced: nat
    ghost var log: seq<Event>

    ghost predicate Valid()
    {
      core.Valid() && core.exposed
    }

    function Current(): View
      reads this, core.values
    {
      View(core.values[..], pending, learned, episodes, produced)
    }

    constructor (algo: Algo, init: seq<real>)
      ensures Valid() && this.algo == algo
      ensures Current() == View(init, 0, 0, 0, 0) && log == []
      ensures fresh(core) && fresh(core.values) && fresh(core.grads)
    {
      this.algo := algo;
      core := new BaseAgent.Agent.WithParameters(init);
      pending, learned, episodes, produced := 0, 0, 0, 0;
      log := [];
    }

    method Act(s: State) returns (a: Action)
      modifies this`log
      ensures a == Chosen(algo, Current(), s)
      ensures log == old(log) + [ActCall(s, a)]
    {
      a := algo.policy(core.values[..], learned, s);
      log := log + [ActCall(s, a)];
    }

    method Learn(t: Transition)
      modifies this`pending, this`learned, this`log
      ensures Current() == AfterLearn(old(Current()))
      ensures log == old(log) + [LearnCall(t)]
    {
      pending, learned := pending + 1, learned + 1;
      log := log + [LearnCall(t)];
    }

    /** `updatable`: ready once `updateFrequency` transitions were learned
        since the last update was taken. */
    function Updatable(): (r: bool)
      reads this, core.values
      ensures r <==> pending >= algo.updateFrequency
    {
      ReadyToUpdate(algo, Current())
    }

    /** `done`: the algorithm's own stopping criterion, on the current view. */
    function Done(): (r: bool)
      reads this, core.values
      ensures r <==> algo.solved(Current())
    {
      Converged(algo, Current())
    }

    /** Produce the next update from the accumulated experience, which is consumed. */
    method GetUpdate() returns (u: Option<seq<real>>)
      modifies this`pending, this`produced, this`log
      ensures u == algo.delta(old(produced))
      ensures Current() == AfterGetUpdate(old(Current()))
      ensures log == old(log) + [GetUpdateCall(u)]
    {
      u := algo.delta(produced);
      pending, produced := 0, produced + 1;
      log := log + [GetUpdateCall(u)];
    }

    /** The base class's `update`, applied to this agent's store. */
    method Update(u: Option<seq<real>>) returns (o: Outcome)
      requires Valid()
      modifies core.values, this`log
      ensures o == if u.Some? then Pass else Fail(TypeError)
      ensures Current() == AfterUpdate(old(Current()), u)
      ensures log == old(log) + [UpdateCall(u)]
      ensures unchanged(core.grads)
    {
      o := core.Update(u);
      log := log + [UpdateCall(u)];
    }

    method NewEpisode(terminated: bool)
      modifies this`episodes, this`log
      ensures Current() == AfterNewEpisode(old(Current()))
      ensures log == old(log) + [NewEpisodeCall(terminated)]
    {
      episodes := episodes + 1;
      log := log + [NewEpisodeCall(terminated)];
    }
  }
}
