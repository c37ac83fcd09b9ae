# dist_rl: the agent contract and the synchronous training loop

This project models two pieces of the dist_rl benchmark:

- `BaseAgent`, the interface every reinforcement-learning agent of the
  repository implements (algos/base.py).
- `mpi_train`, the synchronous training loop of mpi_bench.py, which drives an
  agent through episodes of an environment. It fetches an update from the agent
  whenever the agent is updatable, passes the update through the reduction
  `mpi_average` (a placeholder that does nothing) and applies it.

The Dafny modules follow the program's structure:

- `BaseAgent` (base_agent.dfy) is the base class. It is a `class Agent` whose
  parameters and gradient slots are arrays. `update` adds a delta to each
  parameter in place and `set_gradients` overwrites each gradient slot in
  place. Both pair the two sequences with `zip`, so entries beyond the shorter
  one are left alone; the functions `Applied` and `Overwritten` state this. A
  call that meets `None` raises. The other queries (`parameters`, `act`,
  `done`, `updatable`, `get_update`) return the base class's defaults, and
  `learn` and `new_episode` do nothing.
- `LoopAgent` (loop_agent.dfy) is the agent the loop drives. The concrete
  algorithms are not part of this model. The `Learner` class keeps only what
  the loop relies on:
  - it becomes updatable after `updateFrequency` learned transitions;
  - it chooses an action by a policy;
  - `get_update` produces a given sequence of updates;
  - it declares itself done by a given criterion.

  Its `update` is the base class's, applied to the base store. A ghost log
  records every call made on the agent.
- `MpiBench` (mpi_bench.dfy) states, as functions, what one step (`StepOf`),
  one episode's step loop (`StepsFrom`), one episode (`EpisodeOf`) and a whole
  run (`RunFrom`) do. The methods `TakeStep`, `StepLoop`, `RunEpisode` and
  `Train` execute the loop against a `Learner` and are proved to do exactly
  that: the final agent state, the log of calls and the outcome are those of
  the functions. `MpiAverage` hands back the value it was given.
- `TrainingProperties` (mpi_bench_props.dfy) proves what the loop guarantees,
  about those functions:
  - how many episodes run and why a run stops;
  - that `agent.done()` gates the loop: no episode starts, and no further
    step runs, once the agent is done;
  - the shape of every episode;
  - the order of the calls on the agent (`Protocol`), which includes that
    `update` receives exactly what `get_update` returned;
  - that the agent's final state is what its own methods make of the logged
    calls (`Replay`).

Errors are values. A raise is an outcome `Fail(error)` and ends the episode and
the run, as an uncaught exception would. There are two such failures:

- `get_update` returned `None`, so `update` raises.
- `max_path_length <= 0`. The inner `for` body never runs, `done` is never
  bound, and `new_episode(done)` fails on the first episode.

## Model

| member | source | states |
|---|---|---|
| BaseAgent.Agent.Base | algos/base.py:10-13 | the base agent has no learnable parameters, so `parameters` is `None` |
| BaseAgent.Agent.Parameters | algos/base.py:10-13 | `parameters` is `None` on the base class and the agent's current store on an agent that exposes one |
| BaseAgent.Agent.Act | algos/base.py:15-17 | `act` on the base class raises NotImplementedError |
| BaseAgent.Agent.Done | algos/base.py:27-29 | the base agent never asks to stop training |
| BaseAgent.Agent.Updatable | algos/base.py:31-33 | the base agent is never ready for an update |
| BaseAgent.Agent.GetUpdate | algos/base.py:40-42 | the base agent's `get_update` returns `None` |
| BaseAgent.Agent.Learn | algos/base.py:19-21 | `learn` on the base class changes neither parameters nor gradients |
| BaseAgent.Agent.NewEpisode | algos/base.py:23-25 | `new_episode` on the base class changes neither parameters nor gradients |
| BaseAgent.Agent.Update | algos/base.py:35-38 | an update that is present moves each paired parameter by its delta, in place, and leaves the rest; with no parameters or no update it raises and nothing changes; the gradients are untouched |
| BaseAgent.Applied | algos/base.py:37-38 | the parameters after `update` are as many as before |
| BaseAgent.AppliedAt | algos/base.py:37-38 | after `update`, the parameter count is unchanged; parameter i is p[i] + u[i] for i below the shorter length and p[i] beyond it |
| BaseAgent.ExtraDeltasIgnored | algos/base.py:37 | deltas beyond the last parameter have no effect (zip stops at the shorter sequence) |
| BaseAgent.ZeroUpdateKeeps | algos/base.py:35-38 | an all-zero update leaves every parameter as it was |
| BaseAgent.UpdatesCompose | algos/base.py:35-38 | two updates in a row move the parameters as their element-wise sum does |
| BaseAgent.Agent.SetGradients | algos/base.py:44-47 | each paired gradient slot takes the given gradient, in place, and the rest keep theirs; with no parameters or no gradients it raises; the parameters are untouched |
| BaseAgent.Overwritten | algos/base.py:46-47 | the gradient slots after `set_gradients` are as many as before |
| BaseAgent.OverwrittenAt | algos/base.py:46-47 | after `set_gradients`, slot i holds g[i] below the shorter length and its old value beyond it |
| BaseAgent.OverwriteIdempotent | algos/base.py:44-47 | setting the same gradients twice is the same as setting them once |
| BaseAgent.Agent.WithParameters | algos/base.py:10-13 | an agent exposing `init` as its parameters, with every gradient slot zero |
| LoopAgent.Learner.constructor | mpi_bench.py:42 | a fresh agent holds the initial parameters, has learned nothing and has an empty call log |
| LoopAgent.Learner.Act | mpi_bench.py:22 | `act` returns the policy's choice for the state and changes only the log |
| LoopAgent.Learner.Learn | mpi_bench.py:24 | `learn` records one more transition, towards the next update and in total |
| LoopAgent.Learner.GetUpdate | mpi_bench.py:26 | `get_update` returns the next update of the agent's sequence and consumes the pending experience |
| LoopAgent.Learner.Update | mpi_bench.py:28 | `update` applies the base class's update to the agent's parameters; it raises when handed `None` |
| LoopAgent.Learner.NewEpisode | mpi_bench.py:33 | `new_episode` counts one more finished episode |
| LoopAgent.Learner.Updatable | mpi_bench.py:25 | the agent is updatable once `updateFrequency` transitions were learned since the last update was taken |
| LoopAgent.Learner.Done | mpi_bench.py:19 | the agent is done exactly when its algorithm's stopping criterion holds of its current parameters and counters |
| LoopAgent.ReadyAfterFrequencyLearns | mpi_bench.py:24-26 | after an update was taken, the agent is updatable exactly after `updateFrequency` more learns, and with a positive frequency it is not updatable right after `get_update` |
| MpiBench.MpiAverage | mpi_bench.py:12-13 | the reduction is a placeholder: the value the caller goes on to use is the one it passed in |
| MpiBench.StepOf | mpi_bench.py:22-28 | a step acts on the given state with the policy's action, is answered by `env.step` at its position, and counts one more learned transition in the same episode |
| MpiBench.StepsFrom | mpi_bench.py:21-32 | the step loop runs at least one step, starting from the given state, and at most the `max_path_length` steps left |
| MpiBench.EpisodeOf | mpi_bench.py:20-33 | with `max_path_length <= 0` the episode raises with no step run and the agent unchanged; otherwise it starts from `env.reset` and has between 1 and `max_path_length` steps |
| MpiBench.RunFrom | mpi_bench.py:19-34 | a run from iteration `it` has at most `n_iter - it` episodes |
| MpiBench.TakeStep | mpi_bench.py:22-28 | one step calls act, env.step and learn; when the agent is updatable it calls get_update and then update with the same value; state, log and outcome match `StepOf` |
| MpiBench.StepLoop | mpi_bench.py:21-32 | the step loop runs until the environment reports done, the agent is done, `max_path_length` steps ran, or update raised; steps, state, log and outcome match `StepsFrom` |
| MpiBench.RunEpisode | mpi_bench.py:20-33 | one episode resets the environment, runs the step loop and calls `new_episode(done)`, or raises when no step could run; state, log and outcome match `EpisodeOf` |
| MpiBench.Train | mpi_bench.py:16-34 | the whole loop: the final agent state, the full call log and the outcome are those of `RunFrom` from iteration 0 |
| MpiBench.StepsAccIsStepsFrom | mpi_bench.py:21-32 | the step loop, with its executed steps and logged calls carried along, is `StepsFrom` |
| MpiBench.RunAccIsRunFrom | mpi_bench.py:19-34 | the episode loop, with its episodes and logged calls carried along, is `RunFrom` |
| MpiBench.RunClosed | mpi_bench.py:19-34 | what the episode loop built from iteration 0 is the run `RunFrom` describes, and its log is that run's calls |
| TrainingProperties.StepsChained | mpi_bench.py:22-32 | the first step acts on the reset state; each later step acts on the previous step's next state; each step is answered by the environment at its own position; only the last step may have reported done or raised |
| TrainingProperties.StepsEnd | mpi_bench.py:25-33 | the loop raised exactly when the last step's update was `None`; otherwise `new_episode` gets the last step's `done`; a loop that stopped early without termination stopped because the agent was done |
| TrainingProperties.StepsNotDoneBeforeLast | mpi_bench.py:30-31 | no step but the last leaves the agent done, so an episode ends at the first step after which the agent is done, if not earlier |
| TrainingProperties.StepsRunToLimit | mpi_bench.py:21-32 | when the environment never terminates, the agent is never done and always has an update, the loop runs exactly `max_path_length` steps and ends unterminated |
| TrainingProperties.StepUpdatesWhenReady | mpi_bench.py:24-28 | an update is taken exactly when the agent is updatable after `learn`; it is the next one `get_update` produces and `update` receives it unchanged |
| TrainingProperties.EpisodeShape | mpi_bench.py:20-33 | episode e starts from `env.reset` and has between 1 and `max_path_length` steps; with `max_path_length <= 0` it raises with no step run |
| TrainingProperties.RunStops | mpi_bench.py:19-34 | only the last episode of a run may raise; a run that did not raise stopped because `n_iter` iterations ran or the agent was done |
| TrainingProperties.RunNotDoneAtStart | mpi_bench.py:19 | no episode starts while the agent is done: the agent replayed over all earlier episodes is not done |
| TrainingProperties.RunStarts | mpi_bench.py:19-20 | the i-th episode starts from the reset state of training iteration i |
| TrainingProperties.RunToLimit | mpi_bench.py:19-34 | when the environment never terminates, the agent is never done and always has an update, all `n_iter` iterations run, each episode has `max_path_length` steps and the run does not raise |
| TrainingProperties.StepProtocol | mpi_bench.py:22-28 | the calls of one step keep the loop's call order |
| TrainingProperties.StepsProtocol | mpi_bench.py:21-32 | the calls of an episode's steps keep the call order |
| TrainingProperties.RunProtocol | mpi_bench.py:12-34 | every call of a run keeps the call order: `learn` follows the `act` it reports; `get_update` follows a `learn`; and `update` comes right after and receives exactly what `get_update` returned |
| TrainingProperties.ProtocolAppend | mpi_bench.py:19-34 | call logs that each keep the call order still keep it when concatenated |
| TrainingProperties.StepReplay | mpi_bench.py:22-28 | the agent after one step is what its methods make of that step's calls |
| TrainingProperties.StepsReplay | mpi_bench.py:21-32 | the agent after the step loop is what its methods make of the loop's calls |
| TrainingProperties.EpisodeReplay | mpi_bench.py:20-33 | the agent after an episode is what its methods make of the episode's calls |
| TrainingProperties.RunReplay | mpi_bench.py:16-34 | the agent after a run is exactly what its own methods make of the logged calls, so nothing else changes it |

## Left out

- Tensors: each parameter, gradient and delta is one real number, and
  `add_`/`set_` are exact real addition and assignment. Floating-point rounding
  is not modelled.
- The environment is a pair of functions. `reset(e)` gives the first state of
  episode `e`, and `step(e, k, a)` gives the outcome of action `a` at step `k`.
  An environment whose dynamics depend on hidden state beyond that position
  and action is not captured. gym, mj_envs and randopt are not part of this
  model.
- The stopping criterion `done()` sees the agent's parameters and counters
  (`solved: View -> bool`). A criterion on the rewards the agent collected,
  such as a reward threshold, is not expressible, since the view does not keep
  rewards.
- The policy is a function of the parameters, the number of learned
  transitions and the state. Its sampling randomness is folded into that
  function.
- The concrete algorithms (`get_algo`, `get_policy` and the subclasses in
  utils.py and drl/utils.py) are not part of this model. `LoopAgent.Learner`
  stands in for them, with the behaviour described above. A subclass that
  overrides `update` differently is not captured.
- `mpi_average` is a no-op in the source. `MpiBench.MpiAverage` returns the
  value it was given, which stands for the object the caller reads back after
  an in-place reduction; the caller then passes that value on. What follows for
  the loop is stated by `RunProtocol`. No real MPI averaging is modelled.
- algos/base.py declares `parameters` as a property and then calls
  `self.parameters()`. On the base class, calling the property's `None` raises
  a TypeError ("not callable") in `update` and `set_gradients`; reading it as
  a method returning `None` would raise a TypeError in `zip` ("not
  iterable"). The model reads `parameters` as a query and gives the error
  `TypeError` either way, which covers both. mpi_bench.py:18 passes the
  attribute itself to the no-op `mpi_average`, which has no effect either way.
- Gradient slots start at zero. PyTorch's `grad` being `None` before the first
  backward pass is not modelled.
- BaseAgent.Agent.Act: `act` on the base class is a function returning
  `Err(NotImplemented)`; the raise is not threaded into the loop. The loop
  always drives a `Learner`, whose `act` does not raise.
- The `__main__` block (argument parsing, environment construction, the final
  `test`), `rank`, async_bench.py and utils.py are not part of this model.
