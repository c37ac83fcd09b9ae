/** The agent contract of algos/base.py.  An agent owns an ordered parameter
    sequence; `update` adds a delta to each parameter in place and
    `set_gradients` overwrites each parameter's gradient slot, both pairing the
    two sequences with `zip`, so both stop at the shorter one.  The remaining
    queries of the base class return fixed defaults.  Each tensor is modelled
    as one real number. */
module BaseAgent {

  datatype Option<T> = None | Some(value: T)

  /** Why a call raised instead of returning. */
  datatype Error =
    | TypeError        // `update` or `set_gradients` met `None`: for the parameters on the
                       // base class (not callable), or for the values handed in (not iterable)
    | NotImplemented   // `act` on the base class
    | UnboundDone      // `done` read before any step assigned it (see MpiBench)

  datatype Outcome = Pass | Fail(error: Error)

  datatype Result<T> = Ok(value: T) | Err(error: Error)

  type State = seq<real>
  type Action = seq<real>

  /** The (s, a, r, s', done) tuple handed to `learn`. */
  datatype Transition = Transition(state: State, action: Action, reward: real, nextState: State, done: bool)

  /** The parameters after `update`: the zip of `p` and `u` moves each paired
      entry by its delta and leaves the unpaired tail of `p` as it was. */
  function Applied(p: seq<real>, u: seq<real>): (r: seq<real>)
    ensures |r| == |p|
  {
    if p == [] || u == [] then p else [p[0] + u[0]] + Applied(p[1..], u[1..])
  }

  /** The gradient slots after `set_gradients`: each paired slot takes the
      given gradient, the unpaired tail keeps its old value. */
  function Overwritten(slots: seq<real>, g: seq<real>): (r: seq<real>)
    ensures |r| == |slots|
  {
    if slots == [] || g == [] then slots else [g[0]] + Overwritten(slots[1..], g[1..])
  }

  /** Element-wise sum of two updates, the shorter one read as zero beyond its end. */
  function Sum(u: seq<real>, v: seq<real>): (r: seq<real>)
    ensures |r| == if |u| < |v| then |v| else |u|
  {
    if u == [] then v else if v == [] then u else [u[0] + v[0]] + Sum(u[1..], v[1..])
  }

  function Min(a: nat, b: nat): nat { if a < b then a else b }

  lemma {:induction false} AppliedAt(p: seq<real>, u: seq<real>)
    ensures |Applied(p, u)| == |p|
    ensures forall i :: 0 <= i < Min(|p|, |u|) ==> Applied(p, u)[i] == p[i] + u[i]
    ensures forall i :: Min(|p|, |u|) <= i < |p| ==> Applied(p, u)[i] == p[i]
  {
    if p != [] && u != [] {
      AppliedAt(p[1..], u[1..]);
      var r := Applied(p, u);
      assert r == [p[0] + u[0]] + Applied(p[1..], u[1..]);
      forall i | 0 < i < |p|
        ensures r[i] == if i < |u| then p[i] + u[i] else p[i]
      {
        assert r[i] == Applied(p[1..], u[1..])[i - 1];
      }
    }
  }

  /** Entries of the update beyond the last parameter are ignored. */
  lemma {:induction false} ExtraDeltasIgnored(p: seq<real>, u: seq<real>)
    requires |p| <= |u|
    ensures Applied(p, u) == Applied(p, u[..|p|])
  {
    if p != [] {
      assert u[..|p|][1..] == u[1..][..|p| - 1];
      ExtraDeltasIgnored(p[1..], u[1..]);
    }
  }

  /** An all-zero update leaves every parameter unchanged. */
  lemma {:induction false} ZeroUpdateKeeps(p: seq<real>, u: seq<real>)
    requires forall i :: 0 <= i < |u| ==> u[i] == 0.0
    ensures Applied(p, u) == p
  {
    if p != [] && u != [] {
      ZeroUpdateKeeps(p[1..], u[1..]);
      assert p == [p[0]] + p[1..];
    }
  }

  /** Two updates applied one after the other move the parameters as their sum does. */
  lemma {:induction false} UpdatesCompose(p: seq<real>, u: seq<real>, v: seq<real>)
    ensures Applied(Applied(p, u), v) == Applied(p, Sum(u, v))
  {
    if p != [] && u != [] && v != [] {
      UpdatesCompose(p[1..], u[1..], v[1..]);
      var pu := Applied(p, u);
      assert pu[0] == p[0] + u[0] && pu[1..] == Applied(p[1..], u[1..]);
    }
  }

  lemma {:induction false} OverwrittenAt(slots: seq<real>, g: seq<real>)
    ensures |Overwritten(slots, g)| == |slots|
    ensures forall i :: 0 <= i < Min(|slots|, |g|) ==> Overwritten(slots, g)[i] == g[i]
    ensures forall i :: Min(|slots|, |g|) <= i < |slots| ==> Overwritten(slots, g)[i] == slots[i]
  {
    if slots != [] && g != [] {
      OverwrittenAt(slots[1..], g[1..]);
      var r := Overwritten(slots, g);
      assert r == [g[0]] + Overwritten(slots[1..], g[1..]);
      forall i | 0 < i < |slots|
        ensures r[i] == if i < |g| then g[i] else slots[i]
      {
        assert r[i] == Overwritten(slots[1..], g[1..])[i - 1];
      }
    }
  }

  /** Setting the same gradients twice leaves the slots as setting them once. */
  lemma {:induction false} OverwriteIdempotent(slots: seq<real>, g: seq<real>)
    ensures Overwritten(Overwritten(slots, g), g) == Overwritten(slots, g)
  {
    if slots != [] && g != [] {
      OverwriteIdempotent(slots[1..], g[1..]);
      var o := Overwritten(slots, g);
      assert o[0] == g[0] && o[1..] == Overwritten(slots[1..], g[1..]);
    }
  }

  /** BaseAgent: a parameter store with its gradient slots.  `exposed` is false
      for the base class itself, whose `parameters` is `None`; it is true for an
      agent that exposes its store through `parameters`. */
  class Agent {
    const exposed: bool
    const values: array<real>
    const grads: array<real>

    ghost predicate Valid()
    {
      values != grads && values.Length == grads.Length && (!exposed ==> values.Length == 0)
    }

    /** The base class on its own: no learnable parameters. */
    constructor Base()
      ensures Valid() && !exposed
      ensures fresh(values) && fresh(grads)
    {
      exposed := false;
      values := new real[0];
      grads := new real[0];
    }

    /** An agent exposing `init` as its parameters, every gradient slot zero. */
    constructor WithParameters(init: seq<real>)
      ensures Valid() && exposed
      ensures values[..] == init && grads[..] == seq(|init|, _ => 0.0)
      ensures fresh(values) && fresh(grads)
    {
      exposed := true;
      values := new real[|init|](i requires 0 <= i < |init| => init[i]);
      grads := new real[|init|](_ => 0.0);
    }

    /** `parameters`: the base class has none; an exposing agent gives its store. */
    function Parameters(): (r: Option<seq<real>>)
      reads values
      ensures r.Some? <==> exposed
      ensures r.Some? ==> r.value == values[..]
    {
      if exposed then Some(values[..]) else None
    }

    /** `act` is left to the subclasses. */
    function Act(state: State): (r: Result<Action>)
      ensures r.Err? && r.error == NotImplemented
    {
      Err(NotImplemented)
    }

    /** `done`: the base agent never asks to stop training. */
    function Done(): (r: bool)
      ensures !r
    {
      false
    }

    /** `updatable`: the base agent is never ready for an update. */
    function Updatable(): (r: bool)
      ensures !r
    {
      false
    }

    /** `get_update`: the base agent has no update to give. */
    function GetUpdate(): (r: Option<seq<real>>)
      ensures r.None?
    {
      None
    }

    method Learn(t: Transition)
      ensures unchanged(values, grads)
    {
    }

    method NewEpisode(terminated: bool)
      ensures unchanged(values, grads)
    {
    }

    /** `update`: add each delta to the matching parameter, in place. */
    method Update(u: Option<seq<real>>) returns (o: Outcome)
      requires Valid()
      modifies values
      ensures o == if exposed && u.Some? then Pass else Fail(TypeError)
      ensures values[..] == if o.Pass? then Applied(old(values[..]), u.value) else old(values[..])
      ensures unchanged(grads)
    {
      if !exposed || u.None? {
        return Fail(TypeError);
      }
      var d := u.value;
      var n := Min(values.Length, |d|);
      for i := 0 to n
        invariant forall j :: 0 <= j < i ==> values[j] == old(values[j]) + d[j]
        invariant forall j :: i <= j < values.Length ==> values[j] == old(values[j])
      {
        values[i] := values[i] + d[i];
      }
      AppliedAt(old(values[..]), d);
      assert values[..] == Applied(old(values[..]), d);
      o := Pass;
    }

    /** `set_gradients`: overwrite each parameter's gradient slot, in place. */
    method SetGradients(g: Option<seq<real>>) returns (o: Outcome)
      requires Valid()
      modifies grads
      ensures o == if exposed && g.Some? then Pass else Fail(TypeError)
      ensures grads[..] == if o.Pass? then Overwritten(old(grads[..]), g.value) else old(grads[..])
      ensures unchanged(values)
    {
      if !exposed || g.None? {
        return Fail(TypeError);
      }
      var d := g.value;
      var n := Min(grads.Length, |d|);
      for i := 0 to n
        invariant forall j :: 0 <= j < i ==> grads[j] == d[j]
        invariant forall j :: i <= j < grads.Length ==> grads[j] == old(grads[j])
      {
        grads[i] := d[i];
      }
      OverwrittenAt(old(grads[..]), d);
      assert grads[..] == Overwritten(old(grads[..]), d);
      o := Pass;
    }
  }
}
