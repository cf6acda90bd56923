/** Building a run one action at a time. */
module ProtocolRuns {
  import opened Protocol
  import opened ProtocolLease
  import opened ProtocolPayload

  function Last(states: seq<State>): State
    requires states != []
  {
    states[|states| - 1]
  }

  /** What every step of a run is to keep to. */
  datatype Manner = Manner(timely: bool, prompt: bool, unrefused: bool, oneCall: bool, keepsReclaimed: bool)

  const ANYHOW := Manner(false, false, false, false, false)
  const TIMELY := Manner(true, false, false, false, false)
  const PROMPT := Manner(true, true, false, true, false)
  const UNREFUSED := Manner(true, false, true, false, true)
  const STRICT := Manner(true, true, true, true, true)

  /** `oneCall`: nobody calls a second time. `keepsReclaimed`: nobody releases a claim that was reclaimed. */
  ghost predicate Mannered(c: Config, m: Manner, s: State, a: Action) {
    && (m.timely ==> Timely(c, s, a))
    && (m.prompt ==> Prompt(s, a))
    && (m.unrefused ==> !RefusesReclaimed(c, s, a))
    && (m.oneCall ==> !a.Wake?)
    && (m.keepsReclaimed ==> !ReleasesReclaimed(s, a))
  }

  ghost predicate ManneredRun(c: Config, m: Manner, states: seq<State>, actions: seq<Action>) {
    && Run(c, states, actions)
    && forall n :: 0 <= n < |actions| ==> Mannered(c, m, states[n], actions[n])
  }

  /** One more action, and nothing that came before is changed. */
  lemma Append(c: Config, m: Manner, states: seq<State>, actions: seq<Action>, a: Action)
    returns (longer: seq<State>, acted: seq<Action>)
    requires ManneredRun(c, m, states, actions)
    requires Enabled(c, Last(states), a) && Mannered(c, m, Last(states), a)
    ensures ManneredRun(c, m, longer, acted) && Last(longer) == After(c, Last(states), a)
    ensures longer[..|longer| - 1] == states
  {
    longer, acted := states + [After(c, Last(states), a)], actions + [a];
    forall n | 0 <= n < |acted|
      ensures Enabled(c, longer[n], acted[n]) && longer[n + 1] == After(c, longer[n], acted[n])
      ensures Mannered(c, m, longer[n], acted[n])
    {
      if n < |actions| {
        assert longer[n] == states[n] && longer[n + 1] == states[n + 1] && acted[n] == actions[n];
      }
    }
  }

  lemma Extend(c: Config, m: Manner, states: seq<State>, actions: seq<Action>, a: Action)
    returns (longer: seq<State>, acted: seq<Action>)
    requires ManneredRun(c, m, states, actions)
    requires Enabled(c, Last(states), a) && Mannered(c, m, Last(states), a)
    ensures ManneredRun(c, m, longer, acted) && Last(longer) == After(c, Last(states), a)
  {
    longer, acted := Append(c, m, states, actions, a);
  }

  /** A run that keeps to more keeps to less. */
  lemma Loosen(c: Config, m: Manner, k: Manner, states: seq<State>, actions: seq<Action>)
    requires ManneredRun(c, m, states, actions)
    requires (k.timely ==> m.timely) && (k.prompt ==> m.prompt) && (k.unrefused ==> m.unrefused)
    requires (k.oneCall ==> m.oneCall) && (k.keepsReclaimed ==> m.keepsReclaimed)
    ensures ManneredRun(c, k, states, actions)
  {
    forall n | 0 <= n < |actions|
      ensures Mannered(c, k, states[n], actions[n])
    {
      assert Mannered(c, m, states[n], actions[n]);
    }
  }

  lemma MannersMean(c: Config, m: Manner, states: seq<State>, actions: seq<Action>)
    requires ManneredRun(c, m, states, actions)
    ensures m.timely ==> TimelyRun(c, states, actions)
    ensures m.timely && m.prompt ==> PromptRun(c, states, actions)
    ensures m.unrefused ==> forall n :: 0 <= n < |actions| ==> !RefusesReclaimed(c, states[n], actions[n])
    ensures m.oneCall ==> forall n :: 0 <= n < |actions| ==> !actions[n].Wake?
    ensures m.keepsReclaimed ==> forall n :: 0 <= n < |actions| ==> !ReleasesReclaimed(states[n], actions[n])
  {
    forall n | 0 <= n < |actions|
      ensures m.timely ==> Timely(c, states[n], actions[n])
      ensures m.prompt ==> Prompt(states[n], actions[n])
      ensures m.unrefused ==> !RefusesReclaimed(c, states[n], actions[n])
      ensures m.oneCall ==> !actions[n].Wake?
      ensures m.keepsReclaimed ==> !ReleasesReclaimed(states[n], actions[n])
    {
      assert Mannered(c, m, states[n], actions[n]);
    }
  }
}
