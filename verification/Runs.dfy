/** Building runs of the client machine step by step. */
module Runs {
  import opened ClientProtocol

  lemma {:induction false} RunExtend<R>(s: Sys<R>, steps: seq<Step<R>>, st: Step<R>)
    requires Run(s, steps) && Enabled(Exec(s, steps), st)
    ensures Run(s, steps + [st]) && Exec(s, steps + [st]) == Apply(Exec(s, steps), st)
    ensures Calm(s, steps + [st]) <==> Calm(s, steps) && CalmStep(Exec(s, steps), st)
    decreases |steps|
  {
    if steps != [] {
      RunExtend(Apply(s, steps[0]), steps[1..], st);
      assert (steps + [st])[1..] == steps[1..] + [st];
    }
  }

  lemma {:induction false} RunConcat<R>(s: Sys<R>, steps: seq<Step<R>>, more: seq<Step<R>>)
    requires Run(s, steps) && Run(Exec(s, steps), more)
    ensures Run(s, steps + more) && Exec(s, steps + more) == Exec(Exec(s, steps), more)
    ensures Calm(s, steps + more) <==> Calm(s, steps) && Calm(Exec(s, steps), more)
    decreases |steps|
  {
    if steps == [] {
      assert steps + more == more;
    } else {
      RunConcat(Apply(s, steps[0]), steps[1..], more);
      assert (steps + more)[1..] == steps[1..] + more;
    }
  }

  /** The calm run `steps` leads from the initial state to `s`. */
  ghost predicate Reached<R>(steps: seq<Step<R>>, s: Sys<R>) {
    CalmRun(Init(), steps) && Exec(Init(), steps) == s
  }

  lemma Then<R>(steps: seq<Step<R>>, s: Sys<R>, st: Step<R>) returns (steps': seq<Step<R>>)
    requires Reached(steps, s) && Enabled(s, st) && CalmStep(s, st) && s.WellFormed()
    ensures Reached(steps', Effect(s, st)) && steps' == steps + [st]
  {
    RunExtend(Init(), steps, st);
    steps' := steps + [st];
  }
}
