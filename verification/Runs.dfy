/** Runs of the operator: passes and restarts, in any order, under any environment. */
module Runs {
  import opened Kube
  import opened Resource
  import opened Operands
  import opened Controller

  datatype Event = DoPass | Restart

  datatype Report = Report(verdict: Verdict, results: seq<ReconcileResult>)

  datatype RunOut = RunOut(w: World, m: Memory, reports: seq<Report>)

  /** A run from some memory; a restart puts the operator back to its bundle and forgets everything. */
  function Run(w: World, env: Env, m: Memory, bundle: seq<Entry>, steps: seq<Event>, always: bool): RunOut
    decreases |steps|
  {
    if steps == [] then RunOut(w, m, [])
    else if steps[0].Restart? then Run(w, env, Booted(bundle), bundle, steps[1..], always)
    else
      var out := Pass(w, env, m, always);
      var rest := Run(out.w, env, out.m, bundle, steps[1..], always);
      rest.(reports := [Report(out.verdict, out.results)] + rest.reports)
  }
}
