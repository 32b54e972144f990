/** What holds after any run of calls on an engine that was started empty. */
module Guarantees {
  import opened EngineState
  import opened Runs
  import opened References
  import opened Waits
  import opened Leases
  import opened Consumption
  import opened Soundness

  /** An engine with these definitions and nothing running. */
  function Fresh(defs: Definitions): State {
    State(defs, map[], map[], map[], map[], map[], 1, [], [])
  }

  lemma FreshIsSound(defs: Definitions)
    ensures Sound(Fresh(defs)) && (DefinitionsOk(defs) ==> Integrity(Fresh(defs)))
  {}

  /** Whatever definitions it has and whatever is called: leases are whole, no service task was consumed
      twice, each chain of timers has one timer at most and no end of its own, and every instance's
      definition is registered. */
  lemma EveryRunKeeps(defs: Definitions, calls: seq<Call>)
    ensures var s := RunCalls(Fresh(defs), calls);
      Sane(s) && AllPaired(s) && ConsumedOk(s) && OneTimerPerChain(s) && Unlimited(s) && NoOrphans(s)
  {
    FreshIsSound(defs);
    hide Sane, AllPaired, ConsumedOk, OneTimerPerChain, Unlimited, NoOrphans, RunCalls, Fresh;
    RunKeepsSound(Fresh(defs), calls);
  }

  /** With disciplined definitions, and calls that promise it, no pending entry ever dangles. */
  lemma DisciplinedRunsKeepReferences(defs: Definitions, calls: seq<Call>)
    requires DefinitionsOk(defs) && AllSteady(defs) && forall c <- calls :: KeepsReferences(c)
    ensures NoDanglingEntries(RunCalls(Fresh(defs), calls))
  {
    FreshIsSound(defs);
    hide Integrity, NoDanglingEntries, RunCalls;
    ReferentialIntegrity(Fresh(defs), calls);
  }
}
