/** Whole runs: command lines one after another, with any signal at the time of each. */
module Runs {
  import opened Instrument
  import opened CommandLine

  /** One command line, and the signal when it arrives. */
  datatype Step = Step(signal: Signal, line: string)

  function After(w: World, s: State, step: Step): State {
    RunLine(Simulator(w.(signal := step.signal)), s, step.line).state
  }

  function Run(w: World, s: State, steps: seq<Step>): State
    decreases |steps|
  {
    if steps == [] then s else Run(w, After(w, s, steps[0]), steps[1..])
  }
}
