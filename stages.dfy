/** The header the GitLab-style backends (local and GitLab) write before a
    job's tasks: `stages:` and one line per step the job callback registered,
    in registration order. */
module Stages {
  import opened Text

  /** The stage list: one line per registered step, in order. */
  function StagesText(steps: seq<string>): string
  {
    Listing(StagePrefix, steps)
  }

  /** What the stage list writes before each step name. */
  const StagePrefix: string := " - "

  /** The text of a job: the stage list, then what its tasks wrote. */
  function JobText(steps: seq<string>, body: string): string
  {
    Line("stages:") + StagesText(steps) + body
  }

  /** Writing the `stages:` line, the stage list and the body one after the
      other writes the job's text. */
  lemma JobTextParts(t0: string, steps: seq<string>, body: string)
    ensures t0 + Line("stages:") + StagesText(steps) + body == t0 + JobText(steps, body)
  {
    AppendAssoc(t0, Line("stages:"), StagesText(steps));
    AppendAssoc(t0, Line("stages:") + StagesText(steps), body);
  }
}
