/** The records that flow through the pipeline (core/types.py, skills/base.py). */
module Types {
  import opened Wrappers

  /** A command normalised by an adapter. The timestamp is the adapter's
      clock reading, in seconds. */
  datatype UserCommand = UserCommand(
    rawText: string,
    senderId: string,
    platform: string,
    timestamp: real,
    messageId: string)

  /** The outcome of an agent's action. */
  datatype AgentResult = AgentResult(success: bool, message: string)

  /** One atomic step of an execution plan. */
  datatype Step = Step(
    description: string,
    actionType: string,
    targetElement: Option<string>,
    value: Option<string>)

  /** The outcome of a skill's execution. */
  datatype SkillResult = SkillResult(success: bool, message: string)

  /** Python's `str(x)` for an `Optional[str]`: `None` prints as "None". */
  function PyStr(x: Option<string>): string {
    match x
    case Some(s) => s
    case None => "None"
  }

  /** Python's truthiness of an `Optional[str]`: neither `None` nor "". */
  predicate Truthy(x: Option<string>) {
    x.Some? && x.value != ""
  }
}
