/** The deterministic parts of plan creation (agents/planner.py): the history
    block appended to the system prompt, and the post-processing of the
    language model's reply into steps. The model call and the JSON decoder
    are inputs. */
module Planner {
  import opened Wrappers
  import opened Text
  import opened Types

  /** A decoded JSON value. */
  datatype Json =
    | JNull
    | JBool(b: bool)
    | JNumber(n: real)
    | JString(s: string)
    | JArray(items: seq<Json>)
    | JObject(fields: map<string, Json>)

  /** One history item: a dictionary of string values. */
  type Item = map<string, string>

  const HISTORY_HEADER := "User Context/History:"

  function Get(item: Item, key: string, default: string): string {
    if key in item then item[key] else default
  }

  /** The line one history item contributes. */
  function HistoryLine(item: Item): string {
    "- [" + Get(item, "role", "unknown") + "]: " + Get(item, "content", "")
  }

  /** The lines of the history block: none without history, otherwise the
      header followed by one line per item, in order. */
  function HistoryLines(context: Option<seq<Item>>): (lines: seq<string>)
    ensures context.None? || context.value == [] ==> lines == []
    ensures context.Some? && context.value != [] ==>
              && |lines| == |context.value| + 1
              && lines[0] == HISTORY_HEADER
              && forall i | 0 <= i < |context.value| :: lines[i + 1] == HistoryLine(context.value[i])
  {
    if context.None? || context.value == [] then []
    else [HISTORY_HEADER] + seq(|context.value|, i requires 0 <= i < |context.value| => HistoryLine(context.value[i]))
  }

  /** The system prompt the model receives: the fixed instructions, a blank
      line, and the history block. */
  function FullSystemPrompt(instructions: string, context: Option<seq<Item>>): string {
    instructions + "\n\n" + Join("\n", HistoryLines(context))
  }

  /** The `cols` loop and the newline join. */
  method BuildHistory(context: Option<seq<Item>>) returns (contextStr: string)
    ensures contextStr == Join("\n", HistoryLines(context))
  {
    var cols: seq<string> := [];
    if context.Some? && context.value != [] {
      cols := cols + [HISTORY_HEADER];
      var items := context.value;
      var i := 0;
      while i < |items|
        invariant 0 <= i <= |items|
        invariant |cols| == i + 1 && cols[0] == HISTORY_HEADER
        invariant forall k | 0 <= k < i :: cols[k + 1] == HistoryLine(items[k])
      {
        cols := cols + [HistoryLine(items[i])];
        i := i + 1;
      }
      assert cols == HistoryLines(context);
    }
    contextStr := Join("\n", cols);
  }

  lemma HistoryLineNoNewline(item: Item)
    requires forall k | k in item :: Lacks(item[k], '\n')
    ensures Lacks(HistoryLine(item), '\n')
  {
    var role := Get(item, "role", "unknown");
    var content := Get(item, "content", "");
    LacksConcat("- [", role, '\n');
    LacksConcat("- [" + role, "]: ", '\n');
    LacksConcat("- [" + role + "]: ", content, '\n');
  }

  lemma HeaderNoNewline()
    ensures Lacks(HISTORY_HEADER, '\n')
  {
    forall j | 0 <= j < |HISTORY_HEADER|
      ensures HISTORY_HEADER[j] != '\n'
    {
    }
  }

  /** When no role or content holds a newline, no line of the block does. */
  lemma HistoryLinesNoNewline(context: seq<Item>)
    requires context != []
    requires forall item, k | item in context && k in item :: Lacks(item[k], '\n')
    ensures forall line | line in HistoryLines(Some(context)) :: Lacks(line, '\n')
  {
    var lines := HistoryLines(Some(context));
    forall line | line in lines
      ensures Lacks(line, '\n')
    {
      var n :| 0 <= n < |lines| && lines[n] == line;
      if n == 0 {
        HeaderNoNewline();
      } else {
        var item := context[n - 1];
        assert item in context;
        assert line == HistoryLine(item);
        HistoryLineNoNewline(item);
      }
    }
  }

  /** When no role or content holds a newline, the block splits back into
      the header and one line per item. */
  lemma HistoryRecoverable(context: seq<Item>)
    requires context != []
    requires forall item, k | item in context && k in item :: Lacks(item[k], '\n')
    ensures Split(Join("\n", HistoryLines(Some(context))), '\n') == HistoryLines(Some(context))
  {
    HistoryLinesNoNewline(context);
    SplitJoin(HistoryLines(Some(context)), '\n');
  }

  /** The code-fence clean-up: strip, drop a leading "```json", then drop a
      trailing "```". */
  function StripFences(reply: string): (body: string)
    ensures var c := Strip(reply); exists i, j | 0 <= i <= j <= |c| :: body == c[i..j]
  {
    var c := Strip(reply);
    var a := if StartsWith(c, "```json") then 7 else 0;
    var c1 := c[a..];
    var b := if EndsWith(c1, "```") then |c1| - 3 else |c1|;
    assert c1[..b] == c[a..a + b];
    c1[..b]
  }

  /** A reply fenced as ```json ... ``` yields exactly its body. */
  lemma FencedReplyYieldsBody(body: string)
    ensures StripFences("```json" + body + "```") == body
  {
    var r := "```json" + body + "```";
    assert r[0] == '`' && r[|r| - 1] == '`';
    StripUnchanged(r);
    assert r[..7] == "```json";
    assert r[7..] == body + "```";
    var c1 := r[7..];
    assert c1[|c1| - 3..] == "```";
    assert c1[..|c1| - 3] == body;
  }

  /** A reply without fences is only stripped. */
  lemma UnfencedReplyOnlyStripped(reply: string)
    requires !StartsWith(Strip(reply), "```json") && !EndsWith(Strip(reply), "```")
    ensures StripFences(reply) == Strip(reply)
  {
  }

  /** A fence without the "json" tag keeps its opening: the decoder then sees
      the leading backquotes. */
  lemma UntaggedFenceKeepsOpening(body: string)
    requires !StartsWith(body, "json")
    ensures StripFences("```" + body + "```") == "```" + body
  {
    var r := "```" + body + "```";
    assert r[0] == '`' && r[|r| - 1] == '`';
    StripUnchanged(r);
    if |body| >= 4 {
      assert r[3..7] == body[..4];
    } else {
      assert r[3 + |body|] == '`';
    }
    assert !StartsWith(r, "```json");
    assert r[|r| - 3..] == "```";
    assert r[..|r| - 3] == "```" + body;
  }

  /** A field that must be a string, with a default when absent. A present
      non-string value, null included, fails validation. */
  function TextField(fields: map<string, Json>, key: string, default: string): Option<string> {
    if key !in fields then Some(default)
    else match fields[key]
      case JString(s) => Some(s)
      case _ => None
  }

  /** An optional string field: absent and null both read as None. */
  function OptionalField(fields: map<string, Json>, key: string): Option<Option<string>> {
    if key !in fields then Some(None)
    else match fields[key]
      case JNull => Some(None)
      case JString(s) => Some(Some(s))
      case _ => None
  }

  /** One list element made into a step; None where the source raises (an
      element with no `get`, or a field of the wrong type). */
  function ItemToStep(item: Json): (r: Option<Step>)
    ensures r.Some? ==> item.JObject?
    ensures r.Some? ==> if "description" in item.fields then item.fields["description"] == JString(r.value.description)
                        else r.value.description == "Unknown Step"
    ensures r.Some? ==> if "action_type" in item.fields then item.fields["action_type"] == JString(r.value.actionType)
                        else r.value.actionType == "UNKNOWN"
    ensures r.Some? && "value" !in item.fields ==> r.value.value.None?
  {
    match item
    case JObject(fields) =>
      var d := TextField(fields, "description", "Unknown Step");
      var a := TextField(fields, "action_type", "UNKNOWN");
      var t := OptionalField(fields, "target_element");
      var v := OptionalField(fields, "value");
      if d.Some? && a.Some? && t.Some? && v.Some? then Some(Step(d.value, a.value, t.value, v.value))
      else None
    case _ => None
  }

  /** All elements converted in order, or None as soon as one fails. */
  function ItemsToSteps(items: seq<Json>): (r: Option<seq<Step>>)
    ensures r.Some? <==> forall i | 0 <= i < |items| :: ItemToStep(items[i]).Some?
    ensures r.Some? ==> (|r.value| == |items| &&
              forall i | 0 <= i < |items| :: r.value[i] == ItemToStep(items[i]).value)
  {
    if items == [] then Some([])
    else
      var first := ItemToStep(items[0]);
      var rest := ItemsToSteps(items[1..]);
      if first.Some? && rest.Some? then Some([first.value] + rest.value) else None
  }

  /** The `steps` loop: appends one step per element; any failure makes the
      whole plan fail. */
  method ToSteps(items: seq<Json>) returns (steps: Option<seq<Step>>)
    ensures steps == ItemsToSteps(items)
  {
    var acc: seq<Step> := [];
    var i := 0;
    while i < |items|
      invariant 0 <= i <= |items|
      invariant |acc| == i
      invariant forall k | 0 <= k < i :: ItemToStep(items[k]).Some? && acc[k] == ItemToStep(items[k]).value
    {
      var step := ItemToStep(items[i]);
      if step.None? {
        return None;
      }
      acc := acc + [step.value];
      i := i + 1;
    }
    var spec := ItemsToSteps(items);
    assert spec.Some? && |spec.value| == |acc|;
    assert forall k | 0 <= k < |acc| :: spec.value[k] == acc[k];
    assert spec.value == acc;
    return Some(acc);
  }

  /** The plan the reply yields: empty for a missing or empty reply, for a
      decoder failure, for anything but a list, and when an element fails. */
  function PlanFromReply(reply: Option<string>, decode: string -> Option<Json>): (plan: seq<Step>)
    ensures !Truthy(reply) ==> plan == []
    ensures plan != [] ==> && Truthy(reply)
                           && decode(StripFences(reply.value)).Some?
                           && decode(StripFences(reply.value)).value.JArray?
                           && |plan| == |decode(StripFences(reply.value)).value.items|
  {
    if !Truthy(reply) then []
    else match decode(StripFences(reply.value))
      case Some(JArray(items)) => ItemsToSteps(items).GetOr([])
      case _ => []
  }

  /** `create_plan`: builds the prompt, asks the model, and post-processes
      its reply. `generate` maps the user's intent (the prompt) and the full
      system prompt to the reply. */
  method CreatePlan(userIntent: string, instructions: string, context: Option<seq<Item>>,
                    generate: (string, string) -> Option<string>, decode: string -> Option<Json>)
    returns (plan: seq<Step>)
    ensures plan == PlanFromReply(generate(userIntent, FullSystemPrompt(instructions, context)), decode)
  {
    var contextStr := BuildHistory(context);
    var response := generate(userIntent, instructions + "\n\n" + contextStr);
    if !Truthy(response) {
      return [];
    }
    var clean := StripFences(response.value);
    var data := decode(clean);
    if data.Some? && data.value.JArray? {
      var steps := ToSteps(data.value.items);
      plan := if steps.Some? then steps.value else [];
    } else {
      plan := [];
    }
  }

  /** A missing or empty reply, a reply the decoder rejects, and a decoded
      value that is not a list all yield the empty plan. */
  lemma FailuresYieldNoPlan(reply: Option<string>, decode: string -> Option<Json>)
    requires !Truthy(reply) || decode(StripFences(reply.value)).None? || !decode(StripFences(reply.value)).value.JArray?
    ensures PlanFromReply(reply, decode) == []
  {
  }

  /** Missing fields default to "Unknown Step", "UNKNOWN" and None. */
  lemma EmptyObjectDefaults()
    ensures ItemToStep(JObject(map[])) == Some(Step("Unknown Step", "UNKNOWN", None, None))
  {
  }

  /** A decoded list yields exactly its elements' steps, or nothing at all. */
  lemma PlanAllOrNothing(reply: string, decode: string -> Option<Json>, items: seq<Json>)
    requires reply != [] && decode(StripFences(reply)) == Some(JArray(items))
    ensures var plan := PlanFromReply(Some(reply), decode);
            if forall i | 0 <= i < |items| :: ItemToStep(items[i]).Some? then
              |plan| == |items| && forall i | 0 <= i < |items| :: plan[i] == ItemToStep(items[i]).value
            else plan == []
  {
  }

  /** A fenced list decodes as the bare list would. */
  lemma FencedPlanLikeBare(body: string, decode: string -> Option<Json>)
    ensures PlanFromReply(Some("```json" + body + "```"), decode) ==
              match decode(body)
              case Some(JArray(items)) => ItemsToSteps(items).GetOr([])
              case _ => []
  {
    FencedReplyYieldsBody(body);
  }
}
