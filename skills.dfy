/** The skills the engine registers by default (the modules under skills/). Their effects
    are external; the dispatcher needs only each skill's name and the action
    verbs it claims. */
module Skills {

  datatype Skill = Skill(name: string, actions: seq<string>)

  const Desktop := Skill("DesktopControl", ["CLICK", "TYPE", "PRESS", "WAIT"])
  const SystemSkill := Skill("SystemControl", ["OPEN_APP"])
  const Briefing := Skill("DailyBriefing", ["BRIEFING"])
  const Voice := Skill("Voice", ["SPEAK"])
  const Canvas := Skill("Canvas", ["RENDER_CANVAS"])
  const Browser := Skill("Browser", ["BROWSE_OPEN", "BROWSE_GOTO", "BROWSE_READ", "BROWSE_CLOSE"])
  const Terminal := Skill("Terminal", ["RUN_SHELL"])
  const Files := Skill("FileSystem", ["FILE_READ", "FILE_WRITE"])

  /** The default skills in registration order. */
  const DefaultSkills: seq<Skill> := [Desktop, SystemSkill, Briefing, Voice, Canvas, Browser, Terminal, Files]

  /** No two default skills claim the same verb, and no two share a name. */
  lemma DefaultSkillsDisjoint()
    ensures forall i, j, a :: 0 <= i < j < |DefaultSkills| && a in DefaultSkills[i].actions ==>
              a !in DefaultSkills[j].actions
    ensures forall i, j :: 0 <= i < j < |DefaultSkills| ==> DefaultSkills[i].name != DefaultSkills[j].name
  {
  }
}
