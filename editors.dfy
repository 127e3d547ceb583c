/**
 * The experience, projects, education and skills editors. Each hands the
 * edited list to its parent; the whole-list operations are those of
 * `ListEdit`, and the nested bullet and stack edits rewrite one entry
 * through `updateItem`.
 */
module Editors {
  import opened ListEdit
  import opened Schema

  /** The entry `addItem` appends in the experience editor. */
  const EmptyExperience := Experience("", "", "", "", [""])

  /** The entry `addItem` appends in the projects editor. */
  const EmptyProject := Project("", "", [""], "", "")

  /** The entry `addItem` appends in the education editor. */
  const EmptyEducation := Education("", "", "", "")

  /** Experience `addItem`: one blank role with a single blank bullet, after the existing roles. */
  function AddExperience(experience: seq<Experience>): (r: seq<Experience>)
    ensures |r| == |experience| + 1 && r[..|experience|] == experience
    ensures r[|experience|].company == r[|experience|].role == ""
    ensures r[|experience|].startDate == r[|experience|].endDate == ""
    ensures r[|experience|].bullets == [""]
  {
    Appended(experience, EmptyExperience)
  }

  /** Projects `addItem`: one blank project whose stack is a single blank entry, after the existing ones. */
  function AddProject(projects: seq<Project>): (r: seq<Project>)
    ensures |r| == |projects| + 1 && r[..|projects|] == projects
    ensures r[|projects|].name == r[|projects|].description == ""
    ensures r[|projects|].repoUrl == r[|projects|].liveUrl == ""
    ensures r[|projects|].stack == [""]
  {
    Appended(projects, EmptyProject)
  }

  /** Education `addItem`: one entry with all four fields blank, after the existing ones. */
  function AddEducation(education: seq<Education>): (r: seq<Education>)
    ensures |r| == |education| + 1 && r[..|education|] == education
    ensures r[|education|].school == r[|education|].program == ""
    ensures r[|education|].startDate == r[|education|].endDate == ""
  {
    Appended(education, EmptyEducation)
  }

  /** `addSkill`: one blank skill after the existing ones. */
  function AddSkill(skills: seq<string>): (r: seq<string>)
    ensures |r| == |skills| + 1 && r[..|skills|] == skills && r[|skills|] == ""
  {
    Appended(skills, "")
  }

  /**
   * The blank entries the editors append break the schema, so a list that
   * has just grown no longer validates until the user fills the entry in.
   */
  lemma AddedEntriesInvalid(experience: seq<Experience>, projects: seq<Project>, education: seq<Education>, skills: seq<string>)
    ensures !ValidExperience(AddExperience(experience)[|experience|])
    ensures !ValidProject(AddProject(projects)[|projects|])
    ensures !ValidEducation(AddEducation(education)[|education|])
    ensures !NonEmpty(AddSkill(skills)[|skills|])
  {
  }

  /** `updateBullet`: overwrite one bullet of one role; every other role, field and bullet stays. */
  method UpdateBullet(experience: seq<Experience>, itemIndex: nat, bulletIndex: nat, value: string) returns (next: seq<Experience>)
    requires itemIndex < |experience| && bulletIndex < |experience[itemIndex].bullets|
    ensures OnlyChanged(experience, next, itemIndex)
    ensures next[itemIndex] == experience[itemIndex].(bullets := next[itemIndex].bullets)
    ensures OnlyChanged(experience[itemIndex].bullets, next[itemIndex].bullets, bulletIndex)
    ensures next[itemIndex].bullets[bulletIndex] == value
  {
    var item := experience[itemIndex];
    var bullets := UpdateItem(item.bullets, bulletIndex, value);
    next := UpdateItem(experience, itemIndex, item.(bullets := bullets));
  }

  /** `addBullet`: one blank bullet after the last bullet of one role; nothing else changes. */
  method AddBullet(experience: seq<Experience>, itemIndex: nat) returns (next: seq<Experience>)
    requires itemIndex < |experience|
    ensures OnlyChanged(experience, next, itemIndex)
    ensures next[itemIndex] == experience[itemIndex].(bullets := next[itemIndex].bullets)
    ensures |next[itemIndex].bullets| == |experience[itemIndex].bullets| + 1
    ensures next[itemIndex].bullets[..|experience[itemIndex].bullets|] == experience[itemIndex].bullets
    ensures next[itemIndex].bullets[|experience[itemIndex].bullets|] == ""
  {
    var item := experience[itemIndex];
    next := UpdateItem(experience, itemIndex, item.(bullets := Appended(item.bullets, "")));
  }

  /** `removeBullet`: drop one bullet position of one role (none if it is out of range); nothing else changes. */
  method RemoveBullet(experience: seq<Experience>, itemIndex: nat, bulletIndex: int) returns (next: seq<Experience>)
    requires itemIndex < |experience|
    ensures OnlyChanged(experience, next, itemIndex)
    ensures next[itemIndex] == experience[itemIndex].(bullets := next[itemIndex].bullets)
    ensures var bullets := experience[itemIndex].bullets;
            next[itemIndex].bullets == if 0 <= bulletIndex < |bullets| then bullets[..bulletIndex] + bullets[bulletIndex + 1..] else bullets
  {
    var item := experience[itemIndex];
    next := UpdateItem(experience, itemIndex, item.(bullets := RemoveAt(item.bullets, bulletIndex)));
  }

  /** `updateStack`: overwrite one stack entry of one project; every other project, field and entry stays. */
  method UpdateStack(projects: seq<Project>, itemIndex: nat, stackIndex: nat, value: string) returns (next: seq<Project>)
    requires itemIndex < |projects| && stackIndex < |projects[itemIndex].stack|
    ensures OnlyChanged(projects, next, itemIndex)
    ensures next[itemIndex] == projects[itemIndex].(stack := next[itemIndex].stack)
    ensures OnlyChanged(projects[itemIndex].stack, next[itemIndex].stack, stackIndex)
    ensures next[itemIndex].stack[stackIndex] == value
  {
    var item := projects[itemIndex];
    var stack := UpdateItem(item.stack, stackIndex, value);
    next := UpdateItem(projects, itemIndex, item.(stack := stack));
  }

  /** `addStack`: one blank entry after the last stack entry of one project; nothing else changes. */
  method AddStack(projects: seq<Project>, itemIndex: nat) returns (next: seq<Project>)
    requires itemIndex < |projects|
    ensures OnlyChanged(projects, next, itemIndex)
    ensures next[itemIndex] == projects[itemIndex].(stack := next[itemIndex].stack)
    ensures |next[itemIndex].stack| == |projects[itemIndex].stack| + 1
    ensures next[itemIndex].stack[..|projects[itemIndex].stack|] == projects[itemIndex].stack
    ensures next[itemIndex].stack[|projects[itemIndex].stack|] == ""
  {
    var item := projects[itemIndex];
    next := UpdateItem(projects, itemIndex, item.(stack := Appended(item.stack, "")));
  }

  /** `removeStack`: drop one stack position of one project (none if it is out of range); nothing else changes. */
  method RemoveStack(projects: seq<Project>, itemIndex: nat, stackIndex: int) returns (next: seq<Project>)
    requires itemIndex < |projects|
    ensures OnlyChanged(projects, next, itemIndex)
    ensures next[itemIndex] == projects[itemIndex].(stack := next[itemIndex].stack)
    ensures var stack := projects[itemIndex].stack;
            next[itemIndex].stack == if 0 <= stackIndex < |stack| then stack[..stackIndex] + stack[stackIndex + 1..] else stack
  {
    var item := projects[itemIndex];
    next := UpdateItem(projects, itemIndex, item.(stack := RemoveAt(item.stack, stackIndex)));
  }
}
