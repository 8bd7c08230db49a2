/** One step of a recipe (Culinex `RecipeStep`) and the skills a recipe needs (`allSkills`).

    The step is a persistent object; here it is the value of its stored fields, and `id`
    stands for its identity. A skill likewise is compared by value, which for persistent
    skills with distinct identifiers is comparison by identity, as `Set` does. */
module RecipeSteps {
  import opened Wrappers
  import opened StepTimes
  import opened Tools
  import opened Skills
  import opened RecipeIngredients
  import Ordering
  import Lists

  datatype RecipeStep = RecipeStep(
    id: nat, order: int, descrip: string, tools: Option<seq<Tool>>, duration: StepTime,
    skills: seq<Skill>, stepIngredients: seq<RecipeIngredient>)

  /** `RecipeStep(description:duration:order:)`: the given fields, no tools, no skills and no
      ingredient usages yet. */
  function NewStep(id: nat, description: string, duration: StepTime, order: int): (s: RecipeStep)
    ensures s.id == id && s.descrip == description && s.duration == duration && s.order == order
    ensures s.tools == None && s.skills == [] && s.stepIngredients == []
  {
    RecipeStep(id, order, description, None, duration, [], [])
  }

  /** `getTimeInterval()`: the step's duration in seconds. */
  function GetTimeInterval(s: RecipeStep): (r: real)
    ensures r == DurationInSeconds(s.duration)
    ensures s.duration.value >= 0.0 ==> r >= 0.0
  {
    DurationScales(s.duration);
    DurationInSeconds(s.duration)
  }

  // ---------------------------------------------------------------------------------------
  // allSkills

  /** `steps.flatMap { $0.skills }`. */
  function FlatSkills(steps: seq<RecipeStep>): seq<Skill> {
    if steps == [] then [] else steps[0].skills + FlatSkills(steps[1..])
  }

  /** A skill occurs in the flattened list exactly when some step lists it. */
  lemma {:induction false} FlatSkillsMembership(steps: seq<RecipeStep>, x: Skill)
    ensures x in FlatSkills(steps) <==> exists i :: 0 <= i < |steps| && x in steps[i].skills
  {
    if steps != [] {
      FlatSkillsMembership(steps[1..], x);
      if exists i :: 1 <= i < |steps| && x in steps[i].skills {
        var i :| 1 <= i < |steps| && x in steps[i].skills;
        assert steps[1..][i - 1] == steps[i];
      }
      if exists i :: 0 <= i < |steps[1..]| && x in steps[1..][i].skills {
        var i :| 0 <= i < |steps[1..]| && x in steps[1..][i].skills;
        assert steps[i + 1] == steps[1..][i];
      }
    }
  }

  function SkillName(s: Skill): string {
    s.name
  }

  /** `allSkills`: the distinct skills of all steps, sorted by name. */
  function AllSkills(steps: seq<RecipeStep>): seq<Skill> {
    Ordering.SortByText(Lists.Distinct(FlatSkills(steps)), SkillName)
  }

  /** No skill is listed twice, the list is sorted by name, and it is no longer than the
      total number of skill entries of the steps; a recipe without steps has none. */
  lemma AllSkillsShape(steps: seq<RecipeStep>)
    ensures Lists.NoDup(AllSkills(steps))
    ensures Ordering.SortedByText(AllSkills(steps), SkillName)
    ensures |AllSkills(steps)| <= |FlatSkills(steps)|
    ensures steps == [] ==> AllSkills(steps) == []
  {
    var d := Lists.Distinct(FlatSkills(steps));
    Lists.NoDupPermutation(d, AllSkills(steps));
    assert |multiset(AllSkills(steps))| == |multiset(d)|;
  }

  /** A skill is in `allSkills` exactly when some step lists it. */
  lemma AllSkillsMembership(steps: seq<RecipeStep>, x: Skill)
    ensures x in AllSkills(steps) <==> exists i :: 0 <= i < |steps| && x in steps[i].skills
  {
    var flat := FlatSkills(steps);
    var d := Lists.Distinct(flat);
    FlatSkillsMembership(steps, x);
    assert x in AllSkills(steps) <==> x in multiset(d);
    if x in flat {
      var k :| 0 <= k < |flat| && flat[k] == x;
    }
    if x in d {
      var k :| 0 <= k < |d| && d[k] == x;
    }
  }
}
