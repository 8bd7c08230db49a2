/** iCooking's `SkillSelectionView`: a searchable list of the stored skills in which
    a tap selects or deselects a skill, matched by identifier. */
module SkillSelection {
  import Lists
  import opened Skills

  function SkillId(s: Skill): nat {
    s.id
  }

  /** `filteredSkills`: every skill for an empty search, otherwise those whose name
      contains the search text. `contains` stands for `localizedCaseInsensitiveContains`. */
  function Filtered(skills: seq<Skill>, searchText: string,
                    contains: (string, string) -> bool): (r: seq<Skill>)
    ensures searchText == [] ==> r == skills
    ensures searchText != [] ==> forall k :: 0 <= k < |r| ==> contains(r[k].name, searchText)
    ensures forall i: Skill :: multiset(r)[i] <= multiset(skills)[i]
    ensures forall i: Skill :: contains(i.name, searchText) ==> multiset(r)[i] == multiset(skills)[i]
  {
    if searchText == [] then skills
    else Lists.Filter(skills, (i: Skill) => contains(i.name, searchText))
  }

  /** The search keeps the stored order: it works piecewise, and a single skill is shown
      exactly when the search is empty or its name matches. */
  lemma FilteredInOrder(a: seq<Skill>, b: seq<Skill>, x: Skill, searchText: string,
                        contains: (string, string) -> bool)
    ensures Filtered(a + b, searchText, contains)
            == Filtered(a, searchText, contains) + Filtered(b, searchText, contains)
    ensures Filtered([x], searchText, contains)
            == if searchText == [] || contains(x.name, searchText) then [x] else []
  {
    if searchText != [] {
      var p := (i: Skill) => contains(i.name, searchText);
      Lists.FilterConcat(a, b, p);
      Lists.FilterSingleton(x, p);
    }
  }

  /** The checkmark and the green outline of a row. */
  predicate IsChecked(selected: seq<Skill>, skill: Skill) {
    Lists.HasId(selected, SkillId, skill.id)
  }

  /** The tap handler of a row. */
  function Tap(selected: seq<Skill>, skill: Skill): (r: seq<Skill>)
    ensures Lists.NoDupIds(selected, SkillId) ==> Lists.NoDupIds(r, SkillId)
    ensures !IsChecked(selected, skill) ==> r == selected + [skill]
    ensures IsChecked(selected, skill) ==> |r| == |selected| - 1
  {
    Lists.Toggle(selected, skill, SkillId)
  }

  /** A tap flips the checkmark of the tapped row and of no other. */
  lemma TapFlipsOnlyThatRow(selected: seq<Skill>, skill: Skill, other: Skill)
    requires Lists.NoDupIds(selected, SkillId)
    ensures IsChecked(Tap(selected, skill), skill) <==> !IsChecked(selected, skill)
    ensures other.id != skill.id ==>
      (IsChecked(Tap(selected, skill), other) <==> IsChecked(selected, other))
  {
    if other.id != skill.id {
      Lists.ToggleKeepsOtherIds(selected, skill, SkillId, other.id);
    }
  }

  /** Selecting and then deselecting a skill gives the selection back. */
  lemma TapTwiceRestores(selected: seq<Skill>, skill: Skill)
    requires !IsChecked(selected, skill)
    ensures Tap(Tap(selected, skill), skill) == selected
  {
    Lists.ToggleTwice(selected, skill, SkillId);
  }

  class SkillPicker {
    const skills: seq<Skill>
    var selectedSkills: seq<Skill>
    var searchText: string

    constructor (skills: seq<Skill>, selectedSkills: seq<Skill>)
      ensures this.skills == skills
      ensures this.selectedSkills == selectedSkills && searchText == ""
    {
      this.skills := skills;
      this.selectedSkills := selectedSkills;
      searchText := "";
    }

    method TapRow(skill: Skill)
      modifies this
      ensures selectedSkills == Tap(old(selectedSkills), skill)
      ensures searchText == old(searchText)
    {
      match Lists.FirstIndex(selectedSkills, SkillId, skill.id)
      case Some(index) =>
        selectedSkills := selectedSkills[..index] + selectedSkills[index + 1..];
      case None =>
        selectedSkills := selectedSkills + [skill];
    }

    method Search(text: string)
      modifies this
      ensures searchText == text && selectedSkills == old(selectedSkills)
    {
      searchText := text;
    }
  }
}
