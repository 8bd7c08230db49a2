/** The steps list of a recipe and its inspector (Culinex `Recipes/RecipeDetail/RecipeDetailView`
    with `RecipeDetailStepsView`, `IngredientHScrollView` and `SkillHScrollView`).

    The screen owns two `@State` variables, the inspector state and whether the inspector is
    shown; the steps list reads and writes both through bindings. The whole list, with its
    selection and the pencil buttons in its section headers, is disabled while a step is being
    edited, so a tap on it then changes nothing. */
module RecipeInspector {
  import opened Wrappers
  import opened Skills
  import opened RecipeIngredients
  import opened RecipeSteps
  import Ordering

  // ---------------------------------------------------------------------------------------
  // Sorted rows

  function StepOrder(s: RecipeStep): int {
    s.order
  }

  /** `sortedSteps`: the recipe's steps in non-decreasing `order`. */
  function SortedSteps(steps: seq<RecipeStep>): (r: seq<RecipeStep>)
    ensures multiset(r) == multiset(steps)
    ensures Ordering.SortedByRank(r, StepOrder)
  {
    Ordering.SortByRank(steps, StepOrder)
  }

  /** `recipeIngredient.ingredient?.name ?? ""`. */
  function UsageName(u: RecipeIngredient): string {
    if u.ingredient.Some? then u.ingredient.value.name else ""
  }

  /** `sortedIngredients`: the step's usages by ingredient name, a usage without an
      ingredient counting as the empty name, so that only usages with an empty name come
      before it. */
  function SortedIngredients(usages: seq<RecipeIngredient>): (r: seq<RecipeIngredient>)
    ensures multiset(r) == multiset(usages)
    ensures Ordering.SortedByText(r, UsageName)
    ensures forall i, j :: 0 <= i < j < |r| && r[j].ingredient.None? ==> UsageName(r[i]) == ""
  {
    var r := Ordering.SortByText(usages, UsageName);
    assert forall i, j :: 0 <= i < j < |r| ==> Ordering.LexLe(UsageName(r[i]), UsageName(r[j]));
    r
  }

  /** `sortedSkills`: the step's skills by name. */
  function SortedSkills(skills: seq<Skill>): (r: seq<Skill>)
    ensures multiset(r) == multiset(skills)
    ensures Ordering.SortedByText(r, SkillName)
  {
    Ordering.SortByText(skills, SkillName)
  }

  // ---------------------------------------------------------------------------------------
  // Inspector state

  /** `InspectorState`: nothing chosen, a step shown, or a step being edited. */
  datatype InspectorState = Idle | Info(step: RecipeStep) | Editing(step: RecipeStep)

  /** The screen's two `@State` variables. */
  datatype Inspector = Inspector(state: InspectorState, presented: bool)

  /** The screen starts with nothing chosen and the inspector hidden. */
  const Initial := Inspector(Idle, false)

  /** The `get` of the list's `selection` binding: the step shown in the inspector, if any. */
  function SelectionOf(state: InspectorState): (r: Option<RecipeStep>)
    ensures r.Some? <==> state.Info?
    ensures r.Some? ==> r.value == state.step
  {
    match state
    case Info(step) => Some(step)
    case _ => None
  }

  /** The `set` of the `selection` binding: a chosen row shows that step, no row is idle. Reading
      the selection back gives what was set, and setting never starts an edit. */
  function StateForSelection(sel: Option<RecipeStep>): (state: InspectorState)
    ensures SelectionOf(state) == sel
    ensures !state.Editing?
    ensures sel.None? ==> state == Idle
  {
    if sel.Some? then Info(sel.value) else Idle
  }

  /** Every state that is not an edit is the one its selection sets. */
  lemma SetOfGetOutsideEditing(state: InspectorState)
    requires !state.Editing?
    ensures StateForSelection(SelectionOf(state)) == state
  {
  }

  /** `isEditing`: a step is being edited; no row is then selected. */
  predicate IsEditing(state: InspectorState)
    ensures IsEditing(state) ==> SelectionOf(state) == None
  {
    state.Editing?
  }

  /** A row is chosen in the list; ignored while the list is disabled. */
  function Select(i: Inspector, sel: Option<RecipeStep>): (r: Inspector)
    ensures r.presented == i.presented
    ensures IsEditing(i.state) ==> r == i
    ensures !IsEditing(i.state) ==> SelectionOf(r.state) == sel && !IsEditing(r.state)
  {
    if IsEditing(i.state) then i else Inspector(StateForSelection(sel), i.presented)
  }

  /** The pencil of a step's section: edit that step and show the inspector; ignored while the
      list is disabled. */
  function Edit(i: Inspector, step: RecipeStep): (r: Inspector)
    ensures IsEditing(i.state) ==> r == i
    ensures !IsEditing(i.state) ==> r.state == Editing(step) && r.presented
  {
    if IsEditing(i.state) then i
    else Inspector(Editing(step), true)
  }

  /** The info button: show the inspector with nothing chosen, whatever came before. */
  function ShowInfo(i: Inspector): (r: Inspector)
    ensures r.state == Idle && r.presented
  {
    Inspector(Idle, true)
  }

  /** The toggle button flips whether the inspector is shown and keeps the state. */
  function Toggle(i: Inspector): (r: Inspector)
    ensures r.state == i.state && r.presented != i.presented
  {
    i.(presented := !i.presented)
  }

  /** Editing a step a second time changes nothing more. */
  lemma EditIdempotent(i: Inspector, step: RecipeStep)
    ensures Edit(Edit(i, step), step) == Edit(i, step)
  {
  }

  /** Toggling twice restores the inspector. */
  lemma ToggleTwice(i: Inspector)
    ensures Toggle(Toggle(i)) == i
  {
  }

  // ---------------------------------------------------------------------------------------
  // Sequences of taps

  /** A tap on one of the controls of the screen and its steps list; the share button only
      logs a message. */
  datatype Tap = Share | InfoButton | ToggleButton | SelectRow(sel: Option<RecipeStep>) | EditRow(step: RecipeStep)

  function Apply(i: Inspector, t: Tap): Inspector {
    match t
    case Share => i
    case InfoButton => ShowInfo(i)
    case ToggleButton => Toggle(i)
    case SelectRow(sel) => Select(i, sel)
    case EditRow(step) => Edit(i, step)
  }

  function Run(i: Inspector, taps: seq<Tap>): Inspector
    decreases |taps|
  {
    if taps == [] then i else Run(Apply(i, taps[0]), taps[1..])
  }

  /** Once a step is being edited, among these controls only the info button ends the edit:
      the list is disabled, and the toggle and share buttons keep the state. */
  lemma {:induction false} OnlyInfoEndsEditing(i: Inspector, taps: seq<Tap>)
    requires i.state.Editing?
    requires forall k :: 0 <= k < |taps| ==> !taps[k].InfoButton?
    ensures Run(i, taps).state == i.state
    decreases |taps|
  {
    if taps != [] {
      OnlyInfoEndsEditing(Apply(i, taps[0]), taps[1..]);
    }
  }

  /** Without a tap on a pencil nothing is ever edited: choosing rows and the toolbar
      buttons only show steps or nothing. */
  lemma {:induction false} NoEditWithoutPencil(i: Inspector, taps: seq<Tap>)
    requires !i.state.Editing?
    requires forall k :: 0 <= k < |taps| ==> !taps[k].EditRow?
    ensures !Run(i, taps).state.Editing?
    decreases |taps|
  {
    if taps != [] {
      NoEditWithoutPencil(Apply(i, taps[0]), taps[1..]);
    }
  }

  // ---------------------------------------------------------------------------------------
  // The screen

  class RecipeDetailScreen {
    var inspectorState: InspectorState
    var inspectorPresented: bool

    function State(): Inspector
      reads this
    {
      Inspector(inspectorState, inspectorPresented)
    }

    /** `RecipeDetailView(recipe:)`. */
    constructor ()
      ensures State() == Initial
    {
      inspectorState := Idle;
      inspectorPresented := false;
    }

    /** The share button logs a message and changes nothing. */
    method TapShare()
      ensures State() == old(State())
    {
    }

    method TapInfo()
      modifies this
      ensures State() == ShowInfo(old(State()))
    {
      inspectorPresented := true;
      inspectorState := Idle;
    }

    method TapToggle()
      modifies this
      ensures State() == Toggle(old(State()))
    {
      inspectorPresented := !inspectorPresented;
    }

    /** The list writes its `selection` binding. */
    method SelectRow(sel: Option<RecipeStep>)
      modifies this
      ensures State() == Select(old(State()), sel)
    {
      if IsEditing(inspectorState) {
        return;
      }
      if sel.Some? {
        inspectorState := Info(sel.value);
      } else {
        inspectorState := Idle;
      }
    }

    /** The pencil button in the header of `step`'s section. */
    method TapEdit(step: RecipeStep)
      modifies this
      ensures State() == Edit(old(State()), step)
    {
      if IsEditing(inspectorState) {
        return;
      }
      inspectorState := Editing(step);
      if !inspectorPresented {
        inspectorPresented := true;
      }
    }
  }
}
