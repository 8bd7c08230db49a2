/** A cooking skill (Culinex `Skill`). The persistent object is modelled by its stored fields;
    its identifier stands for its identity. */
module Skills {

  import opened Wrappers

  datatype Skill = Skill(id: nat, name: string, category: string, arFileName: Option<string>)

  /** The initializer with its defaults: category "General" and no AR file. */
  function NewSkill(id: nat, name: string, category: string := "General",
                    arFileName: Option<string> := None): (s: Skill)
    ensures s.id == id && s.name == name && s.category == category && s.arFileName == arFileName
  {
    Skill(id, name, category, arFileName)
  }

  /** `displayName`. */
  function DisplayName(s: Skill): (r: string)
    ensures r == s.name
  {
    s.name
  }

  /** `icon`: an SF Symbol name chosen by the category. */
  function Icon(s: Skill): (r: string)
    ensures r in {"flame", "oven", "frying.pan"}
    ensures r == "flame" <==> s.category == "Cooking"
    ensures r == "oven" <==> s.category == "Baking"
  {
    match s.category
    case "General" => "frying.pan"
    case "Cutting" => "frying.pan"
    case "Cooking" => "flame"
    case "Baking" => "oven"
    case _ => "frying.pan"
  }

  /** Every category other than "Cooking" and "Baking", listed or not, gets the frying pan. */
  lemma OtherCategoriesFryingPan(s: Skill)
    requires s.category != "Cooking" && s.category != "Baking"
    ensures Icon(s) == "frying.pan"
  {
  }

  lemma Defaults(id: nat, name: string)
    ensures NewSkill(id, name).category == "General"
    ensures NewSkill(id, name).arFileName == None
    ensures Icon(NewSkill(id, name)) == "frying.pan"
  {
  }
}
