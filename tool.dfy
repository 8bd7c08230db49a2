/** A kitchen tool used by a step (Culinex `Tool`). Each tool gets a fresh identifier when it
    is made, passed in here as `id`; the custom `==` ignores it. */
module Tools {

  import opened Wrappers

  datatype Tool = Tool(id: nat, name: string, description: Option<string>)

  /** `Tool(name:description:)` with its default: no description. */
  function NewTool(id: nat, name: string, description: Option<string> := None): (t: Tool)
    ensures t.id == id && t.name == name && t.description == description
  {
    Tool(id, name, description)
  }

  /** The custom `==`: same name and same description, whatever the identifiers. */
  function Same(a: Tool, b: Tool): (r: bool)
    ensures r <==> a.(id := 0) == b.(id := 0)
  {
    a.name == b.name && a.description == b.description
  }

  /** `Same` is an equivalence relation. */
  lemma SameIsEquivalence(a: Tool, b: Tool, c: Tool)
    ensures Same(a, a)
    ensures Same(a, b) ==> Same(b, a)
    ensures Same(a, b) && Same(b, c) ==> Same(a, c)
  {
  }

  /** Two tools made from the same name and description compare equal although their fresh
      identifiers differ, and a tool made from a name alone has no description. */
  lemma FreshIdsCompareEqual(id1: nat, id2: nat, name: string, description: Option<string>)
    ensures Same(NewTool(id1, name, description), NewTool(id2, name, description))
    ensures id1 != id2 ==> NewTool(id1, name, description) != NewTool(id2, name, description)
    ensures NewTool(id1, name).description == None
  {
  }
}
