/** The description-and-tools sheet of iCooking's step editor (`DescriptionView`). Unlike the
    Culinex sheet it adds the typed text as it is, without trimming it; removal is the same. */
module LegacyToolEditor {
  import Lists
  import ToolEditor

  type ToolForm = ToolEditor.ToolForm

  /** The add button: a non-empty text not yet in the list is appended and the field cleared;
      otherwise nothing changes. */
  function AddTool(f: ToolForm): (r: ToolForm)
    ensures f.input == [] || f.input in f.tools ==> r == f
    ensures f.input != [] && f.input !in f.tools ==>
      r == ToolEditor.ToolForm(f.tools + [f.input], "")
    ensures Lists.NoDup(f.tools) ==> Lists.NoDup(r.tools)
  {
    if f.input != [] && f.input !in f.tools then
      assert Lists.NoDup(f.tools) ==> Lists.NoDup(f.tools + [f.input]) by {
        if Lists.NoDup(f.tools) { Lists.NoDupAppend(f.tools, f.input); }
      }
      ToolEditor.ToolForm(f.tools + [f.input], "")
    else f
  }

  /** On text without surrounding white space the two generations add alike. */
  lemma AgreesOnTrimmedText(f: ToolForm)
    requires f.input == [] || (!ToolEditor.IsWhitespace(f.input[0])
                               && !ToolEditor.IsWhitespace(f.input[|f.input| - 1]))
    ensures AddTool(f) == ToolEditor.AddToolIfValid(f)
  {
    assert ToolEditor.TrimEnd(f.input) == f.input;
    assert ToolEditor.TrimStart(f.input) == f.input;
  }

  /** A tool made of one space is added here, where Culinex refuses it. */
  lemma SpaceIsAToolHere(tools: seq<string>)
    requires " " !in tools
    ensures AddTool(ToolEditor.ToolForm(tools, " ")).tools == tools + [" "]
    ensures ToolEditor.AddToolIfValid(ToolEditor.ToolForm(tools, " ")).tools == tools
  {
  }

  class DescriptionSheet {
    var description: string
    var tools: seq<string>
    var inputTool: string

    function Form(): ToolForm
      reads this
    {
      ToolEditor.ToolForm(tools, inputTool)
    }

    constructor (description: string, tools: seq<string>)
      ensures this.description == description && Form() == ToolEditor.ToolForm(tools, "")
    {
      this.description := description;
      this.tools := tools;
      inputTool := "";
    }

    method TapAdd()
      modifies this
      ensures Form() == AddTool(old(Form())) && description == old(description)
    {
      if inputTool != [] && inputTool !in tools {
        tools := tools + [inputTool];
        inputTool := "";
      }
    }

    method TapRemove(tool: string)
      modifies this
      ensures Form() == ToolEditor.RemoveTool(old(Form()), tool)
      ensures description == old(description)
    {
      tools := Lists.Without(tools, tool);
    }
  }
}
