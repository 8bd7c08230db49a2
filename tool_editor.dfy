/** The description-and-tools sheet of Culinex's step editor (`DescriptionView`): tools are
    typed in, trimmed, added once each, and removed by tapping their tag. */
module ToolEditor {
  import Lists

  /** Unicode's white space characters, which `.whitespacesAndNewlines` trims. */
  predicate IsWhitespace(c: char) {
    ('\U{0009}' <= c <= '\U{000D}') || c == ' ' || c == '\U{0085}' || c == '\U{00A0}'
    || c == '\U{1680}' || ('\U{2000}' <= c <= '\U{200A}') || c == '\U{2028}' || c == '\U{2029}'
    || c == '\U{202F}' || c == '\U{205F}' || c == '\U{3000}'
  }

  function TrimStart(s: string): (r: string)
    ensures |r| <= |s| && r == s[|s| - |r|..]
    ensures r != [] ==> !IsWhitespace(r[0])
    ensures forall k :: 0 <= k < |s| - |r| ==> IsWhitespace(s[k])
  {
    if s == [] || !IsWhitespace(s[0]) then s
    else
      var r := TrimStart(s[1..]);
      assert forall k :: 1 <= k < |s| - |r| ==> s[k] == s[1..][k - 1];
      r
  }

  function TrimEnd(s: string): (r: string)
    ensures |r| <= |s| && r == s[..|r|]
    ensures r != [] ==> !IsWhitespace(r[|r| - 1])
    ensures forall k :: |r| <= k < |s| ==> IsWhitespace(s[k])
  {
    if s == [] || !IsWhitespace(s[|s| - 1]) then s
    else
      var r := TrimEnd(s[..|s| - 1]);
      assert forall k :: |r| <= k < |s| - 1 ==> s[k] == s[..|s| - 1][k];
      r
  }

  /** The length of the white run at the start of `s`. */
  function Leading(s: string): (n: nat)
    ensures n <= |s|
    ensures forall k :: 0 <= k < n ==> IsWhitespace(s[k])
    ensures n < |s| ==> !IsWhitespace(s[n])
  {
    if s == [] || !IsWhitespace(s[0]) then 0
    else
      var n := Leading(s[1..]);
      assert forall k :: 1 <= k < n + 1 ==> s[k] == s[1..][k - 1];
      n + 1
  }

  /** `trimmingCharacters(in: .whitespacesAndNewlines)`: `s` without its leading and its
      trailing white space. */
  function Trim(s: string): (r: string)
    ensures |r| <= |s|
    ensures r != [] ==> !IsWhitespace(r[0]) && !IsWhitespace(r[|r| - 1])
  {
    var e := TrimEnd(s);
    var r := TrimStart(e);
    if r == [] then r else assert r[|r| - 1] == e[|e| - 1]; r
  }

  /** The trimmed text is the slice of `s` that starts where the leading white run ends, and
      only white space follows it. */
  lemma TrimIsSlice(s: string)
    ensures Leading(s) + |Trim(s)| <= |s|
    ensures forall k :: 0 <= k < |Trim(s)| ==> Trim(s)[k] == s[Leading(s) + k]
    ensures forall k :: Leading(s) + |Trim(s)| <= k < |s| ==> IsWhitespace(s[k])
  {
    var e := TrimEnd(s);
    InnerSlice(s, e, TrimStart(e));
  }

  /** `r`, the end of the prefix `e` of `s` left after dropping white space from both sides,
      sits in `s` right after the leading white run, and only white space follows it. */
  lemma InnerSlice(s: string, e: string, r: string)
    requires |e| <= |s| && e == s[..|e|]
    requires forall k :: |e| <= k < |s| ==> IsWhitespace(s[k])
    requires |r| <= |e| && r == e[|e| - |r|..]
    requires forall k :: 0 <= k < |e| - |r| ==> IsWhitespace(e[k])
    requires r != [] ==> !IsWhitespace(r[0])
    ensures Leading(s) + |r| <= |s|
    ensures forall k :: 0 <= k < |r| ==> r[k] == s[Leading(s) + k]
    ensures forall k :: Leading(s) + |r| <= k < |s| ==> IsWhitespace(s[k])
  {
    var ie := |e| - |r|;
    forall k | 0 <= k < |e| ensures e[k] == s[k] {
      assert e == s[..|e|];
    }
    if r == [] {
      forall k | 0 <= k < |s| ensures IsWhitespace(s[k]) {
        if k < |e| { assert s[k] == e[k]; }
      }
      LeadingIs(s, |s|);
    } else {
      forall k | 0 <= k < |r| ensures r[k] == s[ie + k] {
        assert r == e[ie..];
      }
      forall k | 0 <= k < ie ensures IsWhitespace(s[k]) {
        assert s[k] == e[k];
      }
      assert r[0] == s[ie];
      LeadingIs(s, ie);
    }
  }

  /** A position with only white space before it and a non-white character at it (or the end)
      is where the leading white run ends. */
  lemma LeadingIs(s: string, j: int)
    requires 0 <= j <= |s|
    requires forall k :: 0 <= k < j ==> IsWhitespace(s[k])
    requires j < |s| ==> !IsWhitespace(s[j])
    ensures Leading(s) == j
  {
  }

  /** Trimming leaves nothing exactly when the text is all white space. */
  lemma TrimEmptyIff(s: string)
    ensures Trim(s) == [] <==> forall k :: 0 <= k < |s| ==> IsWhitespace(s[k])
  {
    var e := TrimEnd(s);
    var r := TrimStart(e);
    assert Trim(s) == r;
    if r == [] {
      forall k | 0 <= k < |s| ensures IsWhitespace(s[k]) {
        if k < |e| {
          assert s[k] == e[k];
        }
      }
    } else {
      assert r[0] == e[|e| - |r|] == s[|e| - |r|];
    }
  }

  /** Trimming twice is trimming once. */
  lemma TrimIdempotent(s: string)
    ensures Trim(Trim(s)) == Trim(s)
  {
    var r := Trim(s);
    if r != [] {
      assert TrimEnd(r) == r;
      assert TrimStart(r) == r;
    }
  }

  /** The tool list and the text field. */
  datatype ToolForm = ToolForm(tools: seq<string>, input: string)

  /** `addToolIfValid()`: a non-empty trimmed text not yet in the list is appended and the
      field cleared; otherwise nothing changes, not even the field. */
  function AddToolIfValid(f: ToolForm): (r: ToolForm)
    ensures Trim(f.input) == [] || Trim(f.input) in f.tools ==> r == f
    ensures Trim(f.input) != [] && Trim(f.input) !in f.tools ==>
      r == ToolForm(f.tools + [Trim(f.input)], "")
    ensures Lists.NoDup(f.tools) ==> Lists.NoDup(r.tools)
  {
    var t := Trim(f.input);
    if t != [] && t !in f.tools then
      assert Lists.NoDup(f.tools) ==> Lists.NoDup(f.tools + [t]) by {
        if Lists.NoDup(f.tools) { Lists.NoDupAppend(f.tools, t); }
      }
      ToolForm(f.tools + [t], "")
    else f
  }

  /** The remove button of a tag: every copy of that tool goes, the others keep their order. */
  function RemoveTool(f: ToolForm, tool: string): (r: ToolForm)
    ensures tool !in r.tools && r.input == f.input
    ensures multiset(r.tools) == multiset(f.tools)[tool := 0]
    ensures Lists.NoDup(f.tools) ==> Lists.NoDup(r.tools)
  {
    assert Lists.NoDup(f.tools) ==> Lists.NoDup(Lists.Without(f.tools, tool)) by {
      if Lists.NoDup(f.tools) { Lists.WithoutKeepsNoDup(f.tools, tool); }
    }
    ToolForm(Lists.Without(f.tools, tool), f.input)
  }

  /** "Done" is disabled exactly when there is neither a description nor a tool. */
  function DoneDisabled(description: string, tools: seq<string>): (r: bool)
    ensures r <==> |description| == 0 && |tools| == 0
  {
    description == [] && tools == []
  }

  /** The add button is disabled exactly when the raw text is empty. */
  function AddDisabled(input: string): (r: bool)
    ensures r <==> |input| == 0
  {
    input == []
  }

  /** Adding never repeats a tool and always leaves the field empty or unchanged. */
  lemma AddKeepsToolsDistinct(f: ToolForm)
    requires Lists.NoDup(f.tools)
    ensures Lists.NoDup(AddToolIfValid(f).tools)
    ensures AddToolIfValid(f).input == "" || AddToolIfValid(f) == f
  {
  }

  /** A text of spaces enables the add button, but adding it does nothing. */
  lemma SpacesEnableButAreRejected(tools: seq<string>)
    ensures !AddDisabled(" ")
    ensures AddToolIfValid(ToolForm(tools, " ")) == ToolForm(tools, " ")
  {
    TrimEmptyIff(" ");
  }

  /** The sheet: the bound description and tools and the text field. */
  class DescriptionSheet {
    var description: string
    var tools: seq<string>
    var inputTool: string

    function Form(): ToolForm
      reads this
    {
      ToolForm(tools, inputTool)
    }

    constructor (description: string, tools: seq<string>)
      ensures this.description == description && Form() == ToolForm(tools, "")
    {
      this.description := description;
      this.tools := tools;
      inputTool := "";
    }

    method AddTool()
      modifies this
      ensures Form() == AddToolIfValid(old(Form())) && description == old(description)
    {
      var trimmedTool := Trim(inputTool);
      if trimmedTool != [] && trimmedTool !in tools {
        tools := tools + [trimmedTool];
        inputTool := "";
      }
    }

    method TapRemove(tool: string)
      modifies this
      ensures Form() == RemoveTool(old(Form()), tool) && description == old(description)
    {
      tools := Lists.Without(tools, tool);
    }
  }
}
