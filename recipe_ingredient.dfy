/** The use of an ingredient in a step, with a quantity and a unit (Culinex `RecipeIngredient`),
    and the way its quantity is written out.

    Rendering a number with `%.2f` and writing an integer in decimal are library calls; they
    are parameters here (`fixed2` and `intText`). */
module RecipeIngredients {
  import opened Wrappers

  /** The stored part of an `Ingredient` that the core reads: its identifier and its name. */
  datatype Ingredient = Ingredient(id: nat, name: string)

  datatype QuantityDisplayStyle = Fraction | Decimal

  /** `label`, which is the raw value of the case. */
  function Label(style: QuantityDisplayStyle): (r: string)
    ensures style == Fraction ==> r == "Fractions"
    ensures style == Decimal ==> r == "Decimals"
  {
    match style
    case Fraction => "Fractions"
    case Decimal => "Decimals"
  }

  lemma LabelsDiffer()
    ensures Label(Fraction) != Label(Decimal)
  {
  }

  /** A usage: `step` is the identity of the step that owns it. */
  datatype RecipeIngredient = RecipeIngredient(
    id: nat, quantity: real, unit: string, ingredient: Option<Ingredient>, step: Option<nat>)

  /** The initializer: every argument is stored as given. */
  function NewRecipeIngredient(id: nat, quantity: real, unit: string,
                               ingredient: Ingredient, step: nat): (u: RecipeIngredient)
    ensures u.id == id && u.quantity == quantity && u.unit == unit
    ensures u.ingredient == Some(ingredient) && u.step == Some(step)
  {
    RecipeIngredient(id, quantity, unit, Some(ingredient), Some(step))
  }

  // ---------------------------------------------------------------------------------------
  // Fraction glyphs

  /** One entry of the constant table: a fractional part and the glyph written for it. */
  datatype Glyph = Glyph(fraction: real, text: string)

  /** The nine entries of the table. The source keeps them in a dictionary, whose iteration
      order is unspecified; `WindowsDisjoint` shows the order cannot matter. */
  function GlyphTable(): seq<Glyph> {
    [ Glyph(0.25, "\U{00BC}"), Glyph(0.5, "\U{00BD}"), Glyph(0.75, "\U{00BE}"),
      Glyph(0.333, "\U{2153}"), Glyph(0.666, "\U{2154}"),
      Glyph(0.125, "\U{215B}"), Glyph(0.375, "\U{215C}"), Glyph(0.625, "\U{215D}"),
      Glyph(0.875, "\U{215E}") ]
  }

  function Abs(x: real): real {
    if x < 0.0 then -x else x
  }

  /** The test of the search loop: `d` lies strictly within 0.01 of the entry's fraction. */
  predicate Near(d: real, g: Glyph) {
    Abs(d - g.fraction) < 0.01
  }

  /** The first entry of `table` near `d`, if any. */
  function FindGlyph(d: real, table: seq<Glyph>): (r: Option<string>)
    ensures r.None? <==> forall i :: 0 <= i < |table| ==> !Near(d, table[i])
    ensures r.Some? ==> exists i :: 0 <= i < |table| && Near(d, table[i]) && table[i].text == r.value
  {
    if table == [] then None
    else if Near(d, table[0]) then
      Some(table[0].text)
    else
      var r := FindGlyph(d, table[1..]);
      assert forall i :: 1 <= i < |table| ==> table[i] == table[1..][i - 1];
      if r.Some? then
        var j :| 0 <= j < |table[1..]| && Near(d, table[1..][j]) && table[1..][j].text == r.value;
        assert table[j + 1] == table[1..][j];
        r
      else
        r
  }

  /** The entries' fractions are more than 0.02 apart, so no number lies within 0.01 of two of
      them: at most one glyph can match, whatever order the search visits them in. */
  lemma WindowsDisjoint(d: real, i: int, j: int)
    requires 0 <= i < |GlyphTable()| && 0 <= j < |GlyphTable()|
    requires Near(d, GlyphTable()[i]) && Near(d, GlyphTable()[j])
    ensures i == j
  {
    var t := GlyphTable();
    assert forall a, b :: 0 <= a < |t| && 0 <= b < |t| && a != b ==>
      Abs(t[a].fraction - t[b].fraction) >= 0.02;
  }

  // ---------------------------------------------------------------------------------------
  // format(using:)

  /** `format(using:)`. */
  function Format(q: real, style: QuantityDisplayStyle,
                  fixed2: real -> string, intText: int -> string): (r: string)
    ensures style == Decimal ==> r == fixed2(q)
    ensures style == Fraction && q == q.Floor as real ==> r == intText(q.Floor)
    ensures style == Fraction && q != q.Floor as real ==>
      var d := q - q.Floor as real;
      (forall i :: 0 <= i < |GlyphTable()| ==> !Near(d, GlyphTable()[i])) ==> r == fixed2(q)
    ensures style == Fraction && q != q.Floor as real ==>
      var d := q - q.Floor as real;
      forall i :: 0 <= i < |GlyphTable()| && Near(d, GlyphTable()[i]) ==>
        r == if q.Floor == 0 then GlyphTable()[i].text
             else intText(q.Floor) + " " + GlyphTable()[i].text
  {
    match style
    case Decimal => fixed2(q)
    case Fraction =>
      if q == q.Floor as real then intText(q.Floor)
      else
        var whole := q.Floor;
        var d := q - whole as real;
        match FindGlyph(d, GlyphTable())
        case Some(g) =>
          assert forall i :: 0 <= i < |GlyphTable()| && Near(d, GlyphTable()[i]) ==>
            GlyphTable()[i].text == g by {
            forall i | 0 <= i < |GlyphTable()| && Near(d, GlyphTable()[i])
              ensures GlyphTable()[i].text == g
            {
              var j :| 0 <= j < |GlyphTable()| && Near(d, GlyphTable()[j]) && GlyphTable()[j].text == g;
              WindowsDisjoint(d, i, j);
            }
          }
          if whole == 0 then g else intText(whole) + " " + g
        case None => fixed2(q)
  }

  /** `formattedQuantity`: the fraction style. */
  function FormattedQuantity(u: RecipeIngredient, fixed2: real -> string,
                             intText: int -> string): (r: string)
    ensures r == Format(u.quantity, Fraction, fixed2, intText)
  {
    Format(u.quantity, Fraction, fixed2, intText)
  }

  /** The fractional part the formatter looks up lies in [0, 1), and the whole part is the
      floor, so a negative quantity such as -0.5 is read as -1 plus one half. */
  lemma WholeAndFractionalParts(q: real)
    ensures 0.0 <= q - q.Floor as real < 1.0
    ensures q == -0.5 ==> q.Floor == -1 && Near(q - q.Floor as real, GlyphTable()[1])
  {
  }

  /** Fraction style and decimal style agree exactly on quantities near no glyph. */
  lemma NoGlyphFallsBackToDecimal(q: real, fixed2: real -> string, intText: int -> string)
    requires q != q.Floor as real
    requires forall i :: 0 <= i < |GlyphTable()| ==> !Near(q - q.Floor as real, GlyphTable()[i])
    ensures Format(q, Fraction, fixed2, intText) == Format(q, Decimal, fixed2, intText)
  {
  }

  /** A worked case: 2.5 is written "2 ½". */
  lemma HalfGlyphExample(fixed2: real -> string, intText: int -> string)
    requires intText(2) == "2"
    ensures Format(2.5, Fraction, fixed2, intText) == "2 \U{00BD}"
  {
    assert (2.5).Floor == 2;
    assert Near(0.5, GlyphTable()[1]);
  }

  /** A worked case: 0.75 is written "¾", with no whole part. */
  lemma ThreeQuartersGlyphExample(fixed2: real -> string, intText: int -> string)
    ensures Format(0.75, Fraction, fixed2, intText) == "\U{00BE}"
  {
    assert (0.75).Floor == 0;
    assert Near(0.75, GlyphTable()[2]);
  }
}
