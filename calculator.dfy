/** The keypad sheet that edits an ingredient quantity (Culinex `CalculatorNumberPickerView`).
    The typed text is a buffer of characters; "Done" parses it into the bound quantity.

    Parsing a Double from text and printing one with "%g" are library calls; they are the
    parameters `parse` and `formatG`. */
module Calculator {
  import opened Wrappers

  /** The keypad, row by row; "\U{232B}" is the backspace key. */
  function Keys(): seq<seq<string>> {
    [["1", "2", "3"], ["4", "5", "6"], ["7", "8", "9"], [".", "0", "\U{232B}"]]
  }

  const Backspace: string := "\U{232B}"

  predicate IsDigitKey(key: string) {
    |key| == 1 && '0' <= key[0] <= '9'
  }

  predicate OnKeypad(key: string) {
    exists r, k :: 0 <= r < |Keys()| && 0 <= k < |Keys()[r]| && Keys()[r][k] == key
  }

  /** The keypad offers the ten digits, the point and backspace, and nothing else. */
  lemma KeypadKeys()
    ensures forall r, k :: 0 <= r < |Keys()| && 0 <= k < |Keys()[r]| ==>
      IsDigitKey(Keys()[r][k]) || Keys()[r][k] == "." || Keys()[r][k] == Backspace
    ensures forall d :: '0' <= d <= '9' ==> OnKeypad([d])
  {
    forall r, k | 0 <= r < |Keys()| && 0 <= k < |Keys()[r]|
      ensures IsDigitKey(Keys()[r][k]) || Keys()[r][k] == "." || Keys()[r][k] == Backspace
    {
      if r == 3 && k != 1 {
        assert Keys()[r][k] == if k == 0 then "." else Backspace;
      } else {
        assert IsDigitKey(Keys()[r][k]);
      }
    }
    forall d | '0' <= d <= '9'
      ensures OnKeypad([d])
    {
      var (r, k) := match d
        case '1' => (0, 0) case '2' => (0, 1) case '3' => (0, 2)
        case '4' => (1, 0) case '5' => (1, 1) case '6' => (1, 2)
        case '7' => (2, 0) case '8' => (2, 1) case '9' => (2, 2)
        case _ => (3, 1);
      assert Keys()[r][k] == [d];
    }
  }

  predicate IsKeypadKey(key: string) {
    IsDigitKey(key) || key == "." || key == Backspace
  }

  /** The fraction shortcuts and the values they stand for. */
  function FractionKeys(): map<string, real> {
    map["\U{00BC}" := 0.25, "\U{00BD}" := 0.5, "\U{00BE}" := 0.75,
        "\U{2153}" := 0.333, "\U{2154}" := 0.666]
  }

  function DotCount(s: string): nat {
    multiset(s)['.']
  }

  /** `handleKeyTap(_:)`. */
  function KeyTap(input: string, key: string): (r: string)
    ensures key == Backspace && input != [] ==> r == input[..|input| - 1]
    ensures key == Backspace && input == [] ==> r == []
    ensures key == "." ==> r == if '.' in input then input else input + "."
    ensures key != Backspace && key != "." ==> r == input + key
  {
    if key == Backspace then
      if input != [] then input[..|input| - 1] else input
    else if key == "." then
      if '.' !in input then input + key else input
    else input + key
  }

  /** Keypad keys never give the buffer a second point: a digit adds none, backspace removes
      a character, and "." is added only when none is there. */
  lemma {:induction false} KeyTapKeepsOneDot(input: string, key: string)
    requires IsKeypadKey(key) && DotCount(input) <= 1
    ensures DotCount(KeyTap(input, key)) <= 1
    ensures key == "." ==> DotCount(KeyTap(input, key)) == 1
  {
    if key == Backspace && input != [] {
      assert input == input[..|input| - 1] + [input[|input| - 1]];
    } else if key == "." {
      if '.' in input {
        assert DotCount(input) >= 1;
      }
    } else if IsDigitKey(key) {
      assert key[0] != '.';
      assert multiset(input + key) == multiset(input) + multiset(key);
      assert key == [key[0]];
    }
  }

  /** A digit key appends exactly that digit. */
  lemma DigitAppends(input: string, key: string)
    requires IsDigitKey(key)
    ensures var r := KeyTap(input, key); |r| == |input| + 1 && r[..|input|] == input && r[|input|] == key[0]
  {
    assert key != Backspace && key != ".";
  }

  /** `handleFractionTap(_:)`: an unknown key changes nothing; otherwise the whole part of the
      typed number (0 if it does not parse) plus the fraction, printed with "%g". */
  function FractionTap(input: string, key: string, parse: string -> Option<real>,
                       formatG: real -> string): (r: string)
    ensures key !in FractionKeys() ==> r == input
    ensures key in FractionKeys() ==>
      var current := if parse(input).Some? then parse(input).value else 0.0;
      r == formatG(current.Floor as real + FractionKeys()[key])
  {
    if key !in FractionKeys() then input
    else
      var current := match parse(input) case Some(v) => v case None => 0.0;
      formatG(current.Floor as real + FractionKeys()[key])
  }

  /** The value a fraction tap prints keeps the whole part and has the fraction's value as its
      fractional part. */
  lemma FractionTapValue(current: real, key: string)
    requires key in FractionKeys()
    ensures var v := current.Floor as real + FractionKeys()[key];
      v.Floor == current.Floor && v - v.Floor as real == FractionKeys()[key]
  {
  }

  /** `onAppear`: a positive quantity is printed into the buffer; otherwise it stays as it was. */
  function Appear(input: string, quantity: real, formatG: real -> string): (r: string)
    ensures quantity > 0.0 ==> r == formatG(quantity)
    ensures quantity <= 0.0 ==> r == input
  {
    if quantity > 0.0 then formatG(quantity) else input
  }

  /** The "Done" button: the parsed buffer, or 0 when it does not parse. */
  function Parsed(input: string, parse: string -> Option<real>): (q: real)
    ensures parse(input).Some? ==> q == parse(input).value
    ensures parse(input).None? ==> q == 0.0
  {
    match parse(input)
    case Some(v) => v
    case None => 0.0
  }

  class CalculatorNumberPicker {
    var quantity: real
    var currentInput: string
    var dismissed: bool
    const parse: string -> Option<real>
    const formatG: real -> string

    /** The sheet opens with an empty buffer, then `onAppear` runs. */
    constructor (quantity: real, parse: string -> Option<real>, formatG: real -> string)
      ensures this.quantity == quantity && this.parse == parse && this.formatG == formatG
      ensures currentInput == (if quantity > 0.0 then formatG(quantity) else "") && !dismissed
    {
      this.quantity := quantity;
      this.parse := parse;
      this.formatG := formatG;
      currentInput := "";
      dismissed := false;
      new;
      OnAppear();
    }

    method OnAppear()
      modifies this
      ensures currentInput == Appear(old(currentInput), quantity, formatG)
      ensures quantity == old(quantity) && dismissed == old(dismissed)
    {
      if quantity > 0.0 {
        currentInput := formatG(quantity);
      }
    }

    method HandleKeyTap(key: string)
      modifies this
      ensures currentInput == KeyTap(old(currentInput), key)
      ensures quantity == old(quantity) && dismissed == old(dismissed)
    {
      if key == Backspace {
        if currentInput != [] {
          currentInput := currentInput[..|currentInput| - 1];
        }
      } else if key == "." {
        if '.' !in currentInput {
          currentInput := currentInput + key;
        }
      } else {
        currentInput := currentInput + key;
      }
    }

    method HandleFractionTap(key: string)
      modifies this
      ensures currentInput == FractionTap(old(currentInput), key, parse, formatG)
      ensures quantity == old(quantity) && dismissed == old(dismissed)
    {
      if key !in FractionKeys() { return; }
      var fractionValue := FractionKeys()[key];
      var currentDouble := match parse(currentInput) case Some(v) => v case None => 0.0;
      var wholePart := currentDouble.Floor as real;
      currentInput := formatG(wholePart + fractionValue);
    }

    method Done()
      modifies this
      ensures quantity == Parsed(old(currentInput), parse) && dismissed
      ensures currentInput == old(currentInput)
    {
      quantity := match parse(currentInput) case Some(v) => v case None => 0.0;
      dismissed := true;
    }
  }
}
