/** Leaves of the tree: the text of an atom is classified only when it is
    evaluated, as a number first and as a variable name otherwise. */
module Atoms {
  import opened Chars
  import opened Decimal
  import opened Errors

  /** Index of the first `.` in `s`, or `|s|` when there is none. */
  function DotIndex(s: string): (k: nat)
    ensures k <= |s|
    ensures k < |s| ==> s[k] == '.'
    ensures forall i | 0 <= i < k :: s[i] != '.'
  {
    if s == [] || s[0] == '.' then 0 else 1 + DotIndex(s[1..])
  }

  /** The number pattern `\d+(\.\d+)?`: digits, then optionally a `.` and digits. */
  predicate IsNumberText(s: string) {
    var k := DotIndex(s);
    && k >= 1
    && AllDigits(s[..k])
    && (k == |s| || (k + 1 < |s| && AllDigits(s[k + 1..])))
  }

  /** The variable pattern `[A-Za-z][A-Za-z0-9]*`. */
  predicate IsVariableText(s: string) {
    |s| >= 1 && IsLetter(s[0]) && forall i | 1 <= i < |s| :: IsLetterOrDigit(s[i])
  }

  /** The value `Float.parseFloat` reads from a text of the number pattern,
      kept exact (no rounding to the nearest float). */
  function NumberValue(s: string): (v: real)
    requires IsNumberText(s)
    ensures v >= 0.0
  {
    var k := DotIndex(s);
    if k == |s| then DigitsValue(s[..k]) as real
    else DigitsValue(s[..k]) as real + DigitsValue(s[k + 1..]) as real / Pow10(|s| - k - 1) as real
  }

  /** Looks a name up; an absent name is an error. */
  function ResolveVariable(name: string, variables: map<string, real>): (r: Outcome<real>)
    ensures r.Ok? <==> name in variables
    ensures r.Ok? ==> r.value == variables[name]
    ensures r.Fail? ==> r.error == UndefinedVariable(name)
  {
    if name !in variables then Fail(UndefinedVariable(name)) else Ok(variables[name])
  }

  /** Evaluation of an atom: only reads the variables. */
  function Eval(text: string, variables: map<string, real>): (r: Outcome<real>)
    ensures r.Ok? ==> || (IsNumberText(text) && r.value == NumberValue(text))
                      || (IsVariableText(text) && text in variables && r.value == variables[text])
    ensures r.Fail? ==> || (r.error == InvalidAtomValue(text) && !IsNumberText(text) && !IsVariableText(text))
                        || (r.error == UndefinedVariable(text) && IsVariableText(text) && text !in variables)
  {
    if IsNumberText(text) then Ok(NumberValue(text))
    else if IsVariableText(text) then ResolveVariable(text, variables)
    else Fail(InvalidAtomValue(text))
  }

  /** The two patterns never both match: a number starts with a digit, a name with a letter. */
  lemma PatternsDisjoint(s: string)
    ensures !(IsNumberText(s) && IsVariableText(s))
  {
    if IsNumberText(s) {
      assert s[..DotIndex(s)][0] == s[0];
    }
  }

  /** A number atom means its value whatever the variables hold. */
  lemma NumberIgnoresVariables(text: string, m1: map<string, real>, m2: map<string, real>)
    requires IsNumberText(text)
    ensures Eval(text, m1) == Eval(text, m2) == Ok(NumberValue(text))
  {
  }

  /** A name atom means the value stored under it, and an absent name fails
      with a message that names it. */
  lemma VariableLookup(name: string, variables: map<string, real>)
    requires IsVariableText(name)
    ensures name in variables ==> Eval(name, variables) == Ok(variables[name])
    ensures name !in variables ==> Eval(name, variables) == Fail(UndefinedVariable(name))
    ensures name !in variables ==> Message(Eval(name, variables).error) == "Undefined variable '" + name + "'"
  {
    PatternsDisjoint(name);
  }

  /** Leading zeros are kept in the text but do not change the value. */
  lemma LeadingZeroIgnored(s: string)
    requires IsNumberText(s)
    ensures IsNumberText("0" + s) && NumberValue("0" + s) == NumberValue(s)
  {
    var t := "0" + s;
    var k := DotIndex(s);
    assert DotIndex(t) == k + 1 by {
      assert t[1..] == s;
    }
    assert t[..k + 1] == "0" + s[..k];
    Decimal.LeadingZeroIgnored(s[..k]);
    if k < |s| {
      assert t[k + 2..] == s[k + 1..];
    }
  }

  /** The decimal text of a natural number is a number atom meaning that number. */
  lemma NumeralValue(n: nat, variables: map<string, real>)
    ensures Eval(NatText(n), variables) == Ok(n as real)
  {
    var s := NatText(n);
    assert forall i | 0 <= i < |s| :: s[i] != '.';
    assert DotIndex(s) == |s|;
    assert s[..|s|] == s;
    NatTextRoundTrip(n);
  }

  /** `k` zero characters. */
  function Zeros(k: nat): (s: string)
    ensures |s| == k && forall i | 0 <= i < k :: s[i] == '0'
  {
    if k == 0 then "" else "0" + Zeros(k - 1)
  }

  /** Any number of leading zeros leaves a number atom's value alone. */
  lemma {:induction false} LeadingZerosIgnored(k: nat, s: string)
    requires IsNumberText(s)
    ensures IsNumberText(Zeros(k) + s) && NumberValue(Zeros(k) + s) == NumberValue(s)
  {
    if k == 0 {
      assert Zeros(k) + s == s;
    } else {
      var t := Zeros(k - 1) + s;
      LeadingZerosIgnored(k - 1, s);
      assert Zeros(k) + s == "0" + t;
      LeadingZeroIgnored(t);
    }
  }

  /** The text `"42"` means 42. */
  lemma FortyTwo()
    ensures IsNumberText("42") && NumberValue("42") == 42.0
  {
    var s := "42";
    assert DotIndex(s) == 2;
    assert s[..2] == s;
    assert DigitsValue(s) == 42 by {
      assert s[..1] == "4";
    }
  }

  /** The text `"00000042"` means 42. */
  lemma ZerosThenFortyTwo(variables: map<string, real>)
    ensures Eval("00000042", variables) == Ok(42.0)
  {
    FortyTwo();
    LeadingZerosIgnored(6, "42");
    assert Zeros(6) + "42" == "00000042";
  }
}
