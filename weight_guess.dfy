/**
 * The weight heuristic of the checkout handler: a product id such as "soap-500g"
 * or "flour-1KG" carries its weight as digits followed by a unit. The handler
 * runs the unanchored, case-insensitive patterns `(\d+)kg` and `(\d+)g` and takes
 * the leftmost match of the first one that matches.
 *
 * The pattern semantics are stated as ghost predicates (MatchAt, LeftmostMatch);
 * FindMatch is a scan over maximal digit runs proved to return exactly the
 * leftmost match.
 */
module WeightGuess {
  import opened Wrappers

  predicate IsDigit(c: char)
  {
    '0' <= c <= '9'
  }

  /** ASCII case folding, as the `i` flag applies it to the letters of "kg" and "g". */
  function Lower(c: char): char
  {
    if 'A' <= c <= 'Z' then (c as int + 32) as char else c
  }

  /** A unit suffix the patterns look for: lower-case, not starting with a digit. */
  predicate IsUnit(unit: string)
  {
    |unit| > 0 && !IsDigit(unit[0])
  }

  /** s[i..j] is a non-empty run of digits. */
  ghost predicate DigitsBetween(s: string, i: int, j: int)
  {
    0 <= i < j <= |s| && forall k :: i <= k < j ==> IsDigit(s[k])
  }

  /** `unit` occurs at position j of s, ignoring case. */
  predicate UnitAt(s: string, j: int, unit: string)
  {
    0 <= j && j + |unit| <= |s| && forall k :: 0 <= k < |unit| ==> Lower(s[j + k]) == unit[k]
  }

  /** The pattern `(\d+)<unit>` matches at i with the group capturing s[i..j]. */
  ghost predicate MatchAt(s: string, unit: string, i: int, j: int)
  {
    DigitsBetween(s, i, j) && UnitAt(s, j, unit)
  }

  ghost predicate HasMatch(s: string, unit: string)
  {
    exists i, j :: MatchAt(s, unit, i, j)
  }

  /** The match `String.prototype.match` reports: the one that starts leftmost. */
  ghost predicate LeftmostMatch(s: string, unit: string, i: int, j: int)
  {
    MatchAt(s, unit, i, j) && forall i', j' :: 0 <= i' < i ==> !MatchAt(s, unit, i', j')
  }

  /** Number(...) of a digit string: its decimal value (leading zeros allowed). */
  function DecimalValue(digits: string): nat
  {
    if digits == [] then 0
    else
      var last := digits[|digits| - 1];
      DecimalValue(digits[..|digits| - 1]) * 10 + (if IsDigit(last) then last as int - '0' as int else 0)
  }

  /** The end of the digit run that starts at i (i itself when s[i] is not a digit). */
  function RunEnd(s: string, i: nat): (e: nat)
    requires i <= |s|
    ensures i <= e <= |s|
    ensures forall k :: i <= k < e ==> IsDigit(s[k])
    ensures e == |s| || !IsDigit(s[e])
    decreases |s| - i
  {
    if i < |s| && IsDigit(s[i]) then RunEnd(s, i + 1) else i
  }

  /** A string in which the unit's first letter never occurs (in either case) has no match. */
  lemma NoUnitLetterNoMatch(s: string, unit: string)
    requires IsUnit(unit)
    requires forall k :: 0 <= k < |s| ==> Lower(s[k]) != unit[0]
    ensures !HasMatch(s, unit)
  {
  }

  /** A match inside a digit run [from, e) must end at e. */
  lemma NoMatchInsideRun(s: string, unit: string, from: nat, e: nat)
    requires IsUnit(unit) && from < e <= |s|
    requires forall k :: from <= k < e ==> IsDigit(s[k])
    requires e == |s| || !IsDigit(s[e])
    requires !UnitAt(s, e, unit)
    ensures forall i, j :: from <= i < e ==> !MatchAt(s, unit, i, j)
  {
  }

  /**
   * Scans s from position `from` for the leftmost match of `(\d+)<unit>`,
   * skipping a whole digit run when the unit does not follow it.
   */
  function FindMatch(s: string, unit: string, from: nat): (r: Option<(nat, nat)>)
    requires IsUnit(unit) && from <= |s|
    ensures r.Some? ==> from <= r.value.0 && MatchAt(s, unit, r.value.0, r.value.1)
    ensures r.Some? ==> forall i, j :: from <= i < r.value.0 ==> !MatchAt(s, unit, i, j)
    ensures r.None? ==> forall i, j :: from <= i ==> !MatchAt(s, unit, i, j)
    decreases |s| - from
  {
    if from == |s| then None
    else if !IsDigit(s[from]) then FindMatch(s, unit, from + 1)
    else
      var e := RunEnd(s, from);
      if UnitAt(s, e, unit) then Some((from, e))
      else
        NoMatchInsideRun(s, unit, from, e);
        FindMatch(s, unit, e)
  }

  /** Only one match is leftmost: its start is fixed, and the digit run cannot be shortened or extended. */
  lemma LeftmostUnique(s: string, unit: string, i: int, j: int)
    requires IsUnit(unit) && LeftmostMatch(s, unit, i, j)
    ensures forall i2, j2 :: LeftmostMatch(s, unit, i2, j2) ==> i2 == i && j2 == j
  {
  }

  /** The captured digits form a maximal run: the leftmost match never starts right after a digit. */
  lemma LeftmostIsMaximalRun(s: string, unit: string, i: int, j: int)
    requires LeftmostMatch(s, unit, i, j)
    ensures i == 0 || !IsDigit(s[i - 1])
  {
    if i > 0 && IsDigit(s[i - 1]) {
      assert MatchAt(s, unit, i - 1, j);
    }
  }

  /** Whenever the pattern matches somewhere, a leftmost match exists. */
  lemma LeftmostExists(s: string, unit: string)
    requires IsUnit(unit) && HasMatch(s, unit)
    ensures exists i, j :: LeftmostMatch(s, unit, i, j)
  {
    var r := FindMatch(s, unit, 0);
    assert LeftmostMatch(s, unit, r.value.0, r.value.1);
  }

  /**
   * `guessWeightG`: the weight in grams that the id names. A "kg" match anywhere
   * wins over any "g" match; the leftmost match's digits count, times 1000 for kg;
   * an id without either pattern weighs 0.
   */
  function GuessWeightG(id: string): (w: nat)
    ensures forall i, j :: LeftmostMatch(id, "kg", i, j) ==> w == 1000 * DecimalValue(id[i..j])
    ensures !HasMatch(id, "kg") ==>
              forall i, j :: LeftmostMatch(id, "g", i, j) ==> w == DecimalValue(id[i..j])
    ensures !HasMatch(id, "kg") && !HasMatch(id, "g") ==> w == 0
  {
    match FindMatch(id, "kg", 0)
    case Some((i, j)) =>
      LeftmostUnique(id, "kg", i, j);
      1000 * DecimalValue(id[i..j])
    case None =>
      match FindMatch(id, "g", 0)
      case Some((i, j)) =>
        LeftmostUnique(id, "g", i, j);
        DecimalValue(id[i..j])
      case None => 0
  }
}
