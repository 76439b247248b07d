/** The licence-plate comparison of the detection service: both plates are
    upper-cased, every ASCII space is deleted, and the results must be equal. */
module Plates {

  /** Python's `str.upper()` on one character, for the ASCII letters. */
  function UpperChar(c: char): char {
    if 'a' <= c <= 'z' then (c as int - 32) as char else c
  }

  function Upper(s: string): string {
    seq(|s|, i requires 0 <= i < |s| => UpperChar(s[i]))
  }

  /** Python's `s.replace(" ", "")`: only the space character is deleted. */
  function RemoveSpaces(s: string): (r: string)
    ensures ' ' !in r
    ensures |r| <= |s|
  {
    if |s| == 0 then ""
    else if s[0] == ' ' then RemoveSpaces(s[1..])
    else [s[0]] + RemoveSpaces(s[1..])
  }

  /** Every character other than a space is kept as often as it occurs, and a
      plate without spaces is left as it is; with `RemoveSpacesAppend` this
      fixes the order too. */
  lemma {:induction false} RemoveSpacesMeaning(s: string)
    ensures multiset(RemoveSpaces(s)) == multiset(s)[' ' := 0]
    ensures ' ' !in s ==> RemoveSpaces(s) == s
    decreases |s|
  {
    if |s| > 0 {
      RemoveSpacesMeaning(s[1..]);
      assert s == [s[0]] + s[1..];
    }
  }

  /** The canonical form `_compare_plates` compares. */
  function Normalize(plate: string): string {
    RemoveSpaces(Upper(plate))
  }

  /** `_compare_plates(plate1, plate2)`. */
  predicate ComparePlates(plate1: string, plate2: string)
    ensures Upper(plate1) == Upper(plate2) ==> ComparePlates(plate1, plate2)
  {
    Normalize(plate1) == Normalize(plate2)
  }

  /** The comparison is an equivalence relation on plates. */
  lemma ComparePlatesIsEquivalence(a: string, b: string, c: string)
    ensures ComparePlates(a, a)
    ensures ComparePlates(a, b) ==> ComparePlates(b, a)
    ensures ComparePlates(a, b) && ComparePlates(b, c) ==> ComparePlates(a, c)
  {
  }

  lemma {:induction false} UpperAppend(a: string, b: string)
    ensures Upper(a + b) == Upper(a) + Upper(b)
  {
  }

  lemma {:induction false} RemoveSpacesAppend(a: string, b: string)
    ensures RemoveSpaces(a + b) == RemoveSpaces(a) + RemoveSpaces(b)
    decreases |a|
  {
    if |a| > 0 {
      assert (a + b)[0] == a[0] && (a + b)[1..] == a[1..] + b;
      RemoveSpacesAppend(a[1..], b);
    } else {
      assert a + b == b;
    }
  }

  /** Inserting a space anywhere does not change the verdict. */
  lemma SpaceInsensitive(a: string, b: string, other: string)
    ensures ComparePlates(a + " " + b, other) <==> ComparePlates(a + b, other)
  {
    UpperAppend(a + " ", b);
    UpperAppend(a, " ");
    UpperAppend(a, b);
    assert Upper(" ") == " ";
    RemoveSpacesAppend(Upper(a) + " ", Upper(b));
    RemoveSpacesAppend(Upper(a), " ");
    RemoveSpacesAppend(Upper(a), Upper(b));
  }

  /** Upper-casing a plate does not change the verdict. */
  lemma CaseInsensitive(a: string, other: string)
    ensures ComparePlates(Upper(a), other) <==> ComparePlates(a, other)
  {
    assert Upper(Upper(a)) == Upper(a);
  }

  /** A tab is not a space: it is kept, so these two plates differ. */
  lemma TabIsSignificant()
    ensures !ComparePlates("AB\t12", "AB12")
  {
    assert Upper("AB\t12")[2] == '\t';
    assert '\t' in Normalize("AB\t12");
    assert '\t' !in Normalize("AB12");
  }
}
