/** The generated class name: the input file's base name with every character
    outside letters, digits and '_' replaced by '_'. */
module ClassNames {

  /** `StringExtensions.LettersNumbersUnderscores`: ASCII letters, digits and '_'. */
  predicate IsClassNameChar(c: char) {
    'a' <= c <= 'z' || 'A' <= c <= 'Z' || '0' <= c <= '9' || c == '_'
  }

  function SanitizeChar(c: char): (r: char)
    ensures IsClassNameChar(r)
  {
    if IsClassNameChar(c) then c else '_'
  }

  /** The sanitised name: same length, only allowed characters. */
  function Sanitize(name: string): (r: string)
    ensures |r| == |name|
    ensures forall i :: 0 <= i < |r| ==> IsClassNameChar(r[i])
  {
    if |name| == 0 then [] else [SanitizeChar(name[0])] + Sanitize(name[1..])
  }

  /** Allowed characters stay where they are; every other one becomes '_'. */
  lemma {:induction false} SanitizeAt(name: string, k: nat)
    requires k < |name|
    ensures Sanitize(name)[k] == if IsClassNameChar(name[k]) then name[k] else '_'
  {
    if k > 0 {
      SanitizeAt(name[1..], k - 1);
    }
  }

  /** A name made only of allowed characters is its own sanitised form. */
  lemma {:induction false} SanitizeValid(name: string)
    requires forall i :: 0 <= i < |name| ==> IsClassNameChar(name[i])
    ensures Sanitize(name) == name
  {
    if |name| > 0 {
      SanitizeValid(name[1..]);
    }
  }

  /** Sanitising twice is sanitising once. */
  lemma SanitizeIdempotent(name: string)
    ensures Sanitize(Sanitize(name)) == Sanitize(name)
  {
    SanitizeValid(Sanitize(name));
  }

  /** The character loop of the source, run in place on a copy of the name. */
  method SanitizeClassName(name: string) returns (r: string)
    ensures r == Sanitize(name)
  {
    var classname := new char[|name|](i requires 0 <= i < |name| => name[i]);
    for i := 0 to classname.Length
      invariant forall k :: 0 <= k < i ==> classname[k] == SanitizeChar(name[k])
      invariant forall k :: i <= k < classname.Length ==> classname[k] == name[k]
    {
      if !IsClassNameChar(classname[i]) {
        classname[i] := '_';
      }
    }
    r := classname[..];
    forall k | 0 <= k < |name|
      ensures r[k] == Sanitize(name)[k]
    {
      SanitizeAt(name, k);
    }
  }
}
