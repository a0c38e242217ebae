/** The parts of `System.IO.Path` the generator uses, on Windows path syntax:
    `\` and `/` separate directories and `:` ends a volume name. */
module Paths {
  import opened Wrappers

  predicate IsSeparator(c: char) {
    c == '\\' || c == '/' || c == ':'
  }

  /** Index where the file-name part of `p` begins: just after its last separator. */
  function FileNameStart(p: string): (k: nat)
    ensures k <= |p|
    ensures forall i :: k <= i < |p| ==> !IsSeparator(p[i])
    ensures k > 0 ==> IsSeparator(p[k - 1])
  {
    if |p| == 0 then 0
    else if IsSeparator(p[|p| - 1]) then |p|
    else FileNameStart(p[..|p| - 1])
  }

  /** `Path.GetFileName`: the longest suffix of `p` without a separator. */
  function GetFileName(p: string): (r: string)
    ensures forall i :: 0 <= i < |r| ==> !IsSeparator(r[i])
  {
    p[FileNameStart(p)..]
  }

  /** The file name is a suffix of `p`, preceded by a separator unless it is all of `p`. */
  lemma FileNameIsSuffix(p: string)
    ensures var r := GetFileName(p);
      && |r| <= |p| && r == p[|p| - |r|..]
      && (|r| < |p| ==> IsSeparator(p[|p| - |r| - 1]))
  {
  }

  /** Index of the last '.' in `s`, if any. */
  function LastDot(s: string): (r: Option<nat>)
    ensures r.Some? ==> r.value < |s| && s[r.value] == '.'
    ensures forall i :: (if r.Some? then r.value + 1 else 0) <= i < |s| ==> s[i] != '.'
  {
    if |s| == 0 then None
    else if s[|s| - 1] == '.' then Some(|s| - 1)
    else LastDot(s[..|s| - 1])
  }

  /** From the last '.' of `name` to its end, or empty when `name` has no '.' or
      ends with one. */
  function ExtensionOf(name: string): (r: string)
    ensures |r| <= |name| && r == name[|name| - |r|..]
    ensures r == [] || (r[0] == '.' && |r| > 1 && forall i :: 1 <= i < |r| ==> r[i] != '.')
  {
    match LastDot(name)
    case None => ""
    case Some(k) => if k == |name| - 1 then "" else name[k..]
  }

  /** `Path.GetExtension`: the extension of the file name. */
  function GetExtension(p: string): (r: string)
    ensures r == [] || (r[0] == '.' && |r| > 1 && forall i :: 1 <= i < |r| ==> r[i] != '.')
    ensures forall i :: 0 <= i < |r| ==> !IsSeparator(r[i])
  {
    var name := GetFileName(p);
    var r := ExtensionOf(name);
    assert forall i :: 0 <= i < |r| ==> r[i] == name[|name| - |r| + i];
    r
  }

  /** The extension is a suffix of the file name, and it is empty exactly when the
      name has no '.' or ends with one. */
  lemma ExtensionOfFileName(p: string)
    ensures var name, r := GetFileName(p), GetExtension(p);
      && |r| <= |name| && r == name[|name| - |r|..]
      && (r == [] <==> (forall i :: 0 <= i < |name| ==> name[i] != '.') || (|name| > 0 && name[|name| - 1] == '.'))
  {
  }

  /** `name` cut just before its last '.', or all of `name` when it has none. */
  function CutAtLastDot(name: string): (r: string)
    ensures |r| <= |name| && r == name[..|r|]
    ensures |r| == |name| ==> forall i :: 0 <= i < |name| ==> name[i] != '.'
    ensures |r| < |name| ==> name[|r|] == '.' && forall i :: |r| < i < |name| ==> name[i] != '.'
  {
    match LastDot(name)
    case None => name
    case Some(k) => name[..k]
  }

  /** `Path.GetFileNameWithoutExtension`: the file name up to its last '.'. */
  function GetFileNameWithoutExtension(p: string): (r: string)
    ensures forall i :: 0 <= i < |r| ==> !IsSeparator(r[i])
  {
    var name := GetFileName(p);
    var r := CutAtLastDot(name);
    assert forall i :: 0 <= i < |r| ==> r[i] == name[i];
    r
  }

  /** The name without extension is the file name cut at its last '.'. */
  lemma FileNameWithoutExtensionIsCut(p: string)
    ensures var name, r := GetFileName(p), GetFileNameWithoutExtension(p);
      && |r| <= |name| && r == name[..|r|]
      && (|r| == |name| ==> forall i :: 0 <= i < |name| ==> name[i] != '.')
      && (|r| < |name| ==> name[|r|] == '.' && forall i :: |r| < i < |name| ==> name[i] != '.')
  {
  }

  /** `Path.GetDirectoryName`: the text before the last separator (empty when there
      is none). */
  function GetDirectoryName(p: string): (r: string)
    ensures |r| < |p| || r == []
  {
    var k := FileNameStart(p);
    if k == 0 then "" else p[..k - 1]
  }

  /** The directory name is empty when `p` has no separator, and otherwise the
      prefix of `p` that ends just before its last separator. */
  lemma DirectoryNameIsPrefix(p: string)
    ensures (forall i :: 0 <= i < |p| ==> !IsSeparator(p[i])) ==> GetDirectoryName(p) == []
    ensures (exists i :: 0 <= i < |p| && IsSeparator(p[i])) ==>
      var r := GetDirectoryName(p);
      && |r| < |p| && r == p[..|r|] && IsSeparator(p[|r|])
      && forall i :: |r| < i < |p| ==> !IsSeparator(p[i])
  {
  }

  predicate IsRooted(p: string) {
    (|p| > 0 && (p[0] == '\\' || p[0] == '/')) || (|p| > 1 && p[1] == ':')
  }

  /** `Path.Combine(a, b)`. */
  function Combine(a: string, b: string): string {
    if IsRooted(b) || |a| == 0 then b
    else if IsSeparator(a[|a| - 1]) then a + b
    else a + "\\" + b
  }

  /** `s.Replace(".", "")`. */
  function RemoveDots(s: string): (r: string)
    ensures forall i :: 0 <= i < |r| ==> r[i] != '.'
    ensures |r| <= |s|
  {
    if |s| == 0 then ""
    else if s[0] == '.' then RemoveDots(s[1..])
    else [s[0]] + RemoveDots(s[1..])
  }

  /** `RemoveDots` keeps every character but '.', in order: it distributes over
      concatenation, and on one character it drops a dot and keeps anything else. */
  lemma {:induction false} RemoveDotsConcat(a: string, b: string)
    ensures RemoveDots(a + b) == RemoveDots(a) + RemoveDots(b)
  {
    if |a| > 0 {
      assert (a + b)[0] == a[0];
      assert (a + b)[1..] == a[1..] + b;
      RemoveDotsConcat(a[1..], b);
    } else {
      assert a + b == b;
    }
  }

  lemma RemoveDotsChar(c: char)
    ensures RemoveDots([c]) == if c == '.' then [] else [c]
  {
    assert [c][1..] == [];
  }

  /** `RemoveDots` leaves a text without dots unchanged. */
  lemma {:induction false} RemoveDotsNone(s: string)
    requires forall i :: 0 <= i < |s| ==> s[i] != '.'
    ensures RemoveDots(s) == s
  {
    if |s| > 0 {
      RemoveDotsNone(s[1..]);
    }
  }

  /** The extension `Path.GetExtension(p).Replace(".", "")` is the extension
      without its leading dot, and itself has no dot and no separator. */
  lemma ExtensionWithoutDot(p: string)
    ensures var e := GetExtension(p);
      RemoveDots(e) == if e == [] then [] else e[1..]
  {
    var e := GetExtension(p);
    if e != [] {
      RemoveDotsNone(e[1..]);
      assert e == [e[0]] + e[1..];
    }
  }
}
