/** Windows path and name helpers the watchers rely on: `str.lower`, `ntpath.basename`
    and `ntpath.normcase`. Lowercasing is modelled on the ASCII letters only. */
module Paths {

  predicate IsSep(c: char) { c == '/' || c == '\\' }

  predicate IsUpper(c: char) { 'A' <= c <= 'Z' }

  predicate NoSep(s: string) { forall j :: 0 <= j < |s| ==> !IsSep(s[j]) }

  function LowerChar(c: char): char
  {
    if IsUpper(c) then (c as int + 32) as char else c
  }

  /** `s.lower()`: same length, each upper-case letter replaced by its lower-case
      partner (32 code points up), every other character kept. */
  function Lower(s: string): (r: string)
    ensures |r| == |s|
    ensures forall i :: 0 <= i < |s| && IsUpper(s[i]) ==> r[i] == (s[i] as int + 32) as char
    ensures forall i :: 0 <= i < |s| && !IsUpper(s[i]) ==> r[i] == s[i]
    ensures forall i :: 0 <= i < |r| ==> !IsUpper(r[i])
  {
    seq(|s|, i requires 0 <= i < |s| => LowerChar(s[i]))
  }

  /** Two characters that differ at most in ASCII letter case. */
  predicate SameLetter(x: char, y: char)
  {
    || x == y
    || (IsUpper(x) && y as int == x as int + 32)
    || (IsUpper(y) && x as int == y as int + 32)
  }

  /** Reference definition, character by character: `a` and `b` spell the same text
      up to ASCII letter case. */
  predicate SameUpToCase(a: string, b: string)
    decreases |a|
  {
    if a == [] then b == []
    else b != [] && SameLetter(a[0], b[0]) && SameUpToCase(a[1..], b[1..])
  }

  /** Comparing lower-cased strings tells exactly whether they differ only in case. */
  lemma {:induction false} LowerEqualIffSameUpToCase(a: string, b: string)
    ensures Lower(a) == Lower(b) <==> SameUpToCase(a, b)
    decreases |a|
  {
    if a != [] && b != [] {
      LowerEqualIffSameUpToCase(a[1..], b[1..]);
      assert Lower(a) == [LowerChar(a[0])] + Lower(a[1..]);
      assert Lower(b) == [LowerChar(b[0])] + Lower(b[1..]);
    }
  }

  /** Length of the drive prefix `X:` that `ntpath.splitdrive` removes before the last
      component is looked for. */
  function DriveLength(p: string): nat
  {
    if |p| >= 2 && !IsSep(p[0]) && p[1] == ':' then 2 else 0
  }

  /** Scans back from `i` to just after the nearest separator, never into the drive. */
  function ComponentStart(p: string, i: nat): (k: nat)
    requires DriveLength(p) <= i <= |p|
    ensures DriveLength(p) <= k <= i
    ensures NoSep(p[k..i])
    ensures k == DriveLength(p) || IsSep(p[k - 1])
    decreases i
  {
    if i == DriveLength(p) || IsSep(p[i - 1]) then i
    else
      var k := ComponentStart(p, i - 1);
      assert p[k..i] == p[k..i - 1] + [p[i - 1]];
      k
  }

  /** `os.path.basename` on Windows: the longest separator-free suffix that does not
      reach into the drive; it starts right after a separator or right after the drive. */
  function Basename(p: string): (r: string)
    ensures NoSep(r)
    ensures |r| <= |p| - DriveLength(p) && r == p[|p| - |r|..]
    ensures |p| - |r| == DriveLength(p) || IsSep(p[|p| - |r| - 1])
  {
    p[ComponentStart(p, |p|)..]
  }

  /** The file name of `dir\name` (or `dir/name`) is `name`, whatever `dir` holds. */
  lemma BasenameOfJoin(dir: string, sep: char, name: string)
    requires IsSep(sep) && NoSep(name)
    ensures Basename(dir + [sep] + name) == name
  {
    var p := dir + [sep] + name;
    var r := Basename(p);
    assert |dir| == 0 ==> p[0] == sep;
    assert |dir| == 1 ==> p[1] == sep;
    assert p[|dir|] == sep;
    assert forall j :: |dir| < j < |p| ==> p[j] == name[j - |dir| - 1];
    assert |r| == |name|;
    assert p[|p| - |name|..] == name;
  }

  function NormCaseChar(c: char): char
  {
    if c == '/' then '\\' else LowerChar(c)
  }

  /** `os.path.normcase` on Windows: same length, each `/` replaced by `\`, each
      upper-case letter by its lower-case partner, every other character kept. */
  function NormCase(s: string): (r: string)
    ensures |r| == |s|
    ensures forall i :: 0 <= i < |s| && s[i] == '/' ==> r[i] == '\\'
    ensures forall i :: 0 <= i < |s| && IsUpper(s[i]) ==> r[i] == (s[i] as int + 32) as char
    ensures forall i :: 0 <= i < |s| && s[i] != '/' && !IsUpper(s[i]) ==> r[i] == s[i]
    ensures forall i :: 0 <= i < |r| ==> r[i] != '/' && !IsUpper(r[i])
  {
    seq(|s|, i requires 0 <= i < |s| => NormCaseChar(s[i]))
  }

  /** Two path characters that name the same thing on Windows: both separators, or the
      same letter up to case. */
  predicate SamePathChar(x: char, y: char)
  {
    (IsSep(x) && IsSep(y)) || SameLetter(x, y)
  }

  /** Reference definition: `a` and `b` are the same path text up to ASCII letter case
      and the choice of separator. */
  predicate SamePathText(a: string, b: string)
    decreases |a|
  {
    if a == [] then b == []
    else b != [] && SamePathChar(a[0], b[0]) && SamePathText(a[1..], b[1..])
  }

  /** Comparing normalised paths tells exactly whether they differ only in letter case
      and separator kind. */
  lemma {:induction false} NormCaseEqualIffSamePathText(a: string, b: string)
    ensures NormCase(a) == NormCase(b) <==> SamePathText(a, b)
    decreases |a|
  {
    if a != [] && b != [] {
      NormCaseEqualIffSamePathText(a[1..], b[1..]);
      assert NormCase(a) == [NormCaseChar(a[0])] + NormCase(a[1..]);
      assert NormCase(b) == [NormCaseChar(b[0])] + NormCase(b[1..]);
    }
  }
}
