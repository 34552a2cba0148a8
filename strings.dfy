/** The few `String.prototype` operations the core relies on, over `seq<char>`. */
module Strings {
  import opened Common

  /** `s.startsWith(p)`. */
  predicate StartsWith(s: string, p: string) {
    |p| <= |s| && s[..|p|] == p
  }

  /** `s.replace(pat, rep)` with a string pattern: only the first occurrence of `pat`
      is replaced (for the empty pattern, `rep` is put in front). */
  function ReplaceFirst(s: string, pat: string, rep: string): (r: string)
    ensures StartsWith(s, pat) ==> r == rep + s[|pat|..]
    ensures (forall k :: 0 <= k <= |s| ==> !StartsWith(s[k..], pat)) ==> r == s
    decreases |s|
  {
    if StartsWith(s, pat) then
      assert s[0..] == s;
      rep + s[|pat|..]
    else if s == [] then s
    else
      assert forall k :: 0 <= k <= |s[1..]| ==> s[1..][k..] == s[k + 1..];
      [s[0]] + ReplaceFirst(s[1..], pat, rep)
  }

  /** `s.split(sep)` for a one-character separator: the pieces between separators,
      so there is always at least one piece, and one more than there are separators. */
  function Split(s: string, sep: char): (r: seq<string>)
    ensures |r| >= 1
    decreases |s|
  {
    if s == [] then [""]
    else
      var rest := Split(s[1..], sep);
      if s[0] == sep then [""] + rest else [[s[0]] + rest[0]] + rest[1..]
  }

  /** `s.split(sep)[1]`, which is `undefined` when `s` holds no separator. */
  function SecondPiece(s: string, sep: char): (r: Option<string>)
    ensures r.None? <==> sep !in s
  {
    SplitSingleIffNoSeparator(s, sep);
    var pieces := Split(s, sep);
    if |pieces| >= 2 then Some(pieces[1]) else None
  }

  /** A string without the separator splits into itself alone. */
  lemma {:induction false} SplitWithoutSeparator(s: string, sep: char)
    requires sep !in s
    ensures Split(s, sep) == [s]
  {
    if s != [] {
      SplitWithoutSeparator(s[1..], sep);
      assert [s[0]] + s[1..] == s;
    }
  }

  /** Splitting at the first separator: what comes before it is the first piece, and
      the pieces of what comes after it follow. */
  lemma {:induction false} SplitAtFirst(a: string, sep: char, b: string)
    requires sep !in a
    ensures Split(a + [sep] + b, sep) == [a] + Split(b, sep)
  {
    if a == [] {
      assert a + [sep] + b == [sep] + b;
      assert ([sep] + b)[1..] == b;
    } else {
      SplitAtFirst(a[1..], sep, b);
      assert (a + [sep] + b)[1..] == a[1..] + [sep] + b;
      assert [a[0]] + a[1..] == a;
    }
  }

  /** A string splits into more than one piece exactly when it holds the separator. */
  lemma {:induction false} SplitSingleIffNoSeparator(s: string, sep: char)
    ensures |Split(s, sep)| == 1 <==> sep !in s
  {
    if s != [] {
      SplitSingleIffNoSeparator(s[1..], sep);
      assert sep in s <==> s[0] == sep || sep in s[1..];
    }
  }

  /** `(a + sep + b).split(sep)[1]` is `b` when neither part holds the separator. */
  lemma SecondPieceOfJoin(a: string, sep: char, b: string)
    requires sep !in a && sep !in b
    ensures SecondPiece(a + [sep] + b, sep) == Some(b)
  {
    SplitAtFirst(a, sep, b);
    SplitWithoutSeparator(b, sep);
  }

  /** There is no second piece exactly when the string holds no separator. */
  lemma SecondPieceAbsent(s: string, sep: char)
    ensures SecondPiece(s, sep).None? <==> sep !in s
  {
    SplitSingleIffNoSeparator(s, sep);
  }

  /** `s.indexOf(c)`: the position of the first `c`, if there is one. */
  function IndexOf(s: string, c: char): (r: Option<nat>)
    ensures r.Some? ==> r.value < |s| && s[r.value] == c && c !in s[..r.value]
    ensures r.None? ==> c !in s
  {
    if s == [] then None
    else if s[0] == c then Some(0)
    else
      match IndexOf(s[1..], c)
      case Some(k) => Some(k + 1)
      case None => None
  }

  /** ASCII upper-case letters to lower case; every other character is kept. */
  function ToLowerAscii(s: string): (r: string)
    ensures |r| == |s|
    ensures forall i :: 0 <= i < |s| ==> r[i] == LowerAscii(s[i])
  {
    if s == [] then [] else [LowerAscii(s[0])] + ToLowerAscii(s[1..])
  }

  /** One character: an ASCII upper-case letter becomes its lower-case letter. */
  function LowerAscii(c: char): (d: char)
    ensures 'A' <= c <= 'Z' ==> d as int == c as int + 32
    ensures !('A' <= c <= 'Z') ==> d == c
  {
    if 'A' <= c <= 'Z' then (c as int + 32) as char else c
  }

}
