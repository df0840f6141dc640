/** The Python string operations the script uses (slicing and `str.replace`),
    and splitting and joining on newlines, the terms in which the comment
    quoting is stated. */
module Text {

  /** Python's `s[:n]` for `n >= 0`: the first `n` characters, or all of `s`
      when it is shorter. */
  function Prefix(s: string, n: nat): (r: string)
    ensures |r| == if n < |s| then n else |s|
    ensures r <= s
  {
    if n < |s| then s[..n] else s
  }

  /** Python's `s[n:]` for `n >= 0`: empty when `s` is shorter than `n`. */
  function Drop(s: string, n: nat): (r: string)
    ensures Prefix(s, n) + r == s
  {
    if n < |s| then s[n..] else []
  }

  /** Python's `s.replace(pat, rep)` for a non-empty `pat`: occurrences are
      found left to right and do not overlap. */
  function Replace(s: string, pat: string, rep: string): string
    requires pat != []
    decreases |s|
  {
    if |s| < |pat| then s
    else if s[..|pat|] == pat then rep + Replace(s[|pat|..], pat, rep)
    else [s[0]] + Replace(s[1..], pat, rep)
  }

  /** With a one-character pattern, `Replace` works character by character. */
  lemma ReplaceCharCons(x: char, s: string, c: char, rep: string)
    ensures Replace([x] + s, [c], rep) == (if x == c then rep else [x]) + Replace(s, [c], rep)
  {
    var t := [x] + s;
    assert t[..1] == [x];
    assert t[1..] == s;
  }

  /** A character that does not start an occurrence of the pattern is copied. */
  lemma ReplaceKeep(x: char, s: string, pat: string, rep: string)
    requires pat != []
    requires |pat| <= |s| + 1 ==> ([x] + s)[..|pat|] != pat
    ensures Replace([x] + s, pat, rep) == [x] + Replace(s, pat, rep)
  {
    var t := [x] + s;
    assert t[1..] == s;
    if |t| < |pat| {
      assert Replace(s, pat, rep) == s;
    }
  }

  /** An occurrence of the pattern at the front is rewritten. */
  lemma ReplaceHit(s: string, pat: string, rep: string)
    requires pat != []
    ensures Replace(pat + s, pat, rep) == rep + Replace(s, pat, rep)
  {
    var t := pat + s;
    assert t[..|pat|] == pat;
    assert t[|pat|..] == s;
  }

  /** `pat` occurs in `s` at position `i`. */
  predicate At(s: string, pat: string, i: nat) {
    i + |pat| <= |s| && s[i..i + |pat|] == pat
  }

  /** A string in which the pattern occurs nowhere is left alone. */
  lemma {:induction false} ReplaceAbsent(s: string, pat: string, rep: string)
    requires pat != [] && forall i: nat :: !At(s, pat, i)
    ensures Replace(s, pat, rep) == s
    decreases |s|
  {
    if |s| >= |pat| {
      assert !At(s, pat, 0);
      assert s[0..|pat|] == s[..|pat|];
      forall i: nat
        ensures !At(s[1..], pat, i)
      {
        assert !At(s, pat, i + 1);
        if i + |pat| <= |s[1..]| {
          assert s[1..][i..i + |pat|] == s[i + 1..i + 1 + |pat|];
        }
      }
      ReplaceAbsent(s[1..], pat, rep);
      assert s == [s[0]] + s[1..];
    }
  }

  /** A string may hold the pattern's first character and still be left alone:
      `users` has no `s/`. */
  lemma ReplaceAbsentExample()
    ensures Replace("users", "s/", "#") == "users"
  {
    var s := "users";
    forall i: nat
      ensures !At(s, "s/", i)
    {
      if i + 2 <= |s| {
        assert s[i..i + 2][1] == s[i + 1];
      }
    }
    ReplaceAbsent(s, "s/", "#");
  }

  /** In particular, a string without the pattern's first character is left alone. */
  lemma ReplaceAbsentFirst(s: string, pat: string, rep: string)
    requires pat != [] && pat[0] !in s
    ensures Replace(s, pat, rep) == s
  {
    forall i: nat
      ensures !At(s, pat, i)
    {
      if i + |pat| <= |s| {
        assert s[i..i + |pat|][0] == s[i];
      }
    }
    ReplaceAbsent(s, pat, rep);
  }

  /** With a one-character pattern, no occurrence can straddle a split point. */
  lemma {:induction false} ReplaceCharAppend(a: string, b: string, c: char, rep: string)
    ensures Replace(a + b, [c], rep) == Replace(a, [c], rep) + Replace(b, [c], rep)
    decreases |a|
  {
    if a == [] {
      assert a + b == b;
      assert Replace(a, [c], rep) == [];
    } else {
      assert a + b == [a[0]] + (a[1..] + b);
      assert a == [a[0]] + a[1..];
      ReplaceCharCons(a[0], a[1..] + b, c, rep);
      ReplaceCharCons(a[0], a[1..], c, rep);
      ReplaceCharAppend(a[1..], b, c, rep);
    }
  }

  /** Every occurrence of a one-character pattern is replaced: none is left
      when the replacement does not contain it. */
  lemma {:induction false} ReplaceRemovesAll(s: string, c: char, rep: string)
    requires c !in rep
    ensures c !in Replace(s, [c], rep)
    decreases |s|
  {
    if s != [] {
      ReplaceRemovesAll(s[1..], c, rep);
      assert s == [s[0]] + s[1..];
      ReplaceCharCons(s[0], s[1..], c, rep);
    }
  }

  /** Python's `s.split('\n')`: always at least one line, and no line holds a newline. */
  function Lines(s: string): (r: seq<string>)
    ensures |r| >= 1
    ensures forall i :: 0 <= i < |r| ==> '\n' !in r[i]
    decreases |s|
  {
    if s == [] then [[]]
    else
      var rest := Lines(s[1..]);
      if s[0] == '\n' then [[]] + rest
      else [[s[0]] + rest[0]] + rest[1..]
  }

  /** Python's `'\n'.join(lines)`. */
  function Unlines(lines: seq<string>): string
    requires |lines| >= 1
    decreases |lines|
  {
    if |lines| == 1 then lines[0] else lines[0] + "\n" + Unlines(lines[1..])
  }

  /** Joining the lines of a string gives the string back. */
  lemma {:induction false} UnlinesLines(s: string)
    ensures Unlines(Lines(s)) == s
    decreases |s|
  {
    if s != [] {
      var rest := Lines(s[1..]);
      UnlinesLines(s[1..]);
      assert s == [s[0]] + s[1..];
      if s[0] != '\n' && |rest| > 1 {
        assert rest == [rest[0]] + rest[1..];
      }
    }
  }

  /** Text without a newline in front of `y` extends the first line of `y`. */
  lemma {:induction false} LinesConcat(p: string, y: string)
    requires '\n' !in p
    ensures Lines(p + y) == [p + Lines(y)[0]] + Lines(y)[1..]
    decreases |p|
  {
    if p == [] {
      assert p + y == y;
      assert p + Lines(y)[0] == Lines(y)[0];
      assert Lines(y) == [Lines(y)[0]] + Lines(y)[1..];
    } else {
      assert (p + y)[1..] == p[1..] + y;
      assert p[0] in p;
      assert forall x :: x in p[1..] ==> x in p;
      LinesConcat(p[1..], y);
      var rest := Lines(p[1..] + y);
      assert p[0] != '\n';
      assert (p + y)[0] == p[0];
      assert Lines(p + y) == [[p[0]] + rest[0]] + rest[1..];
      assert [p[0]] + (p[1..] + Lines(y)[0]) == p + Lines(y)[0];
    }
  }

  /** A newline after newline-free text `p` ends the first line with `p`. */
  lemma LinesAfterNewline(p: string, q: string)
    requires '\n' !in p
    ensures Lines(p + ['\n'] + q) == [p] + Lines(q)
  {
    var y := ['\n'] + q;
    assert p + ['\n'] + q == p + y;
    LinesConcat(p, y);
    assert y[0] == '\n' && y[1..] == q;
    assert Lines(y) == [[]] + Lines(q);
    assert p + [] == p;
  }

  /** Splitting a join of newline-free lines gives the lines back. */
  lemma {:induction false} LinesUnlines(lines: seq<string>)
    requires |lines| >= 1
    requires forall i :: 0 <= i < |lines| ==> '\n' !in lines[i]
    ensures Lines(Unlines(lines)) == lines
    decreases |lines|
  {
    if |lines| == 1 {
      LinesConcat(lines[0], []);
      assert lines[0] + [] == lines[0];
    } else {
      var u := Unlines(lines[1..]);
      LinesUnlines(lines[1..]);
      assert lines[0] + "\n" + u == lines[0] + ("\n" + u);
      assert ("\n" + u)[1..] == u;
      LinesConcat(lines[0], "\n" + u);
      assert ("\n" + u)[0] == '\n';
      assert Lines("\n" + u) == [[]] + Lines(u);
      assert lines[0] + [] == lines[0];
      assert lines == [lines[0]] + lines[1..];
    }
  }
}
