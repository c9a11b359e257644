/**
 * The string primitives the site relies on, restricted to ASCII:
 * `toLowerCase`, `trim`, `includes`, `startsWith`, `split` on one character
 * and `join`.
 */
module Text {

  /** ASCII `toLowerCase` of one character: only 'A'..'Z' change. */
  function LowerChar(c: char): (d: char)
    ensures 'A' <= c <= 'Z' ==> 'a' <= d <= 'z' && d as int == c as int + 32
    ensures !('A' <= c <= 'Z') ==> d == c
  {
    if 'A' <= c <= 'Z' then (c as int + 32) as char else c
  }

  /** `s.toLowerCase()`, character by character. */
  function ToLower(s: string): (r: string)
    ensures |r| == |s|
    ensures forall i :: 0 <= i < |s| ==> r[i] == LowerChar(s[i])
  {
    seq(|s|, i requires 0 <= i < |s| => LowerChar(s[i]))
  }

  /** `s.toUpperCase()`, used only to state case-insensitivity. */
  function ToUpper(s: string): (r: string)
    ensures |r| == |s|
    ensures forall i :: 0 <= i < |s| ==> ('a' <= s[i] <= 'z' ==> r[i] as int == s[i] as int - 32)
    ensures forall i :: 0 <= i < |s| ==> (!('a' <= s[i] <= 'z') ==> r[i] == s[i])
  {
    seq(|s|, i requires 0 <= i < |s| => if 'a' <= s[i] <= 'z' then (s[i] as int - 32) as char else s[i])
  }

  /** Two strings that differ at most in the letter case of their characters. */
  predicate EqualIgnoringCase(a: string, b: string) {
    |a| == |b| && forall i :: 0 <= i < |a| ==> LowerChar(a[i]) == LowerChar(b[i])
  }

  /** The ASCII white space that `trim` removes. */
  predicate IsSpace(c: char) {
    c == ' ' || c == '\t' || c == '\n' || c == '\r' || c == '\U{000B}' || c == '\U{000C}'
  }

  predicate AllSpace(s: string) {
    forall i :: 0 <= i < |s| ==> IsSpace(s[i])
  }

  function TrimStart(s: string): (r: string)
    ensures |r| <= |s|
    ensures r == [] || !IsSpace(r[0])
  {
    if s != [] && IsSpace(s[0]) then TrimStart(s[1..]) else s
  }

  function TrimEnd(s: string): (r: string)
    ensures |r| <= |s|
    ensures forall i :: 0 <= i < |r| ==> r[i] == s[i]
    ensures r == [] || !IsSpace(r[|r| - 1])
  {
    if s != [] && IsSpace(s[|s| - 1]) then TrimEnd(s[..|s| - 1]) else s
  }

  /** `s.trim()`: what is left starts and ends with something other than white space. */
  function Trim(s: string): (r: string)
    ensures |r| <= |s|
    ensures r == [] || (!IsSpace(r[0]) && !IsSpace(r[|r| - 1]))
  {
    TrimEnd(TrimStart(s))
  }

  /** What `TrimStart` removes is a run of white space at the front. */
  lemma {:induction false} TrimStartSuffix(s: string)
    ensures var r := TrimStart(s); r == s[|s| - |r|..] && AllSpace(s[..|s| - |r|])
    decreases |s|
  {
    if s != [] && IsSpace(s[0]) {
      var r := TrimStart(s[1..]);
      TrimStartSuffix(s[1..]);
      assert s[1..][|s| - 1 - |r|..] == s[|s| - |r|..];
      forall i | 0 <= i < |s| - |r| ensures IsSpace(s[i]) {
        if i > 0 { assert s[i] == s[1..][..|s| - 1 - |r|][i - 1]; }
      }
    }
  }

  /** What `TrimEnd` removes is a run of white space at the back. */
  lemma {:induction false} TrimEndPrefix(s: string)
    ensures var r := TrimEnd(s); r == s[..|r|] && AllSpace(s[|r|..])
    decreases |s|
  {
    if s != [] && IsSpace(s[|s| - 1]) {
      var s' := s[..|s| - 1];
      var r := TrimEnd(s');
      TrimEndPrefix(s');
      assert s'[..|r|] == s[..|r|];
      forall i | |r| <= i < |s| ensures IsSpace(s[i]) {
        if i < |s| - 1 { assert s[i] == s'[|r|..][i - |r|]; }
      }
    }
  }

  /** `Trim(s)` is a piece of `s` with only white space around it. */
  lemma TrimInfix(s: string)
    ensures var r := Trim(s);
      exists i :: 0 <= i <= |s| - |r| && s[i..i + |r|] == r && AllSpace(s[..i]) && AllSpace(s[i + |r|..])
  {
    var t := TrimStart(s);
    var r := TrimEnd(t);
    var i := |s| - |t|;
    TrimStartSuffix(s);
    TrimEndPrefix(t);
    assert s[i..i + |r|] == r;
    assert s[i + |r|..] == t[|r|..];
  }

  /** `s.trim()` is empty exactly when `s` is all white space. */
  lemma TrimEmptyIffAllSpace(s: string)
    ensures Trim(s) == "" <==> AllSpace(s)
  {
    var t := TrimStart(s);
    TrimStartSuffix(s);
    TrimEndPrefix(t);
    if AllSpace(s) {
      TrimStartOfSpace(s);
    }
  }

  /** A string with no white space at either end is its own trim. */
  lemma TrimUnpadded(s: string)
    requires s == [] || (!IsSpace(s[0]) && !IsSpace(s[|s| - 1]))
    ensures Trim(s) == s
  {
    assert TrimStart(s) == s;
    assert TrimEnd(s) == s;
  }

  /** `needle` occurs in `hay` starting at position `i`. */
  predicate OccursAt(hay: string, needle: string, i: int) {
    0 <= i <= |hay| - |needle| && hay[i..i + |needle|] == needle
  }

  /** `hay.includes(needle)`. */
  predicate Contains(hay: string, needle: string) {
    exists i :: 0 <= i <= |hay| - |needle| && OccursAt(hay, needle, i)
  }

  /** `s.startsWith(prefix)`. */
  predicate StartsWith(s: string, prefix: string) {
    |prefix| <= |s| && s[..|prefix|] == prefix
  }

  /** `xs.join(sep)`. */
  function Join(sep: string, xs: seq<string>): string
    decreases |xs|
  {
    if |xs| == 0 then ""
    else if |xs| == 1 then xs[0]
    else xs[0] + sep + Join(sep, xs[1..])
  }

  /** `s.split(c)` for a one-character separator: never empty, and no piece holds `c`. */
  function Split(c: char, s: string): (r: seq<string>)
    ensures |r| >= 1
    ensures forall k :: 0 <= k < |r| ==> c !in r[k]
  {
    if s == [] then [""]
    else if s[0] == c then [""] + Split(c, s[1..])
    else
      var rest := Split(c, s[1..]);
      [[s[0]] + rest[0]] + rest[1..]
  }

  // ---------------------------------------------------------------- lemmas

  /** Upper-casing and then lower-casing is the same as lower-casing. */
  lemma ToLowerOfToUpper(s: string)
    ensures EqualIgnoringCase(ToUpper(s), s)
  {
    forall i | 0 <= i < |s| ensures LowerChar(ToUpper(s)[i]) == LowerChar(s[i]) {
      if 'a' <= s[i] <= 'z' {
        assert 'A' <= ToUpper(s)[i] <= 'Z';
        assert LowerChar(ToUpper(s)[i]) as int == s[i] as int;
      }
    }
  }

  lemma EqualIgnoringCaseIffSameLower(a: string, b: string)
    ensures EqualIgnoringCase(a, b) <==> ToLower(a) == ToLower(b)
  {
    if ToLower(a) == ToLower(b) {
      forall i | 0 <= i < |a| ensures LowerChar(a[i]) == LowerChar(b[i]) {
        assert ToLower(a)[i] == ToLower(b)[i];
      }
    }
  }

  /** A character and its lower-case form are white space together. */
  lemma LowerCharKeepsSpace(c: char, d: char)
    requires LowerChar(c) == LowerChar(d)
    ensures IsSpace(c) <==> IsSpace(d)
  {
  }

  lemma {:induction false} TrimStartIgnoringCase(a: string, b: string)
    requires EqualIgnoringCase(a, b)
    ensures |TrimStart(a)| == |TrimStart(b)| && EqualIgnoringCase(TrimStart(a), TrimStart(b))
    decreases |a|
  {
    if a != [] {
      LowerCharKeepsSpace(a[0], b[0]);
      if IsSpace(a[0]) {
        assert EqualIgnoringCase(a[1..], b[1..]) by {
          forall i | 0 <= i < |a| - 1 ensures LowerChar(a[1..][i]) == LowerChar(b[1..][i]) {
            assert a[1..][i] == a[i + 1] && b[1..][i] == b[i + 1];
          }
        }
        TrimStartIgnoringCase(a[1..], b[1..]);
      }
    }
  }

  lemma {:induction false} TrimEndIgnoringCase(a: string, b: string)
    requires EqualIgnoringCase(a, b)
    ensures |TrimEnd(a)| == |TrimEnd(b)| && EqualIgnoringCase(TrimEnd(a), TrimEnd(b))
    decreases |a|
  {
    if a != [] {
      LowerCharKeepsSpace(a[|a| - 1], b[|b| - 1]);
      if IsSpace(a[|a| - 1]) {
        var a', b' := a[..|a| - 1], b[..|b| - 1];
        assert EqualIgnoringCase(a', b') by {
          forall i | 0 <= i < |a'| ensures LowerChar(a'[i]) == LowerChar(b'[i]) {
            assert a'[i] == a[i] && b'[i] == b[i];
          }
        }
        TrimEndIgnoringCase(a', b');
      }
    }
  }

  /** Strings that differ only in letter case trim to strings that differ only in letter case. */
  lemma TrimIgnoringCase(a: string, b: string)
    requires EqualIgnoringCase(a, b)
    ensures ToLower(Trim(a)) == ToLower(Trim(b))
  {
    TrimStartIgnoringCase(a, b);
    TrimEndIgnoringCase(TrimStart(a), TrimStart(b));
    EqualIgnoringCaseIffSameLower(Trim(a), Trim(b));
  }

  lemma {:induction false} TrimStartAfterSpace(p: string, x: string)
    requires AllSpace(p)
    ensures TrimStart(p + x) == TrimStart(x)
    decreases |p|
  {
    if p != [] {
      assert (p + x)[1..] == p[1..] + x;
      TrimStartAfterSpace(p[1..], x);
    } else {
      assert p + x == x;
    }
  }

  lemma {:induction false} TrimEndBeforeSpace(x: string, q: string)
    requires AllSpace(q)
    ensures TrimEnd(x + q) == TrimEnd(x)
    decreases |q|
  {
    if q != [] {
      var q' := q[..|q| - 1];
      assert (x + q)[..|x + q| - 1] == x + q';
      TrimEndBeforeSpace(x, q');
    } else {
      assert x + q == x;
    }
  }

  lemma {:induction false} TrimStartKeepsTail(s: string, q: string)
    requires !AllSpace(s)
    ensures TrimStart(s + q) == TrimStart(s) + q
    decreases |s|
  {
    assert s != [];
    assert (s + q)[0] == s[0];
    if IsSpace(s[0]) {
      assert (s + q)[1..] == s[1..] + q;
      assert !AllSpace(s[1..]) by {
        var i :| 0 <= i < |s| && !IsSpace(s[i]);
        assert s[1..][i - 1] == s[i];
      }
      TrimStartKeepsTail(s[1..], q);
    }
  }

  lemma {:induction false} TrimStartOfSpace(s: string)
    requires AllSpace(s)
    ensures TrimStart(s) == []
    decreases |s|
  {
    if s != [] {
      assert AllSpace(s[1..]) by {
        forall i | 0 <= i < |s| - 1 ensures IsSpace(s[1..][i]) { assert s[1..][i] == s[i + 1]; }
      }
      TrimStartOfSpace(s[1..]);
    }
  }

  /** White space around a string does not change what it trims to. */
  lemma TrimIgnoresPadding(p: string, s: string, q: string)
    requires AllSpace(p) && AllSpace(q)
    ensures Trim(p + s + q) == Trim(s)
  {
    assert p + s + q == p + (s + q);
    TrimStartAfterSpace(p, s + q);
    if AllSpace(s) {
      assert AllSpace(s + q) by {
        forall i | 0 <= i < |s + q| ensures IsSpace((s + q)[i]) {
          if i < |s| { assert (s + q)[i] == s[i]; } else { assert (s + q)[i] == q[i - |s|]; }
        }
      }
      TrimStartOfSpace(s + q);
      TrimStartOfSpace(s);
    } else {
      TrimStartKeepsTail(s, q);
      TrimEndBeforeSpace(TrimStart(s), q);
    }
  }

  /** `includes` is transitive. */
  lemma ContainsTransitive(s: string, t: string, u: string)
    requires Contains(s, t) && Contains(t, u)
    ensures Contains(s, u)
  {
    var i :| 0 <= i <= |s| - |t| && OccursAt(s, t, i);
    var j :| 0 <= j <= |t| - |u| && OccursAt(t, u, j);
    assert s[i..i + |t|] == t;
    assert s[i + j..i + j + |u|] == u by {
      forall k | 0 <= k < |u| ensures s[i + j..i + j + |u|][k] == u[k] {
        assert u[k] == t[j + k] == s[i..i + |t|][j + k] == s[i + j + k];
      }
    }
    assert OccursAt(s, u, i + j);
  }

  /** Every string includes the empty string. */
  lemma ContainsEmpty(s: string)
    ensures Contains(s, "")
  {
    assert OccursAt(s, "", 0);
  }

  /** Lower-casing both sides keeps an occurrence. */
  lemma ContainsToLower(s: string, t: string)
    requires Contains(s, t)
    ensures Contains(ToLower(s), ToLower(t))
  {
    var i :| 0 <= i <= |s| - |t| && OccursAt(s, t, i);
    assert ToLower(s)[i..i + |t|] == ToLower(t) by {
      forall k | 0 <= k < |t| ensures ToLower(s)[i..i + |t|][k] == ToLower(t)[k] {
        assert s[i + k] == s[i..i + |t|][k] == t[k];
      }
    }
    assert OccursAt(ToLower(s), ToLower(t), i);
  }

  /** Joining the pieces of a split with the separator gives back the string. */
  lemma {:induction false} JoinSplit(c: char, s: string)
    ensures Join([c], Split(c, s)) == s
    decreases |s|
  {
    if s == [] {
    } else if s[0] == c {
      JoinSplit(c, s[1..]);
      var rest := Split(c, s[1..]);
      if |rest| == 1 {
        assert Join([c], [""] + rest) == "" + [c] + Join([c], rest);
      } else {
        assert ([""] + rest)[1..] == rest;
      }
    } else {
      JoinSplit(c, s[1..]);
      var rest := Split(c, s[1..]);
      var r := [[s[0]] + rest[0]] + rest[1..];
      if |rest| == 1 {
        assert Join([c], r) == [s[0]] + rest[0];
      } else {
        assert r[1..] == rest[1..];
        assert Join([c], rest) == rest[0] + [c] + Join([c], rest[1..]);
      }
    }
  }

  /** Splitting a join, whose pieces do not hold the separator, gives back the pieces. */
  lemma {:induction false} SplitJoin(c: char, xs: seq<string>)
    requires |xs| >= 1
    requires forall k :: 0 <= k < |xs| ==> c !in xs[k]
    ensures Split(c, Join([c], xs)) == xs
    decreases |xs|
  {
    if |xs| == 1 {
      SplitPiece(c, xs[0], "");
      assert xs[0] + [c] + "" == xs[0] + [c];
      SplitNoSeparator(c, xs[0]);
    } else {
      SplitJoin(c, xs[1..]);
      SplitPiece(c, xs[0], Join([c], xs[1..]));
      assert [xs[0]] + xs[1..] == xs;
    }
  }

  /** A string without the separator splits into itself. */
  lemma {:induction false} SplitNoSeparator(c: char, s: string)
    requires c !in s
    ensures Split(c, s) == [s]
    decreases |s|
  {
    if s != [] {
      assert c !in s[1..] by {
        forall k | 0 <= k < |s| - 1 ensures s[1..][k] != c { assert s[1..][k] == s[k + 1]; }
      }
      SplitNoSeparator(c, s[1..]);
      assert [s[0]] + s[1..] == s;
    }
  }

  /** A leading piece without the separator comes off as the first element of the split. */
  lemma {:induction false} SplitPiece(c: char, a: string, rest: string)
    requires c !in a
    ensures Split(c, a + [c] + rest) == [a] + Split(c, rest)
    decreases |a|
  {
    var s := a + [c] + rest;
    if a == [] {
      assert s[0] == c && s[1..] == rest;
    } else {
      assert s[0] == a[0];
      assert s[1..] == a[1..] + [c] + rest;
      assert c !in a[1..] by {
        forall k | 0 <= k < |a| - 1 ensures a[1..][k] != c { assert a[1..][k] == a[k + 1]; }
      }
      SplitPiece(c, a[1..], rest);
      assert [a[0]] + a[1..] == a;
    }
  }

  /** Appending one piece to a non-empty join appends the separator and the piece. */
  lemma {:induction false} JoinAppend(sep: string, xs: seq<string>, x: string)
    requires |xs| >= 1
    ensures Join(sep, xs + [x]) == Join(sep, xs) + sep + x
    decreases |xs|
  {
    if |xs| == 1 {
      assert (xs + [x])[1..] == [x];
    } else {
      assert (xs + [x])[1..] == xs[1..] + [x];
      JoinAppend(sep, xs[1..], x);
    }
  }
}
