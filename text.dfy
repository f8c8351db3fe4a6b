/** The post-processing the scripts apply to `session.before`: Python's
    `str.splitlines`, `str.strip`, the comprehension that keeps the stripped
    non-blank lines, and the substring tests that select interface lines. */
module Text {

  /** Python's `str.isspace` on one character (the characters `strip()`
      removes), by code point. */
  predicate IsSpace(c: char)
  {
    var n := c as int;
    n == 0x20 || (0x09 <= n <= 0x0D) || (0x1C <= n <= 0x1F) || n == 0x85 || n == 0xA0 ||
    n == 0x1680 || (0x2000 <= n <= 0x200A) || n == 0x2028 || n == 0x2029 ||
    n == 0x202F || n == 0x205F || n == 0x3000
  }

  /** The line boundaries of Python's `str.splitlines` (`\r\n` counts as one). */
  predicate IsBreak(c: char)
  {
    var n := c as int;
    n == 0x0A || n == 0x0B || n == 0x0C || n == 0x0D || (0x1C <= n <= 0x1E) ||
    n == 0x85 || n == 0x2028 || n == 0x2029
  }

  predicate NoBreak(s: string)
  {
    forall i :: 0 <= i < |s| ==> !IsBreak(s[i])
  }

  predicate Blank(s: string)
  {
    forall i :: 0 <= i < |s| ==> IsSpace(s[i])
  }

  /** The index of the first line boundary of `s`, or `|s|` if there is none. */
  function FirstBreak(s: string): (k: nat)
    ensures k <= |s|
  {
    if s == [] || IsBreak(s[0]) then 0 else 1 + FirstBreak(s[1..])
  }

  /** The first line boundary is one, and no boundary comes before it. */
  lemma {:induction false} FirstBreakSpec(s: string)
    ensures var k := FirstBreak(s);
      (forall i :: 0 <= i < k ==> !IsBreak(s[i])) && (k < |s| ==> IsBreak(s[k]))
  {
    if s != [] && !IsBreak(s[0]) {
      FirstBreakSpec(s[1..]);
    }
  }

  /** The length of the line terminator at index k. */
  function TerminatorLength(s: string, k: nat): nat
    requires k < |s|
  {
    if s[k] == '\r' && k + 1 < |s| && s[k + 1] == '\n' then 2 else 1
  }

  /** Python's `s.splitlines()`: the lines of `s` without their terminators;
      a final terminator does not start an empty last line. */
  function SplitLines(s: string): seq<string>
    decreases |s|
  {
    if s == [] then []
    else
      var k := FirstBreak(s);
      if k == |s| then [s]
      else [s[..k]] + SplitLines(s[k + TerminatorLength(s, k)..])
  }

  /** `s` with every line-boundary character removed. */
  function RemoveBreaks(s: string): string
  {
    if s == [] then [] else (if IsBreak(s[0]) then [] else [s[0]]) + RemoveBreaks(s[1..])
  }

  function Concat(lines: seq<string>): string
  {
    if lines == [] then [] else lines[0] + Concat(lines[1..])
  }

  lemma {:induction false} RemoveBreaksAppend(a: string, b: string)
    ensures RemoveBreaks(a + b) == RemoveBreaks(a) + RemoveBreaks(b)
  {
    if a != [] {
      var head := if IsBreak(a[0]) then [] else [a[0]];
      calc {
        RemoveBreaks(a + b);
        { assert (a + b)[0] == a[0]; assert (a + b)[1..] == a[1..] + b; }
        head + RemoveBreaks(a[1..] + b);
        { RemoveBreaksAppend(a[1..], b); }
        head + (RemoveBreaks(a[1..]) + RemoveBreaks(b));
        (head + RemoveBreaks(a[1..])) + RemoveBreaks(b);
        RemoveBreaks(a) + RemoveBreaks(b);
      }
    } else {
      assert a + b == b;
    }
  }

  lemma {:induction false} RemoveBreaksOf(s: string)
    ensures NoBreak(s) ==> RemoveBreaks(s) == s
  {
    if s != [] {
      RemoveBreaksOf(s[1..]);
      assert s == [s[0]] + s[1..];
    }
  }

  lemma TerminatorRemoved(s: string, k: nat)
    requires k < |s| && IsBreak(s[k])
    ensures RemoveBreaks(s[k..k + TerminatorLength(s, k)]) == []
  {
    var t := s[k..k + TerminatorLength(s, k)];
    assert RemoveBreaks(t) == RemoveBreaks(t[1..]);
    if |t| == 2 {
      assert IsBreak(t[1]) by { assert t[1] == '\n'; }
      assert RemoveBreaks(t[1..]) == RemoveBreaks(t[1..][1..]);
      assert t[1..][1..] == [];
    } else {
      assert t[1..] == [];
    }
  }

  /** No line `splitlines` returns contains a line boundary. */
  lemma {:induction false} SplitLinesNoBreak(s: string)
    ensures forall i :: 0 <= i < |SplitLines(s)| ==> NoBreak(SplitLines(s)[i])
    decreases |s|
  {
    if s != [] {
      var k := FirstBreak(s);
      FirstBreakSpec(s);
      if k == |s| {
        assert s[..k] == s;
      } else {
        var rest := s[k + TerminatorLength(s, k)..];
        SplitLinesNoBreak(rest);
        assert NoBreak(s[..k]);
        var lines := [s[..k]] + SplitLines(rest);
        assert SplitLines(s) == lines;
        forall i | 0 <= i < |lines| ensures NoBreak(lines[i]) {
          if i > 0 { assert lines[i] == SplitLines(rest)[i - 1]; }
        }
      }
    }
  }

  /** Removing line boundaries from `a + (t + b)` where `a` has none and
      `t` has nothing else. */
  lemma RemoveBreaksJoin(a: string, t: string, b: string)
    requires RemoveBreaks(a) == a && RemoveBreaks(t) == []
    ensures RemoveBreaks(a + (t + b)) == a + RemoveBreaks(b)
  {
    calc {
      RemoveBreaks(a + (t + b));
      { RemoveBreaksAppend(a, t + b); }
      RemoveBreaks(a) + RemoveBreaks(t + b);
      { RemoveBreaksAppend(t, b); }
      a + ([] + RemoveBreaks(b));
      { assert [] + RemoveBreaks(b) == RemoveBreaks(b); }
      a + RemoveBreaks(b);
    }
  }

  lemma SliceThree(s: string, i: nat, j: nat)
    requires i <= j <= |s|
    ensures s[..i] + (s[i..j] + s[j..]) == s
  {
    assert s[i..j] + s[j..] == s[i..];
  }

  lemma ConcatCons(line: string, lines: seq<string>)
    ensures Concat([line] + lines) == line + Concat(lines)
  {
    assert ([line] + lines)[1..] == lines;
  }

  /** `splitlines` loses nothing but the terminators: the lines put together
      are `s` without its line-boundary characters. */
  lemma {:induction false} SplitLinesLossless(s: string)
    ensures Concat(SplitLines(s)) == RemoveBreaks(s)
    decreases |s|
  {
    if s != [] {
      var k := FirstBreak(s);
      if k == |s| {
        assert s[..k] == s;
        FirstBreakSpec(s);
        RemoveBreaksOf(s);
        ConcatCons(s, []);
      } else {
        SplitLinesLossless(s[k + TerminatorLength(s, k)..]);
        SplitLinesLosslessStep(s, k);
      }
    }
  }

  /** The step of SplitLinesLossless past the first line terminator. */
  lemma SplitLinesLosslessStep(s: string, k: nat)
    requires k == FirstBreak(s) < |s|
    requires var rest := s[k + TerminatorLength(s, k)..];
      Concat(SplitLines(rest)) == RemoveBreaks(rest)
    ensures Concat(SplitLines(s)) == RemoveBreaks(s)
  {
    var line, rest := s[..k], s[k + TerminatorLength(s, k)..];
    SplitLinesFirstLine(s, k);
    ConcatCons(line, SplitLines(rest));
    RemoveBreaksFirstLine(s, k);
  }

  lemma SplitLinesFirstLine(s: string, k: nat)
    requires k == FirstBreak(s) < |s|
    ensures SplitLines(s) == [s[..k]] + SplitLines(s[k + TerminatorLength(s, k)..])
  {
  }

  /** Removing the line boundaries of `s` keeps its first line and drops
      that line's terminator. */
  lemma RemoveBreaksFirstLine(s: string, k: nat)
    requires k == FirstBreak(s) < |s|
    ensures RemoveBreaks(s) == s[..k] + RemoveBreaks(s[k + TerminatorLength(s, k)..])
  {
    var n := TerminatorLength(s, k);
    FirstBreakSpec(s);
    TerminatorRemoved(s, k);
    assert NoBreak(s[..k]);
    RemoveBreaksOf(s[..k]);
    SliceThree(s, k, k + n);
    RemoveBreaksJoin(s[..k], s[k..k + n], s[k + n..]);
  }

  /** An empty string has no lines; any other string has at least one. */
  lemma SplitLinesEmpty(s: string)
    ensures SplitLines(s) == [] <==> s == ""
  {
  }

  /** FirstBreak finds the boundary at k when the k characters before it
      are no boundaries. */
  lemma {:induction false} FirstBreakAt(s: string, k: nat)
    requires k <= |s| && forall i :: 0 <= i < k ==> !IsBreak(s[i])
    requires k < |s| ==> IsBreak(s[k])
    ensures FirstBreak(s) == k
  {
    if k > 0 {
      forall i | 0 <= i < k - 1 ensures !IsBreak(s[1..][i]) {
        assert s[1..][i] == s[i + 1];
      }
      FirstBreakAt(s[1..], k - 1);
    }
  }

  /** Text without a line boundary is one line. */
  lemma SplitLinesOneLine(a: string)
    requires NoBreak(a) && a != ""
    ensures SplitLines(a) == [a]
  {
    FirstBreakAt(a, |a|);
    assert a[..|a|] == a;
  }

  /** A line ended by a one-character boundary (any boundary but a `\r`
      followed by `\n`) is cut there, and the boundary dropped. */
  lemma SplitLinesBreak(a: string, c: char, b: string)
    requires NoBreak(a) && IsBreak(c) && !(c == '\r' && b != [] && b[0] == '\n')
    ensures SplitLines(a + [c] + b) == [a] + SplitLines(b)
  {
    var s := a + [c] + b;
    forall i | 0 <= i < |a| ensures !IsBreak(s[i]) {
      assert s[i] == a[i];
    }
    assert s[|a|] == c;
    FirstBreakAt(s, |a|);
    if |a| + 1 < |s| {
      assert s[|a| + 1] == b[0];
    }
    assert TerminatorLength(s, |a|) == 1;
    assert s[..|a|] == a;
    assert s[|a| + 1..] == b;
  }

  /** A line ended by `\r\n` is cut there, and both characters dropped. */
  lemma SplitLinesCrLf(a: string, b: string)
    requires NoBreak(a)
    ensures SplitLines(a + "\r\n" + b) == [a] + SplitLines(b)
  {
    var s := a + "\r\n" + b;
    forall i | 0 <= i < |a| ensures !IsBreak(s[i]) {
      assert s[i] == a[i];
    }
    assert s[|a|] == '\r' && s[|a| + 1] == '\n';
    FirstBreakAt(s, |a|);
    assert TerminatorLength(s, |a|) == 2;
    assert s[..|a|] == a;
    assert s[|a| + 2..] == b;
  }

  /** Python's `s.lstrip()`. */
  function StripLeft(s: string): string
  {
    if s != [] && IsSpace(s[0]) then StripLeft(s[1..]) else s
  }

  /** Python's `s.rstrip()`. */
  function StripRight(s: string): string
  {
    if s != [] && IsSpace(s[|s| - 1]) then StripRight(s[..|s| - 1]) else s
  }

  /** Python's `s.strip()`. */
  function Strip(s: string): string
  {
    StripRight(StripLeft(s))
  }

  /** `lstrip` returns a suffix, cuts away only whitespace, and leaves no
      leading whitespace. */
  lemma {:induction false} StripLeftSpec(s: string)
    ensures var r := StripLeft(s);
      |r| <= |s| && r == s[|s| - |r|..] &&
      (forall j :: 0 <= j < |s| - |r| ==> IsSpace(s[j])) &&
      (r != [] ==> !IsSpace(r[0]))
  {
    if s != [] && IsSpace(s[0]) {
      var t := s[1..];
      StripLeftSpec(t);
      var r := StripLeft(t);
      assert t[|t| - |r|..] == s[|s| - |r|..];
      forall j | 0 < j < |s| - |r| ensures IsSpace(s[j]) {
        assert s[j] == t[j - 1];
      }
    } else {
      assert s[0..] == s;
    }
  }

  /** `rstrip` returns a prefix, cuts away only whitespace, and leaves no
      trailing whitespace. */
  lemma {:induction false} StripRightSpec(s: string)
    ensures var r := StripRight(s);
      |r| <= |s| && r == s[..|r|] &&
      (forall j :: |r| <= j < |s| ==> IsSpace(s[j])) &&
      (r != [] ==> !IsSpace(r[|r| - 1]))
  {
    if s != [] && IsSpace(s[|s| - 1]) {
      var t := s[..|s| - 1];
      StripRightSpec(t);
      var r := StripRight(t);
      assert t[..|r|] == s[..|r|];
      forall j | |r| <= j < |s| - 1 ensures IsSpace(s[j]) {
        assert s[j] == t[j];
      }
    } else {
      assert s[..|s|] == s;
    }
  }

  /** `strip()` removes exactly the leading and trailing whitespace: the
      result is a slice of `s`, everything cut away is whitespace, and the
      result neither starts nor ends with whitespace. */
  lemma StripSpec(s: string)
    ensures exists i, j :: 0 <= i <= j <= |s| && Strip(s) == s[i..j] &&
                           Blank(s[..i]) && Blank(s[j..])
    ensures Strip(s) != "" ==> !IsSpace(Strip(s)[0]) && !IsSpace(Strip(s)[|Strip(s)| - 1])
  {
    var l := StripLeft(s);
    var r := StripRight(l);
    StripLeftSpec(s);
    StripRightSpec(l);
    var i := |s| - |l|;
    var j := i + |r|;
    assert Strip(s) == r;
    assert r == s[i..j] by {
      assert r == l[..|r|];
    }
    forall x | 0 <= x < |s| - j ensures IsSpace(s[j..][x]) {
      assert s[j..][x] == l[|r| + x];
    }
    forall x | 0 <= x < i ensures IsSpace(s[..i][x]) {
      assert s[..i][x] == s[x];
    }
    if r != "" {
      assert r[0] == l[0];
    }
  }

  /** A line strips to nothing iff it is all whitespace. */
  lemma StripEmpty(s: string)
    ensures Strip(s) == "" <==> Blank(s)
  {
    var l := StripLeft(s);
    var r := StripRight(l);
    StripLeftSpec(s);
    StripRightSpec(l);
    var i := |s| - |l|;
    assert Strip(s) == r;
    if r == "" {
      assert l == [];
    } else {
      assert r[0] == l[0];
      assert l[0] == s[i];
    }
  }

  /** Stripping twice changes nothing. */
  lemma StripIdempotent(s: string)
    ensures Strip(Strip(s)) == Strip(s)
  {
    var r := Strip(s);
    StripLeftSpec(s);
    StripRightSpec(StripLeft(s));
    assert StripLeft(r) == r;
    assert StripRight(r) == r;
  }

  /** The comprehension `[line.strip() for line in lines if line.strip()]`. */
  function Filtered(lines: seq<string>): seq<string>
  {
    if lines == [] then []
    else (if Strip(lines[0]) != "" then [Strip(lines[0])] else []) + Filtered(lines[1..])
  }

  lemma {:induction false} FilteredAppend(a: seq<string>, b: seq<string>)
    ensures Filtered(a + b) == Filtered(a) + Filtered(b)
  {
    if a == [] {
      assert a + b == b;
    } else {
      var head := if Strip(a[0]) != "" then [Strip(a[0])] else [];
      calc {
        Filtered(a + b);
        { assert (a + b)[0] == a[0]; assert (a + b)[1..] == a[1..] + b; }
        head + Filtered(a[1..] + b);
        { FilteredAppend(a[1..], b); }
        head + (Filtered(a[1..]) + Filtered(b));
        (head + Filtered(a[1..])) + Filtered(b);
        Filtered(a) + Filtered(b);
      }
    }
  }

  /** "No ... configuration found" is printed iff this holds: the filtered
      list is empty exactly when every line is all whitespace. */
  lemma {:induction false} FilteredEmpty(lines: seq<string>)
    ensures Filtered(lines) == [] <==> forall i :: 0 <= i < |lines| ==> Blank(lines[i])
  {
    if lines != [] {
      var rest := lines[1..];
      FilteredEmpty(rest);
      StripEmpty(lines[0]);
      var head := if Strip(lines[0]) != "" then [Strip(lines[0])] else [];
      assert Filtered(lines) == head + Filtered(rest);
      assert Filtered(lines) == [] <==> head == [] && Filtered(rest) == [] by {
        assert |Filtered(lines)| == |head| + |Filtered(rest)|;
      }
      assert (forall i :: 0 <= i < |lines| ==> Blank(lines[i])) <==>
             Blank(lines[0]) && forall i :: 0 <= i < |rest| ==> Blank(rest[i]) by {
        if Blank(lines[0]) && forall i :: 0 <= i < |rest| ==> Blank(rest[i]) {
          forall i | 0 <= i < |lines| ensures Blank(lines[i]) {
            if i > 0 { assert lines[i] == rest[i - 1]; }
          }
        }
        if forall i :: 0 <= i < |lines| ==> Blank(lines[i]) {
          forall i | 0 <= i < |rest| ensures Blank(rest[i]) {
            assert rest[i] == lines[i + 1];
          }
        }
      }
    }
  }

  /** Some line of `lines` strips to `x`. */
  predicate StripsTo(lines: seq<string>, x: string)
  {
    exists i :: 0 <= i < |lines| && Strip(lines[i]) == x
  }

  /** Everything kept is the stripped form of some non-blank line. */
  lemma {:induction false} FilteredSound(lines: seq<string>)
    ensures forall x :: x in Filtered(lines) ==>
              x != "" && StripsTo(lines, x)
  {
    if lines != [] {
      var rest := lines[1..];
      FilteredSound(rest);
      var head := if Strip(lines[0]) != "" then [Strip(lines[0])] else [];
      assert Filtered(lines) == head + Filtered(rest);
      forall x | x in Filtered(lines)
        ensures x != "" && StripsTo(lines, x)
      {
        if x in head {
          assert Strip(lines[0]) == x;
        } else {
          assert x in Filtered(rest);
          assert StripsTo(rest, x);
          var i :| 0 <= i < |rest| && Strip(rest[i]) == x;
          assert Strip(lines[i + 1]) == x;
        }
      }
    }
  }

  /** Every line that does not strip to nothing is kept, stripped. */
  lemma {:induction false} FilteredComplete(lines: seq<string>)
    ensures forall i :: 0 <= i < |lines| && Strip(lines[i]) != "" ==> Strip(lines[i]) in Filtered(lines)
  {
    if lines != [] {
      var rest := lines[1..];
      FilteredComplete(rest);
      var head := if Strip(lines[0]) != "" then [Strip(lines[0])] else [];
      assert Filtered(lines) == head + Filtered(rest);
      forall i | 0 <= i < |lines| && Strip(lines[i]) != ""
        ensures Strip(lines[i]) in Filtered(lines)
      {
        if i > 0 {
          assert lines[i] == rest[i - 1];
        }
      }
    }
  }

  /** A single line is kept once, stripped, unless it is blank. With
      FilteredAppend this fixes the filtered list of every input. */
  lemma FilteredOne(x: string)
    ensures Filtered([x]) == if Strip(x) != "" then [Strip(x)] else []
  {
    assert [x][1..] == [];
  }

  /** Filtering never adds a line. */
  lemma {:induction false} FilteredLength(lines: seq<string>)
    ensures |Filtered(lines)| <= |lines|
  {
    if lines != [] {
      FilteredLength(lines[1..]);
    }
  }

  /** The members of the filtered list are the stripped non-blank lines and
      nothing else, and there are no more of them than input lines. */
  lemma FilteredMembers(lines: seq<string>)
    ensures forall x :: x in Filtered(lines) <==>
              x != "" && StripsTo(lines, x)
    ensures |Filtered(lines)| <= |lines|
  {
    FilteredSound(lines);
    FilteredComplete(lines);
    FilteredLength(lines);
  }

  /** Every kept line is non-empty and already stripped. */
  lemma {:induction false} FilteredClean(lines: seq<string>)
    ensures forall k :: 0 <= k < |Filtered(lines)| ==>
              Filtered(lines)[k] != "" && Strip(Filtered(lines)[k]) == Filtered(lines)[k]
  {
    if lines != [] {
      var rest := Filtered(lines[1..]);
      FilteredClean(lines[1..]);
      var x := Strip(lines[0]);
      if x != "" {
        StripIdempotent(lines[0]);
        var f := [x] + rest;
        assert Filtered(lines) == f;
        forall k | 0 <= k < |f| ensures f[k] != "" && Strip(f[k]) == f[k] {
          if k > 0 {
            assert f[k] == rest[k - 1];
          }
        }
      } else {
        assert Filtered(lines) == rest;
      }
    }
  }

  /** Filtering an already filtered list changes nothing. */
  lemma {:induction false} FilteredIdempotent(lines: seq<string>)
    ensures Filtered(Filtered(lines)) == Filtered(lines)
  {
    if lines != [] {
      var rest := Filtered(lines[1..]);
      FilteredIdempotent(lines[1..]);
      var x := Strip(lines[0]);
      if x != "" {
        StripIdempotent(lines[0]);
        assert Filtered(lines) == [x] + rest;
        assert ([x] + rest)[0] == x;
        assert ([x] + rest)[1..] == rest;
        assert Filtered([x] + rest) == [x] + Filtered(rest);
      } else {
        assert Filtered(lines) == rest;
      }
    }
  }

  /** Python's `sub in s` on strings. */
  function Contains(s: string, sub: string): bool
  {
    sub <= s || (s != [] && Contains(s[1..], sub))
  }

  lemma {:induction false} ContainsSpec(s: string, sub: string)
    ensures Contains(s, sub) <==> exists i :: 0 <= i <= |s| - |sub| && sub <= s[i..]
  {
    if s == [] {
      if Contains(s, sub) {
        assert sub <= s[0..];
      }
    } else {
      ContainsSpec(s[1..], sub);
      if sub <= s {
        assert s[0..] == s;
      } else if Contains(s[1..], sub) {
        var i :| 0 <= i <= |s[1..]| - |sub| && sub <= s[1..][i..];
        assert s[1..][i..] == s[i + 1..];
      }
      if exists i :: 0 <= i <= |s| - |sub| && sub <= s[i..] {
        var i :| 0 <= i <= |s| - |sub| && sub <= s[i..];
        if i > 0 {
          assert s[1..][i - 1..] == s[i..];
        }
      }
    }
  }

  /** The test of the interface listing: the line mentions "Interface", "up"
      or "down" anywhere (so "Group" or "downlink" qualify too). */
  predicate Relevant(line: string)
  {
    Contains(line, "Interface") || Contains(line, "up") || Contains(line, "down")
  }

  /** The lines the interface listing prints, in order. */
  function InterfaceLines(lines: seq<string>): seq<string>
  {
    if lines == [] then []
    else (if Relevant(lines[0]) then [lines[0]] else []) + InterfaceLines(lines[1..])
  }

  lemma {:induction false} InterfaceLinesAppend(a: seq<string>, b: seq<string>)
    ensures InterfaceLines(a + b) == InterfaceLines(a) + InterfaceLines(b)
  {
    if a == [] {
      assert a + b == b;
    } else {
      var head := if Relevant(a[0]) then [a[0]] else [];
      calc {
        InterfaceLines(a + b);
        { assert (a + b)[0] == a[0]; assert (a + b)[1..] == a[1..] + b; }
        head + InterfaceLines(a[1..] + b);
        { InterfaceLinesAppend(a[1..], b); }
        head + (InterfaceLines(a[1..]) + InterfaceLines(b));
        (head + InterfaceLines(a[1..])) + InterfaceLines(b);
        InterfaceLines(a) + InterfaceLines(b);
      }
    }
  }

  /** The listing keeps a line iff it is relevant, drops nothing else, and
      never adds a line. */
  lemma {:induction false} InterfaceLinesSpec(lines: seq<string>)
    ensures forall x :: x in InterfaceLines(lines) <==> x in lines && Relevant(x)
    ensures |InterfaceLines(lines)| <= |lines|
  {
    if lines != [] {
      InterfaceLinesSpec(lines[1..]);
      assert lines == [lines[0]] + lines[1..];
    }
  }

  /** The loop `for line in filtered_lines: if ...: print(line)`, returning
      the printed lines. */
  method SelectInterfaceLines(filtered: seq<string>) returns (printed: seq<string>)
    ensures printed == InterfaceLines(filtered)
  {
    printed := [];
    for i := 0 to |filtered|
      invariant printed == InterfaceLines(filtered[..i])
    {
      var line := filtered[i];
      if Contains(line, "Interface") || Contains(line, "up") || Contains(line, "down") {
        printed := printed + [line];
      }
      assert filtered[..i + 1] == filtered[..i] + [line];
      InterfaceLinesAppend(filtered[..i], [line]);
      assert [line][1..] == [];
    }
    assert filtered[..|filtered|] == filtered;
  }
}
