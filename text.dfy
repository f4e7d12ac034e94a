/**
 * ASCII models of the Python string operations the pipeline relies on:
 * whitespace tests, strip, lower, split, join, substring search,
 * non-overlapping counting, decimal rendering and the blank-line collapse.
 */
module Text {
  import opened Wrappers

  /** str.isspace on ASCII: space, \t \n \v \f \r and the separators \x1c..\x1f. */
  predicate IsSpace(c: char) {
    c == ' ' || (9 <= c as int <= 13) || (28 <= c as int <= 31)
  }

  predicate IsAlnumChar(c: char) {
    'a' <= c <= 'z' || 'A' <= c <= 'Z' || '0' <= c <= '9'
  }

  /** str.isalnum: at least one character and every character a letter or digit. */
  predicate IsAlnum(s: string) {
    |s| > 0 && forall i | 0 <= i < |s| :: IsAlnumChar(s[i])
  }

  predicate IsUpper(c: char) { 'A' <= c <= 'Z' }

  function LowerChar(c: char): (r: char)
    ensures !IsUpper(r)
    ensures !IsUpper(c) ==> r == c
    ensures IsUpper(c) ==> r as int == c as int + 32
  {
    if IsUpper(c) then (c as int + 32) as char else c
  }

  /** str.lower on ASCII. */
  function Lower(s: string): (r: string)
    ensures |r| == |s|
    ensures forall i | 0 <= i < |r| :: !IsUpper(r[i])
    ensures forall i | 0 <= i < |s| :: r[i] == LowerChar(s[i])
  {
    seq(|s|, i requires 0 <= i < |s| => LowerChar(s[i]))
  }

  lemma LowerAppend(a: string, b: string)
    ensures Lower(a + b) == Lower(a) + Lower(b)
  {
    assert forall i | 0 <= i < |a + b| :: Lower(a + b)[i] == (Lower(a) + Lower(b))[i];
  }

  /** Text without upper-case letters is its own lower-case form. */
  lemma LowerFixed(s: string)
    requires forall i | 0 <= i < |s| :: !IsUpper(s[i])
    ensures Lower(s) == s
  {
  }

  /** A character that is not an upper-case letter appears in Lower(s) only where it appeared in s. */
  lemma LowerKeepsAbsence(s: string, c: char)
    requires !IsUpper(c) && c !in s
    requires 'a' <= c <= 'z' ==> (c as int - 32) as char !in s
    ensures c !in Lower(s)
  {
    forall i | 0 <= i < |s|
      ensures Lower(s)[i] != c
    {
      if IsUpper(s[i]) && 'a' <= c <= 'z' {
        assert s[i] != (c as int - 32) as char;
      }
    }
  }

  function Min(a: nat, b: nat): nat { if a <= b then a else b }

  /** a is what remains of b after deleting some of its elements. */
  predicate Subsequence<T(==)>(a: seq<T>, b: seq<T>)
    decreases |b|
  {
    a == [] || (b != [] && ((a[0] == b[0] && Subsequence(a[1..], b[1..])) || Subsequence(a, b[1..])))
  }

  /** Python's xs[:n]. */
  function Take<T>(xs: seq<T>, n: nat): (r: seq<T>)
    ensures |r| == Min(n, |xs|)
    ensures r == xs[..|r|]
  {
    xs[..Min(n, |xs|)]
  }

  // ---------------------------------------------------------------- strip

  /** The first index at or after i that does not hold whitespace, or |s|. */
  function SkipSpace(s: string, i: nat): (j: nat)
    requires i <= |s|
    ensures i <= j <= |s|
    ensures forall k | i <= k < j :: IsSpace(s[k])
    ensures j == |s| || !IsSpace(s[j])
    decreases |s| - i
  {
    if i < |s| && IsSpace(s[i]) then SkipSpace(s, i + 1) else i
  }

  /** One past the last non-whitespace character in s[lo..j], or lo when there is none. */
  function TrimEnd(s: string, lo: nat, j: nat): (e: nat)
    requires lo <= j <= |s|
    ensures lo <= e <= j
    ensures forall k | e <= k < j :: IsSpace(s[k])
    ensures e == lo || !IsSpace(s[e - 1])
    decreases j
  {
    if j > lo && IsSpace(s[j - 1]) then TrimEnd(s, lo, j - 1) else j
  }

  /** str.strip(): removes leading and trailing whitespace. */
  function Strip(s: string): (r: string)
    ensures r == [] <==> forall k | 0 <= k < |s| :: IsSpace(s[k])
    ensures r != [] ==> !IsSpace(r[0]) && !IsSpace(r[|r| - 1])
    ensures forall c | c in r :: c in s
  {
    var a := SkipSpace(s, 0);
    var e := TrimEnd(s, a, |s|);
    assert forall k | a <= k < e :: s[a..e][k - a] == s[k];
    s[a..e]
  }

  /**
   * str.strip() cuts only whitespace, and only from the ends: the result is an infix
   * of s with whitespace alone before and after it. With Strip's own ensures (no
   * whitespace at either end of a non-empty result) this fixes the result.
   */
  lemma StripInfix(s: string)
    ensures exists a, e | 0 <= a <= e <= |s| ::
              Strip(s) == s[a..e] && (forall k | 0 <= k < a :: IsSpace(s[k])) && (forall k | e <= k < |s| :: IsSpace(s[k]))
  {
    var a := SkipSpace(s, 0);
    var e := TrimEnd(s, a, |s|);
    assert Strip(s) == s[a..e];
  }

  // ---------------------------------------------------------------- split and join

  /** str.split(sep) for a one-character separator: always at least one piece. */
  function Split(s: string, sep: char): (r: seq<string>)
    ensures |r| >= 1
    ensures forall k | 0 <= k < |r| :: sep !in r[k]
    decreases |s|
  {
    if s == [] then [[]]
    else
      var rest := Split(s[1..], sep);
      if s[0] == sep then [[]] + rest else [[s[0]] + rest[0]] + rest[1..]
  }

  lemma {:induction false} SplitAbsent(s: string, sep: char, c: char)
    requires c !in s
    ensures forall k | 0 <= k < |Split(s, sep)| :: c !in Split(s, sep)[k]
    decreases |s|
  {
    if s != [] {
      assert c !in s[1..] by { assert forall k | 0 <= k < |s[1..]| :: s[1..][k] == s[k + 1]; }
      SplitAbsent(s[1..], sep, c);
    }
  }

  /** sep.join(xs). */
  function Join(sep: string, xs: seq<string>): string
  {
    if xs == [] then []
    else if |xs| == 1 then xs[0]
    else xs[0] + sep + Join(sep, xs[1..])
  }

  lemma {:induction false} SplitPlain(a: string, sep: char)
    requires sep !in a
    ensures Split(a, sep) == [a]
    decreases |a|
  {
    if a != [] {
      SplitPlain(a[1..], sep);
      assert [a[0]] + a[1..] == a;
    }
  }

  lemma {:induction false} SplitAtSeparator(a: string, sep: char, b: string)
    requires sep !in a
    ensures Split(a + [sep] + b, sep) == [a] + Split(b, sep)
    decreases |a|
  {
    if a == [] {
      assert a + [sep] + b == [sep] + b;
      assert ([sep] + b)[1..] == b;
    } else {
      assert (a + [sep] + b)[1..] == a[1..] + [sep] + b;
      SplitAtSeparator(a[1..], sep, b);
      assert [a[0]] + a[1..] == a;
    }
  }

  /** Splitting a join of separator-free pieces gives the pieces back. */
  lemma {:induction false} SplitJoin(xs: seq<string>, sep: char)
    requires |xs| >= 1
    requires forall k | 0 <= k < |xs| :: sep !in xs[k]
    ensures Split(Join([sep], xs), sep) == xs
    decreases |xs|
  {
    if |xs| == 1 {
      SplitPlain(xs[0], sep);
    } else {
      SplitJoin(xs[1..], sep);
      SplitAtSeparator(xs[0], sep, Join([sep], xs[1..]));
      assert [xs[0]] + xs[1..] == xs;
    }
  }

  /** Joining a concatenation puts one separator between the two joins. */
  lemma {:induction false} JoinAppend(sep: string, a: seq<string>, b: seq<string>)
    requires a != [] && b != []
    ensures Join(sep, a + b) == Join(sep, a) + sep + Join(sep, b)
    decreases |a|
  {
    if |a| == 1 {
      assert (a + b)[1..] == b;
    } else {
      assert (a + b)[1..] == a[1..] + b;
      JoinAppend(sep, a[1..], b);
    }
  }

  /** A join starts with the first piece's first character and ends with the last piece's last one. */
  lemma {:induction false} JoinEnds(sep: string, xs: seq<string>)
    requires xs != [] && forall k | 0 <= k < |xs| :: xs[k] != []
    ensures Join(sep, xs) != []
    ensures Join(sep, xs)[0] == xs[0][0]
    ensures Join(sep, xs)[|Join(sep, xs)| - 1] == xs[|xs| - 1][|xs[|xs| - 1]| - 1]
    decreases |xs|
  {
    if |xs| > 1 {
      JoinEnds(sep, xs[1..]);
    }
  }

  /** A character absent from the separator and every piece is absent from the join. */
  lemma {:induction false} JoinAbsent(c: char, sep: string, xs: seq<string>)
    requires c !in sep && forall k | 0 <= k < |xs| :: c !in xs[k]
    ensures c !in Join(sep, xs)
    decreases |xs|
  {
    if |xs| > 1 {
      JoinAbsent(c, sep, xs[1..]);
    }
  }

  /** Length of the leading run of non-whitespace characters. */
  function WordLen(s: string): (n: nat)
    ensures n <= |s|
    ensures forall k | 0 <= k < n :: !IsSpace(s[k])
    ensures n == |s| || IsSpace(s[n])
  {
    if s == [] || IsSpace(s[0]) then 0 else 1 + WordLen(s[1..])
  }

  /** str.split() with no argument: the maximal runs of non-whitespace characters. */
  function Words(s: string): (ws: seq<string>)
    ensures forall k | 0 <= k < |ws| :: |ws[k]| > 0
    ensures forall k, i | 0 <= k < |ws| && 0 <= i < |ws[k]| :: !IsSpace(ws[k][i])
    decreases |s|
  {
    if s == [] then []
    else if IsSpace(s[0]) then Words(s[1..])
    else
      var n := WordLen(s);
      [s[..n]] + Words(s[n..])
  }

  /** A space-free text is one word. */
  lemma WordsOfWord(s: string)
    requires s != [] && forall k | 0 <= k < |s| :: !IsSpace(s[k])
    ensures Words(s) == [s]
  {
    assert WordLen(s) == |s|;
    assert s[..|s|] == s && s[|s|..] == [];
  }

  /** A leading space starts no word. */
  lemma WordsAfterSpace(c: char, s: string)
    requires IsSpace(c)
    ensures Words([c] + s) == Words(s)
  {
    assert ([c] + s)[1..] == s;
  }

  // ---------------------------------------------------------------- search and count

  predicate OccursAt(s: string, p: string, i: nat) {
    i + |p| <= |s| && s[i..i + |p|] == p
  }

  /** Python's `p in s`. */
  predicate Contains(s: string, p: string) {
    exists i | 0 <= i <= |s| :: OccursAt(s, p, i)
  }

  /** The leftmost occurrence of p at or after i. */
  function FindFrom(s: string, p: string, i: nat): (r: Option<nat>)
    ensures r.Some? ==> i <= r.value && OccursAt(s, p, r.value)
    ensures r.Some? ==> forall j | i <= j < r.value :: !OccursAt(s, p, j)
    ensures r.None? ==> forall j | i <= j :: !OccursAt(s, p, j)
    decreases |s| - i
  {
    if i + |p| > |s| then None
    else if OccursAt(s, p, i) then Some(i)
    else FindFrom(s, p, i + 1)
  }

  lemma OccursInfix(a: string, b: string, c: string)
    ensures OccursAt(a + b + c, b, |a|)
    ensures Contains(a + b + c, b)
  {
    assert (a + b + c)[|a|..|a| + |b|] == b;
    assert OccursAt(a + b + c, b, |a|);
  }

  /** Non-overlapping left-to-right count of p from index i (str.count, re.findall of a literal). */
  function CountFrom(s: string, p: string, i: nat): nat
    requires |p| > 0
    decreases |s| - i
  {
    if i + |p| > |s| then 0
    else if OccursAt(s, p, i) then 1 + CountFrom(s, p, i + |p|)
    else CountFrom(s, p, i + 1)
  }

  function Count(s: string, p: string): nat
    requires |p| > 0
  {
    CountFrom(s, p, 0)
  }

  lemma {:induction false} CountShift(x: string, y: string, p: string, j: nat)
    requires |p| > 0
    ensures CountFrom(x + y, p, |x| + j) == CountFrom(y, p, j)
    decreases |y| - j
  {
    if |x| + j + |p| <= |x + y| {
      assert (x + y)[|x| + j..|x| + j + |p|] == y[j..j + |p|];
      if OccursAt(y, p, j) {
        CountShift(x, y, p, j + |p|);
      } else {
        CountShift(x, y, p, j + 1);
      }
    }
  }

  /** No occurrence of p straddles a character outside it: one at i lies wholly in a. */
  lemma OccursBeforeSeparator(a: string, c: char, b: string, p: string, i: nat)
    requires c !in p && i <= |a|
    ensures OccursAt(a + [c] + b, p, i) <==> OccursAt(a, p, i)
  {
    var s := a + [c] + b;
    if OccursAt(s, p, i) {
      assert forall k | i <= k < i + |p| :: s[k] == p[k - i];
      assert s[|a|] == c;
      assert i + |p| <= |a|;
      assert s[i..i + |p|] == a[i..i + |p|];
    }
    if OccursAt(a, p, i) {
      assert s[i..i + |p|] == a[i..i + |p|];
    }
  }

  lemma {:induction false} CountSeparatedFrom(a: string, c: char, b: string, p: string, i: nat)
    requires |p| > 0 && c !in p && i <= |a| + 1
    ensures CountFrom(a + [c] + b, p, i) == CountFrom(a, p, i) + Count(b, p)
    decreases |a| + 1 - i
  {
    var s := a + [c] + b;
    if i == |a| + 1 {
      assert s == (a + [c]) + b;
      CountShift(a + [c], b, p, 0);
    } else if i + |p| > |s| {
      assert |b| < |p| && Count(b, p) == 0;
    } else {
      OccursBeforeSeparator(a, c, b, p, i);
      if OccursAt(s, p, i) {
        CountSeparatedFrom(a, c, b, p, i + |p|);
      } else {
        CountSeparatedFrom(a, c, b, p, i + 1);
      }
    }
  }

  /** A character outside p splits the count into the counts on either side of it. */
  lemma CountSeparated(a: string, c: char, b: string, p: string)
    requires |p| > 0 && c !in p
    ensures Count(a + [c] + b, p) == Count(a, p) + Count(b, p)
  {
    CountSeparatedFrom(a, c, b, p, 0);
  }

  lemma CountSelf(p: string)
    requires |p| > 0
    ensures Count(p, p) == 1
  {
    assert p[0..|p|] == p;
    assert CountFrom(p, p, |p|) == 0;
  }

  /** A pattern that contains a character missing from s does not occur in s. */
  lemma AbsentChar(s: string, p: string, k: nat)
    requires k < |p| && p[k] !in s
    ensures !Contains(s, p)
  {
    forall i | 0 <= i <= |s|
      ensures !OccursAt(s, p, i)
    {
      if i + |p| <= |s| {
        assert s[i..i + |p|][k] == s[i + k];
      }
    }
  }

  /** A pattern longer than the text does not occur in it. */
  lemma ShortAbsent(s: string, p: string)
    requires |s| < |p|
    ensures !Contains(s, p)
  {
  }

  lemma CountZero(s: string, p: string, i: nat)
    requires |p| > 0 && !Contains(s, p)
    ensures CountFrom(s, p, i) == 0
    decreases |s| - i
  {
    if i + |p| <= |s| {
      CountZero(s, p, i + 1);
    }
  }

  /** The count splits at a junction that no occurrence can straddle. */
  lemma CountConcat(a: string, b: string, p: string)
    requires |p| > 0
    requires a == [] || b == [] || a[|a| - 1] !in p || b[0] !in p
    ensures Count(a + b, p) == Count(a, p) + Count(b, p)
  {
    if a == [] {
      assert a + b == b;
    } else if b == [] {
      assert a + b == a;
    } else if a[|a| - 1] !in p {
      var init := a[..|a| - 1];
      assert a + b == init + [a[|a| - 1]] + b;
      assert a == init + [a[|a| - 1]] + [];
      CountSeparated(init, a[|a| - 1], b, p);
      CountSeparated(init, a[|a| - 1], [], p);
    } else {
      var tail := b[1..];
      assert a + b == a + [b[0]] + tail;
      assert b == [] + [b[0]] + tail;
      CountSeparated(a, b[0], tail, p);
      CountSeparated([], b[0], tail, p);
    }
  }

  /** A pattern with a character missing from s is counted zero times. */
  lemma CountAbsent(s: string, p: string, k: nat)
    requires k < |p| && p[k] !in s
    ensures Count(s, p) == 0
  {
    AbsentChar(s, p, k);
    CountZero(s, p, 0);
  }

  /** A count of zero from i leaves no occurrence at or after i. */
  lemma {:induction false} CountZeroAbsent(s: string, p: string, i: nat, j: nat)
    requires |p| > 0 && CountFrom(s, p, i) == 0 && i <= j
    ensures !OccursAt(s, p, j)
    decreases |s| - i
  {
    if i + |p| <= |s| && i < j {
      CountZeroAbsent(s, p, i + 1, j);
    }
  }

  // ---------------------------------------------------------------- numbers and lines

  function DigitChar(d: nat): (c: char)
    requires d < 10
    ensures '0' <= c <= '9'
  {
    ('0' as int + d) as char
  }

  /** str(n) for a natural number. */
  function NatToString(n: nat): (r: string)
    ensures |r| >= 1
    ensures forall k | 0 <= k < |r| :: '0' <= r[k] <= '9'
    decreases n
  {
    if n < 10 then [DigitChar(n)] else NatToString(n / 10) + [DigitChar(n % 10)]
  }

  /** len(s.split("\n")). */
  function LineCount(s: string): (n: nat)
    ensures n >= 1
  {
    |Split(s, '\n')|
  }

  // ---------------------------------------------------------------- blank-line collapse

  function NewlineRun(s: string): (n: nat)
    ensures n <= |s|
    ensures forall k | 0 <= k < n :: s[k] == '\n'
    ensures n == |s| || s[n] != '\n'
  {
    if s != [] && s[0] == '\n' then 1 + NewlineRun(s[1..]) else 0
  }

  /** re.sub(r"\n\n\n+", "\n\n", s): every run of three or more newlines becomes exactly two. */
  function Collapse(s: string): string
    decreases |s|
  {
    if s == [] then []
    else if s[0] != '\n' then [s[0]] + Collapse(s[1..])
    else
      var n := NewlineRun(s);
      (if n >= 3 then "\n\n" else s[..n]) + Collapse(s[n..])
  }

  predicate NoTriple(s: string) {
    forall i | 0 <= i && i + 2 < |s| :: !(s[i] == '\n' && s[i + 1] == '\n' && s[i + 2] == '\n')
  }

  /** s with every newline removed. */
  function DropNewlines(s: string): string
  {
    if s == [] then [] else (if s[0] == '\n' then [] else [s[0]]) + DropNewlines(s[1..])
  }

  lemma {:induction false} DropNewlinesAppend(a: string, b: string)
    ensures DropNewlines(a + b) == DropNewlines(a) + DropNewlines(b)
    decreases |a|
  {
    if a == [] {
      assert a + b == b;
    } else {
      assert (a + b)[0] == a[0];
      assert (a + b)[1..] == a[1..] + b;
      DropNewlinesAppend(a[1..], b);
      var h: string := if a[0] == '\n' then [] else [a[0]];
      calc {
        DropNewlines(a + b);
        h + DropNewlines((a + b)[1..]);
        h + (DropNewlines(a[1..]) + DropNewlines(b));
        (h + DropNewlines(a[1..])) + DropNewlines(b);
      }
    }
  }

  lemma {:induction false} DropNewlinesOfRun(s: string)
    requires forall k | 0 <= k < |s| :: s[k] == '\n'
    ensures DropNewlines(s) == []
    decreases |s|
  {
    if s != [] {
      DropNewlinesOfRun(s[1..]);
    }
  }

  /** The run length is the unique n with newlines before it and none at it. */
  lemma {:induction false} NewlineRunUnique(s: string, n: nat)
    requires n <= |s|
    requires forall k | 0 <= k < n :: s[k] == '\n'
    requires n == |s| || s[n] != '\n'
    ensures NewlineRun(s) == n
    decreases n
  {
    if n > 0 {
      NewlineRunUnique(s[1..], n - 1);
    }
  }

  lemma NewlineRunAppend(a: string, b: string)
    requires exists k | 0 <= k < |a| :: a[k] != '\n'
    ensures NewlineRun(a + b) == NewlineRun(a)
  {
    var n := NewlineRun(a);
    assert n < |a|;
    NewlineRunUnique(a + b, n);
  }

  lemma NewlineRunAll(a: string, b: string)
    requires forall k | 0 <= k < |a| :: a[k] == '\n'
    requires b == [] || b[0] != '\n'
    ensures NewlineRun(a + b) == |a|
  {
    NewlineRunUnique(a + b, |a|);
  }

  /** One unfolding of Collapse at a leading non-newline, on a and on a + b. */
  lemma CollapseCons(a: string, b: string)
    requires a != [] && a[0] != '\n'
    ensures Collapse(a) == [a[0]] + Collapse(a[1..])
    ensures Collapse(a + b) == [a[0]] + Collapse(a[1..] + b)
  {
    assert (a + b)[0] == a[0];
    assert (a + b)[1..] == a[1..] + b;
  }

  /** One unfolding of Collapse at a leading run of newlines that ends inside a. */
  lemma CollapseRun(a: string, b: string) returns (n: nat, r: string)
    requires a != [] && a[0] == '\n' && exists k | 0 <= k < |a| :: a[k] != '\n'
    ensures 0 < n < |a|
    ensures Collapse(a) == r + Collapse(a[n..])
    ensures Collapse(a + b) == r + Collapse(a[n..] + b)
  {
    NewlineRunAppend(a, b);
    n := NewlineRun(a);
    r := if n >= 3 then "\n\n" else a[..n];
    assert (a + b)[..n] == a[..n];
    assert (a + b)[n..] == a[n..] + b;
  }

  /** A text of newlines only, followed by a text that starts otherwise, collapses on its own. */
  lemma CollapseAllRun(a: string, b: string)
    requires a != [] && forall k | 0 <= k < |a| :: a[k] == '\n'
    requires b == [] || b[0] != '\n'
    ensures Collapse(a + b) == Collapse(a) + Collapse(b)
  {
    var r := if |a| >= 3 then "\n\n" else a;
    NewlineRunAll(a, b);
    assert (a + b)[0] == '\n' && (a + b)[..|a|] == a && (a + b)[|a|..] == b;
    assert Collapse(a + b) == r + Collapse(b);
    NewlineRunAll(a, []);
    assert a + [] == a && a[|a|..] == [];
    assert Collapse(a) == r + Collapse([]);
  }

  lemma AppendAssoc(x: string, y: string, z: string)
    ensures x + (y + z) == (x + y) + z
  {
  }

  /** The non-newline case of CollapseSplit, given the split of the rest. */
  lemma CollapseConsStep(a: string, b: string)
    requires a != [] && a[0] != '\n'
    requires Collapse(a[1..] + b) == Collapse(a[1..]) + Collapse(b)
    ensures Collapse(a + b) == Collapse(a) + Collapse(b)
  {
    CollapseCons(a, b);
    AppendAssoc([a[0]], Collapse(a[1..]), Collapse(b));
  }

  /** The newline-run case of CollapseSplit, given the split after the run. */
  lemma CollapseRunStep(a: string, b: string, n: nat, r: string)
    requires n <= |a|
    requires Collapse(a) == r + Collapse(a[n..]) && Collapse(a + b) == r + Collapse(a[n..] + b)
    requires Collapse(a[n..] + b) == Collapse(a[n..]) + Collapse(b)
    ensures Collapse(a + b) == Collapse(a) + Collapse(b)
  {
    AppendAssoc(r, Collapse(a[n..]), Collapse(b));
  }

  /** Collapsing distributes over a split point that is not inside a run of newlines. */
  lemma {:induction false} CollapseSplit(a: string, b: string)
    requires a == [] || b == [] || a[|a| - 1] != '\n' || b[0] != '\n'
    ensures Collapse(a + b) == Collapse(a) + Collapse(b)
    decreases |a|, 1
  {
    if a == [] {
      assert a + b == b;
    } else if b == [] {
      assert a + b == a;
    } else if a[0] != '\n' {
      CollapseSplitText(a, b);
    } else if exists k | 0 <= k < |a| :: a[k] != '\n' {
      CollapseSplitRun(a, b);
    } else {
      assert a[|a| - 1] == '\n';
      CollapseAllRun(a, b);
    }
  }

  /** CollapseSplit when the left part starts with a character that is kept. */
  lemma {:induction false} CollapseSplitText(a: string, b: string)
    requires a != [] && b != [] && a[0] != '\n' && (a[|a| - 1] != '\n' || b[0] != '\n')
    ensures Collapse(a + b) == Collapse(a) + Collapse(b)
    decreases |a|, 0
  {
    CollapseSplit(a[1..], b);
    CollapseConsStep(a, b);
  }

  /** CollapseSplit when the left part starts with a run of newlines that ends inside it. */
  lemma {:induction false} CollapseSplitRun(a: string, b: string)
    requires a != [] && b != [] && a[0] == '\n' && (a[|a| - 1] != '\n' || b[0] != '\n')
    requires exists k | 0 <= k < |a| :: a[k] != '\n'
    ensures Collapse(a + b) == Collapse(a) + Collapse(b)
    decreases |a|, 0
  {
    var n, r := CollapseRun(a, b);
    assert a[n..][|a[n..]| - 1] == a[|a| - 1];
    CollapseSplit(a[n..], b);
    CollapseRunStep(a, b, n, r);
  }

  lemma {:induction false} CollapseFirst(s: string)
    requires s != []
    ensures Collapse(s) != [] && Collapse(s)[0] == s[0]
  {
  }

  lemma {:induction false} CollapseLast(s: string)
    requires s != []
    ensures Collapse(s) != [] && Collapse(s)[|Collapse(s)| - 1] == s[|s| - 1]
    decreases |s|
  {
    if s[0] != '\n' {
      var r := Collapse(s[1..]);
      assert Collapse(s) == [s[0]] + r;
      if |s| > 1 {
        CollapseLast(s[1..]);
        assert s[1..][|s| - 2] == s[|s| - 1];
        assert ([s[0]] + r)[|r|] == r[|r| - 1];
      }
    } else {
      var n := NewlineRun(s);
      var pre := if n >= 3 then "\n\n" else s[..n];
      var r := Collapse(s[n..]);
      assert Collapse(s) == pre + r;
      if n < |s| {
        CollapseLast(s[n..]);
        assert s[n..][|s| - n - 1] == s[|s| - 1];
        assert (pre + r)[|pre| + |r| - 1] == r[|r| - 1];
      } else {
        assert r == [];
        assert pre + r == pre;
      }
    }
  }

  /** The collapsed text never holds three newlines in a row. */
  lemma {:induction false} CollapseNoTriple(s: string)
    ensures NoTriple(Collapse(s))
    decreases |s|
  {
    if s != [] {
      if s[0] != '\n' {
        CollapseNoTriple(s[1..]);
      } else {
        var n := NewlineRun(s);
        var rest := Collapse(s[n..]);
        CollapseNoTriple(s[n..]);
        if n < |s| {
          CollapseFirst(s[n..]);
        }
        var head := if n >= 3 then "\n\n" else s[..n];
        assert |head| <= 2;
        var r := head + rest;
        forall i | 0 <= i && i + 2 < |r|
          ensures !(r[i] == '\n' && r[i + 1] == '\n' && r[i + 2] == '\n')
        {
          if i >= |head| {
            var j := i - |head|;
            assert r[i] == rest[j] && r[i + 1] == rest[j + 1] && r[i + 2] == rest[j + 2];
          } else if i + 1 == |head| {
            assert r[i + 1] == rest[0];
          } else {
            assert r[i + 2] == rest[0];
          }
        }
      }
    }
  }

  /** Text without a triple newline is left unchanged. */
  lemma {:induction false} CollapseFixed(s: string)
    requires NoTriple(s)
    ensures Collapse(s) == s
    decreases |s|
  {
    if s != [] {
      if s[0] != '\n' {
        CollapseFixed(s[1..]);
        assert [s[0]] + s[1..] == s;
      } else {
        var n := NewlineRun(s);
        if |s| >= 3 {
          assert !(s[0] == '\n' && s[1] == '\n' && s[2] == '\n');
        }
        assert n < 3;
        CollapseFixed(s[n..]);
        assert s[..n] + s[n..] == s;
      }
    }
  }

  lemma CollapseIdempotent(s: string)
    ensures Collapse(Collapse(s)) == Collapse(s)
  {
    CollapseNoTriple(s);
    CollapseFixed(Collapse(s));
  }

  /** Collapsing only ever deletes newlines: the other characters survive, in order. */
  lemma {:induction false} CollapseKeepsText(s: string)
    ensures DropNewlines(Collapse(s)) == DropNewlines(s)
    decreases |s|
  {
    if s != [] {
      if s[0] != '\n' {
        CollapseKeepsText(s[1..]);
        DropNewlinesAppend([s[0]], Collapse(s[1..]));
      } else {
        var n := NewlineRun(s);
        var head := if n >= 3 then "\n\n" else s[..n];
        CollapseKeepsText(s[n..]);
        DropNewlinesAppend(head, Collapse(s[n..]));
        DropNewlinesOfRun(head);
        DropNewlinesAppend(s[..n], s[n..]);
        DropNewlinesOfRun(s[..n]);
        assert s[..n] + s[n..] == s;
      }
    }
  }

  lemma {:induction false} DropNewlinesChars(s: string, c: char)
    requires c != '\n'
    ensures c in s <==> c in DropNewlines(s)
    decreases |s|
  {
    if s != [] {
      DropNewlinesChars(s[1..], c);
      assert s == [s[0]] + s[1..];
    }
  }

  /** A character other than a newline occurs in the collapsed text only if it occurs in the input. */
  lemma CollapseAbsent(s: string, c: char)
    requires c != '\n' && c !in s
    ensures c !in Collapse(s)
  {
    CollapseKeepsText(s);
    DropNewlinesChars(s, c);
    DropNewlinesChars(Collapse(s), c);
  }

  /** A text without newlines is left as it is. */
  lemma {:induction false} CollapsePlain(s: string)
    requires '\n' !in s
    ensures Collapse(s) == s
    decreases |s|
  {
    if s != [] {
      assert '\n' !in s[1..] by { assert forall k | 0 <= k < |s[1..]| :: s[1..][k] == s[k + 1]; }
      CollapsePlain(s[1..]);
    }
  }

  /** A blank line before a non-newline character is kept. */
  lemma CollapseBlank(b: string)
    requires b == [] || b[0] != '\n'
    ensures Collapse("\n\n" + b) == "\n\n" + Collapse(b)
  {
    NewlineRunAll("\n\n", b);
    assert ("\n\n" + b)[..2] == "\n\n";
    assert ("\n\n" + b)[2..] == b;
  }

  /** A text with no three consecutive newlines does not contain "\n\n\n". */
  lemma NoTripleNoRun(s: string)
    requires NoTriple(s)
    ensures !Contains(s, "\n\n\n")
  {
    forall i | 0 <= i <= |s| ensures !OccursAt(s, "\n\n\n", i) {
      if i + 3 <= |s| {
        assert s[i..i + 3][0] == s[i] && s[i..i + 3][1] == s[i + 1] && s[i..i + 3][2] == s[i + 2];
      }
    }
  }

  // ---------------------------------------------------------------- stripped pieces

  /** A text that already starts and ends with a non-space character is its own strip. */
  lemma StripFixed(s: string)
    requires s != [] && !IsSpace(s[0]) && !IsSpace(s[|s| - 1])
    ensures Strip(s) == s
  {
    assert SkipSpace(s, 0) == 0;
    assert TrimEnd(s, 0, |s|) == |s|;
    assert s[0..|s|] == s;
  }

  /** One leading space is removed from an otherwise stripped text. */
  lemma StripPadded(c: char, s: string)
    requires IsSpace(c) && s != [] && !IsSpace(s[0]) && !IsSpace(s[|s| - 1])
    ensures Strip([c] + s) == s
  {
    var t := [c] + s;
    assert SkipSpace(t, 1) == 1;
    assert SkipSpace(t, 0) == 1;
    assert TrimEnd(t, 1, |t|) == |t|;
    assert t[1..|t|] == s;
  }

  lemma StripIdempotent(s: string)
    ensures Strip(Strip(s)) == Strip(s)
  {
    if Strip(s) != [] {
      StripFixed(Strip(s));
    } else {
      assert SkipSpace([], 0) == 0;
    }
  }

  /** [t.strip() for t in xs if t.strip()]. */
  function NonBlank(xs: seq<string>): (r: seq<string>)
    ensures |r| <= |xs|
    ensures forall k | 0 <= k < |r| :: r[k] != [] && Strip(r[k]) == r[k]
  {
    if xs == [] then []
    else
      StripIdempotent(xs[0]);
      (if Strip(xs[0]) != [] then [Strip(xs[0])] else []) + NonBlank(xs[1..])
  }

  /** Pieces that are already stripped and non-empty pass through unchanged. */
  lemma {:induction false} NonBlankFixed(xs: seq<string>)
    requires forall k | 0 <= k < |xs| :: xs[k] != [] && Strip(xs[k]) == xs[k]
    ensures NonBlank(xs) == xs
    decreases |xs|
  {
    if xs != [] {
      NonBlankFixed(xs[1..]);
      assert [xs[0]] + xs[1..] == xs;
    }
  }

  lemma {:induction false} NonBlankAbsent(xs: seq<string>, c: char)
    requires forall k | 0 <= k < |xs| :: c !in xs[k]
    ensures forall k | 0 <= k < |NonBlank(xs)| :: c !in NonBlank(xs)[k]
    decreases |xs|
  {
    if xs != [] {
      NonBlankAbsent(xs[1..], c);
    }
  }

  // ---------------------------------------------------------------- split on a marker

  /** str.split(p) for a marker of one or more characters, from index i: non-overlapping, left to right. */
  function SplitOnFrom(s: string, p: string, i: nat): (r: seq<string>)
    requires |p| > 0 && i <= |s|
    ensures |r| >= 1
    decreases |s| - i
  {
    match FindFrom(s, p, i)
    case None => [s[i..]]
    case Some(j) => [s[i..j]] + SplitOnFrom(s, p, j + |p|)
  }

  function SplitOn(s: string, p: string): (r: seq<string>)
    requires |p| > 0
    ensures |r| >= 1
  {
    SplitOnFrom(s, p, 0)
  }

  /** xs[-1]. */
  function Last<T>(xs: seq<T>): T
    requires xs != []
  {
    xs[|xs| - 1]
  }

  /** The first character of p appears nowhere else in p, so two occurrences of p never overlap. */
  predicate UniqueHead(p: string) {
    |p| > 0 && forall k | 0 < k < |p| :: p[k] != p[0]
  }

  lemma NoOverlap(s: string, p: string, i: nat, j: nat)
    requires UniqueHead(p) && OccursAt(s, p, i) && OccursAt(s, p, j) && i < j
    ensures i + |p| <= j
  {
    assert forall k | i <= k < i + |p| :: s[k] == s[i..i + |p|][k - i];
    assert s[j] == s[j..j + |p|][0];
  }

  /** The last piece of SplitOnFrom(s, p, i): the text after the last occurrence from i on. */
  function LastPiece(s: string, p: string, i: nat): string
    requires |p| > 0 && i <= |s|
  {
    Last(SplitOnFrom(s, p, i))
  }

  /** Past an occurrence, the last piece is the one of the rest. */
  lemma LastPieceStep(s: string, p: string, i: nat, j: nat)
    requires |p| > 0 && i <= |s| && FindFrom(s, p, i) == Some(j)
    ensures j + |p| <= |s| && LastPiece(s, p, i) == LastPiece(s, p, j + |p|)
  {
    var rest := SplitOnFrom(s, p, j + |p|);
    assert SplitOnFrom(s, p, i) == [s[i..j]] + rest;
    LastAppend([s[i..j]], rest);
  }

  lemma LastPieceNone(s: string, p: string, i: nat)
    requires |p| > 0 && i <= |s| && FindFrom(s, p, i).None?
    ensures LastPiece(s, p, i) == s[i..]
  {
  }

  lemma LastAppend<T>(a: seq<T>, b: seq<T>)
    requires b != []
    ensures Last(a + b) == Last(b)
  {
  }

  lemma {:induction false} LastPieceAt(s: string, p: string, i: nat, m: nat)
    requires |p| > 0 && i <= m && OccursAt(s, p, m)
    requires forall j: nat | j < m && OccursAt(s, p, j) :: j + |p| <= m
    requires FindFrom(s, p, m + |p|).None?
    ensures LastPiece(s, p, i) == s[m + |p|..]
    decreases m - i
  {
    var j := FindAtMost(s, p, i, m);
    LastPieceStep(s, p, i, j);
    if j < m {
      FoundOccurs(s, p, i, j);
      assert j + |p| <= m;
      LastPieceAt(s, p, j + |p|, m);
    } else {
      LastPieceNone(s, p, m + |p|);
    }
  }

  lemma FoundOccurs(s: string, p: string, i: nat, j: nat)
    requires |p| > 0 && FindFrom(s, p, i) == Some(j)
    ensures OccursAt(s, p, j)
  {
  }

  /** An occurrence at m means the search from i <= m finds one no later than m. */
  lemma FindAtMost(s: string, p: string, i: nat, m: nat) returns (j: nat)
    requires |p| > 0 && i <= m && OccursAt(s, p, m)
    ensures FindFrom(s, p, i) == Some(j) && i <= j <= m
  {
    j := FindFrom(s, p, i).value;
  }

  lemma SplitOnFromEnd(s: string, p: string, i: nat)
    requires |p| > 0 && i <= |s| && forall j | i <= j :: !OccursAt(s, p, j)
    ensures FindFrom(s, p, i).None?
    ensures SplitOnFrom(s, p, i) == [s[i..]]
  {
  }

  /** The last piece of a split is the text after the last occurrence of the marker. */
  lemma LastPieceAfter(x: string, p: string, y: string)
    requires UniqueHead(p) && !Contains(y, p)
    ensures Last(SplitOn(x + p + y, p)) == y
  {
    var s := x + p + y;
    OccursInfix(x, p, y);
    forall j | |x| + |p| <= j
      ensures !OccursAt(s, p, j)
    {
      if j + |p| <= |s| {
        assert s[j..j + |p|] == y[j - |x| - |p|..j - |x|];
        assert OccursAt(s, p, j) == OccursAt(y, p, j - |x| - |p|);
      }
    }
    SplitOnFromEnd(s, p, |x| + |p|);
    forall j: nat | j < |x| && OccursAt(s, p, j)
      ensures j + |p| <= |x|
    {
      NoOverlap(s, p, j, |x|);
    }
    LastPieceAt(s, p, 0, |x|);
    assert s[|x| + |p|..] == y;
  }

  /** Without the marker the split is the whole text. */
  lemma SplitOnAbsent(s: string, p: string)
    requires |p| > 0 && !Contains(s, p)
    ensures SplitOn(s, p) == [s]
  {
    SplitOnFromEnd(s, p, 0);
    assert s[0..] == s;
  }

  /** An occurrence of p cannot straddle a character that p does not contain. */
  lemma ContainsSeparated(a: string, c: char, b: string, p: string)
    requires c !in p && !Contains(a, p) && !Contains(b, p)
    ensures !Contains(a + [c] + b, p)
  {
    var s := a + [c] + b;
    forall i | 0 <= i <= |s|
      ensures !OccursAt(s, p, i)
    {
      if i + |p| <= |a| {
        assert s[i..i + |p|] == a[i..i + |p|];
        assert OccursAt(s, p, i) == OccursAt(a, p, i);
      } else if i > |a| && i + |p| <= |s| {
        assert s[i..i + |p|] == b[i - |a| - 1..i - |a| - 1 + |p|];
        assert OccursAt(s, p, i) == OccursAt(b, p, i - |a| - 1);
      } else if i + |p| <= |s| {
        assert s[i..i + |p|][|a| - i] == c;
        assert |a| - i < |p| && p[|a| - i] in p;
      }
    }
  }
}
