/**
 * The pieces of Python's `str` and `re` behaviour that the connector relies on:
 * truthiness, `startswith`, `replace`, `split`/`join`, and the greedy `(.*)`
 * capture of a regular expression, whose `.` matches any character except a
 * newline.
 */
module PyText {
  import opened Wrappers

  /** Python truthiness of an optional string: `None` and `""` are both false. */
  predicate Truthy(o: Option<string>) {
    o.Some? && o.value != ""
  }

  /** `s.startswith(p)` */
  predicate StartsWith(s: string, p: string) {
    |p| <= |s| && s[..|p|] == p
  }

  /** `t` occurs in `s` at index `i`. */
  predicate OccursAt(s: string, t: string, i: nat) {
    i + |t| <= |s| && s[i..i + |t|] == t
  }

  /** `t in s` */
  predicate OccursIn(s: string, t: string) {
    exists i: nat | i <= |s| :: OccursAt(s, t, i)
  }

  lemma SliceOfSlice(s: string, i: nat, j: nat, a: nat, b: nat)
    requires i <= j <= |s| && a <= b <= j - i
    ensures s[i..j][a..b] == s[i + a..i + b]
  {
    assert forall k :: 0 <= k < b - a ==> s[i..j][a..b][k] == s[i + a + k];
  }

  lemma NoOccurrenceInTail(s: string, t: string, k: nat)
    requires k <= |s| && !OccursIn(s, t)
    ensures !OccursIn(s[k..], t)
  {
    if i: nat :| OccursAt(s[k..], t, i) {
      assert s[k..][i..i + |t|] == s[k + i..k + i + |t|];
      assert OccursAt(s, t, k + i);
    }
  }

  /**
   * `s.replace(pat, repl)`: every non-overlapping occurrence of `pat`, scanning
   * from the left, is replaced. If `pat` does not occur, `s` comes back as is.
   */
  function ReplaceAll(s: string, pat: string, repl: string): (r: string)
    requires pat != ""
    ensures !OccursIn(s, pat) ==> r == s
    decreases |s|
  {
    if |s| < |pat| then s
    else if s[..|pat|] == pat then
      assert OccursAt(s, pat, 0);
      repl + ReplaceAll(s[|pat|..], pat, repl)
    else
      NoOccurrenceInTailIf(s, pat);
      [s[0]] + ReplaceAll(s[1..], pat, repl)
  }

  lemma NoOccurrenceInTailIf(s: string, t: string)
    requires |s| > 0
    ensures !OccursIn(s, t) ==> !OccursIn(s[1..], t)
  {
    if !OccursIn(s, t) {
      NoOccurrenceInTail(s, t, 1);
    }
  }

  /** `s.split(sep)` for a one-character separator: there is always at least one part. */
  function Split(s: string, sep: char): (parts: seq<string>)
    ensures |parts| >= 1
    ensures sep !in s ==> parts == [s]
    decreases |s|
  {
    if s == [] then [""]
    else if s[0] == sep then [""] + Split(s[1..], sep)
    else
      var rest := Split(s[1..], sep);
      assert [s[0]] + s[1..] == s;
      [[s[0]] + rest[0]] + rest[1..]
  }

  /** `sep.join(parts)`: the parts in order with one separator between neighbours. */
  function Join(parts: seq<string>, sep: char): (r: string)
    ensures parts != [] ==> StartsWith(r, parts[0])
    ensures |parts| >= 2 ==> |r| > |parts[0]| && r[|parts[0]|] == sep
    decreases |parts|
  {
    if parts == [] then ""
    else if |parts| == 1 then parts[0]
    else parts[0] + [sep] + Join(parts[1..], sep)
  }

  /** Joining the parts of a split with the same separator gives the string back. */
  lemma {:induction false} JoinSplit(s: string, sep: char)
    ensures Join(Split(s, sep), sep) == s
    decreases |s|
  {
    if s == [] {
    } else if s[0] == sep {
      JoinSplit(s[1..], sep);
      assert [sep] + s[1..] == s;
    } else {
      var rest := Split(s[1..], sep);
      JoinSplit(s[1..], sep);
      if |rest| == 1 {
        assert [s[0]] + s[1..] == s;
      } else {
        assert Join(rest, sep) == rest[0] + [sep] + Join(rest[1..], sep);
        assert [s[0]] + s[1..] == s;
      }
    }
  }

  /** Splitting the join of separator-free parts gives the parts back. */
  lemma {:induction false} SplitJoin(parts: seq<string>, sep: char)
    requires parts != []
    requires forall i :: 0 <= i < |parts| ==> sep !in parts[i]
    ensures Split(Join(parts, sep), sep) == parts
    decreases |parts|
  {
    if |parts| > 1 {
      SplitJoin(parts[1..], sep);
      SplitAtFirst(parts[0], Join(parts[1..], sep), sep);
      assert [parts[0]] + parts[1..] == parts;
    }
  }

  /** Splitting at the first separator: the text before it is the first part. */
  lemma {:induction false} SplitAtFirst(head: string, tail: string, sep: char)
    requires sep !in head
    ensures Split(head + [sep] + tail, sep) == [head] + Split(tail, sep)
    decreases |head|
  {
    var s := head + [sep] + tail;
    if head == [] {
      assert s[1..] == tail;
    } else {
      assert s[1..] == head[1..] + [sep] + tail;
      SplitAtFirst(head[1..], tail, sep);
      assert [head[0]] + head[1..] == head;
    }
  }

  /**
   * `parts = s.split(sep); first = parts.pop(0); rest = sep.join(parts)`:
   * `first` is the text before the first separator and `rest` the text after
   * it, or `""` when there is no separator.
   */
  function SplitOff(s: string, sep: char): (r: (string, string))
    ensures sep !in s ==> r == (s, "")
    ensures sep in s ==> sep !in r.0 && s == r.0 + [sep] + r.1
  {
    var parts := Split(s, sep);
    SplitOffFacts(s, sep);
    (parts[0], Join(parts[1..], sep))
  }

  lemma SplitOffFacts(s: string, sep: char)
    ensures sep in s ==>
      var parts := Split(s, sep);
      sep !in parts[0] && s == parts[0] + [sep] + Join(parts[1..], sep)
  {
    if sep in s {
      FirstSeparator(s, sep);
    }
  }

  lemma FirstSeparator(s: string, sep: char)
    requires sep in s
    ensures var parts := Split(s, sep);
      sep !in parts[0] && s == parts[0] + [sep] + Join(parts[1..], sep)
  {
    var i := IndexOf(s, sep);
    var head, tail := s[..i], s[i + 1..];
    assert s == head + [sep] + tail;
    SplitAtFirst(head, tail, sep);
    JoinSplit(tail, sep);
  }

  /** The index of the first occurrence of `c` in `s`. */
  function IndexOf(s: string, c: char): (i: nat)
    requires c in s
    ensures i < |s| && s[i] == c && c !in s[..i]
  {
    if s[0] == c then 0 else IndexOf(s[1..], c) + 1
  }

  /**
   * The text of `s` up to its first newline: the stretch a `.*` can cover,
   * since `.` does not match a newline.
   */
  function Line(s: string): (l: string)
    ensures '\n' !in l && StartsWith(s, l)
    ensures |l| < |s| ==> s[|l|] == '\n'
    decreases |s|
  {
    if s == [] || s[0] == '\n' then [] else [s[0]] + Line(s[1..])
  }

  lemma {:induction false} LineOfConcat(u: string, v: string)
    requires '\n' !in u
    ensures Line(u + v) == u + Line(v)
    decreases |u|
  {
    if u != [] {
      assert (u + v)[0] == u[0] != '\n';
      assert (u + v)[1..] == u[1..] + v;
      assert Line(u + v) == [u[0]] + Line(u[1..] + v);
      assert '\n' !in u[1..] by {
        forall k | 0 <= k < |u[1..]| ensures u[1..][k] != '\n' {
          assert u[1..][k] == u[k + 1];
        }
      }
      LineOfConcat(u[1..], v);
      assert [u[0]] + (u[1..] + Line(v)) == u + Line(v);
    } else {
      assert u + v == v;
    }
  }

  lemma LineWithoutNewline(s: string)
    requires '\n' !in s
    ensures Line(s) == s
  {
    LineOfConcat(s, []);
    assert s + [] == s;
  }

  /** One element of a regular expression: a literal character, or an unescaped `.`. */
  datatype Atom = Lit(c: char) | AnyChar

  predicate AtomMatches(a: Atom, c: char) {
    match a
    case Lit(x) => c == x
    case AnyChar => c != '\n'
  }

  /** A pattern written with every `.` escaped: it matches `t` literally. */
  function Escaped(t: string): (pat: seq<Atom>)
    ensures |pat| == |t|
  {
    seq(|t|, i requires 0 <= i < |t| => Lit(t[i]))
  }

  /** A pattern written with its dots unescaped: each `.` matches any character but a newline. */
  function Unescaped(t: string): (pat: seq<Atom>)
    ensures |pat| == |t|
  {
    seq(|t|, i requires 0 <= i < |t| => if t[i] == '.' then AnyChar else Lit(t[i]))
  }

  /** `pat` matches the text of `s` starting at index `j`. */
  predicate MatchesAt(s: string, pat: seq<Atom>, j: nat) {
    j + |pat| <= |s| && forall i :: 0 <= i < |pat| ==> AtomMatches(pat[i], s[j + i])
  }

  /** An escaped pattern matches exactly where its text occurs. */
  lemma EscapedMatchesAt(s: string, t: string, j: nat)
    ensures MatchesAt(s, Escaped(t), j) <==> OccursAt(s, t, j)
  {
    if MatchesAt(s, Escaped(t), j) {
      assert forall i :: 0 <= i < |t| ==> s[j..j + |t|][i] == t[i] by {
        forall i | 0 <= i < |t| ensures s[j..j + |t|][i] == t[i] {
          assert AtomMatches(Escaped(t)[i], s[j + i]);
        }
      }
    }
    if OccursAt(s, t, j) {
      forall i | 0 <= i < |t| ensures AtomMatches(Escaped(t)[i], s[j + i]) {
        assert s[j..j + |t|][i] == s[j + i];
      }
    }
  }

  /**
   * The largest index at most `i` where `pat` matches `s`: where a greedy `.*`
   * followed by `pat` stops after backtracking.
   */
  function LastMatch(s: string, pat: seq<Atom>, i: nat): (r: Option<nat>)
    ensures r.Some? ==> r.value <= i && MatchesAt(s, pat, r.value)
    ensures r.Some? ==> forall j :: r.value < j <= i ==> !MatchesAt(s, pat, j)
    ensures r.None? ==> forall j :: 0 <= j <= i ==> !MatchesAt(s, pat, j)
    decreases i
  {
    if MatchesAt(s, pat, i) then Some(i)
    else if i == 0 then None
    else LastMatch(s, pat, i - 1)
  }

  /**
   * The group of `(.*)pat` matched against the start of `line`, a text without
   * newlines: everything before the last place `pat` matches.
   */
  function GreedyCapture(line: string, pat: seq<Atom>): (r: Option<string>)
    ensures r.Some? ==> StartsWith(line, r.value) && MatchesAt(line, pat, |r.value|)
    ensures r.Some? ==> forall j :: |r.value| < j <= |line| ==> !MatchesAt(line, pat, j)
    ensures r.None? <==> forall j :: 0 <= j <= |line| ==> !MatchesAt(line, pat, j)
  {
    match LastMatch(line, pat, |line|)
    case Some(j) => Some(line[..j])
    case None => None
  }
}
