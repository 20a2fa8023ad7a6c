/**
 * The few Python `str` operations the interpreter relies on, over `seq<char>`.
 * Case mapping and whitespace are the ASCII subset of Python's Unicode rules.
 */
module Text {

  import opened Wrappers

  /** Python's `str.isspace()` restricted to the ASCII range. */
  predicate IsSpace(c: char) {
    c == ' ' || c == '\t' || c == '\n' || c == '\r' || c == '\U{B}' || c == '\U{C}'
    || ('\U{1C}' <= c <= '\U{1F}')
  }

  function UpperChar(c: char): char {
    if 'a' <= c <= 'z' then (c as int - 32) as char else c
  }

  function LowerChar(c: char): char {
    if 'A' <= c <= 'Z' then (c as int + 32) as char else c
  }

  /** `s.upper()`. */
  function Upper(s: string): (r: string)
    ensures |r| == |s|
    ensures forall i :: 0 <= i < |s| ==> r[i] == UpperChar(s[i])
    ensures forall i :: 0 <= i < |r| ==> !('a' <= r[i] <= 'z')
  {
    seq(|s|, i requires 0 <= i < |s| => UpperChar(s[i]))
  }

  /** `s.lower()`. */
  function Lower(s: string): (r: string)
    ensures |r| == |s|
    ensures forall i :: 0 <= i < |s| ==> r[i] == LowerChar(s[i])
    ensures forall i :: 0 <= i < |r| ==> !('A' <= r[i] <= 'Z')
  {
    seq(|s|, i requires 0 <= i < |s| => LowerChar(s[i]))
  }

  /** `s.startswith(p)`. */
  predicate StartsWith(s: string, p: string) {
    |p| <= |s| && s[..|p|] == p
  }

  /** `sub in s`: substring containment. */
  predicate Contains(s: string, sub: string)
    decreases |s|
  {
    StartsWith(s, sub) || (|s| > 0 && Contains(s[1..], sub))
  }

  lemma {:induction false} ContainsAt(s: string, sub: string, i: nat)
    requires i + |sub| <= |s| && s[i..i + |sub|] == sub
    ensures Contains(s, sub)
    decreases i
  {
    if i > 0 {
      assert s[1..][i - 1..i - 1 + |sub|] == sub;
      ContainsAt(s[1..], sub, i - 1);
    }
  }

  /** A position at which `sub` occurs in `s`. */
  lemma {:induction false} ContainsIndex(s: string, sub: string) returns (i: nat)
    requires Contains(s, sub)
    ensures i + |sub| <= |s| && s[i..i + |sub|] == sub
    decreases |s|
  {
    if StartsWith(s, sub) {
      i := 0;
    } else {
      var j := ContainsIndex(s[1..], sub);
      assert s[1..][j..j + |sub|] == s[j + 1..j + 1 + |sub|];
      i := j + 1;
    }
  }

  /** `sub` occurs in `s` at position `i`. */
  predicate OccursAt(s: string, sub: string, i: int) {
    0 <= i && i + |sub| <= |s| && s[i..i + |sub|] == sub
  }

  /** `sub in s`, stated by the position at which it occurs. */
  predicate Occurs(s: string, sub: string) {
    exists i :: 0 <= i <= |s| && OccursAt(s, sub, i)
  }

  /** The two statements of containment agree. */
  lemma OccursContains(s: string, sub: string)
    ensures Occurs(s, sub) <==> Contains(s, sub)
  {
    if Occurs(s, sub) {
      var i :| 0 <= i <= |s| && OccursAt(s, sub, i);
      ContainsAt(s, sub, i);
    }
    if Contains(s, sub) {
      var i := ContainsIndex(s, sub);
      assert OccursAt(s, sub, i);
    }
  }

  /** Containment is transitive. */
  lemma ContainsTrans(s: string, t: string, u: string)
    requires Contains(s, t) && Contains(t, u)
    ensures Contains(s, u)
  {
    var i := ContainsIndex(s, t);
    var j := ContainsIndex(t, u);
    assert t == s[i..i + |t|];
    forall k | 0 <= k < |u|
      ensures s[i + j..i + j + |u|][k] == u[k]
    {
      assert s[i + j..i + j + |u|][k] == s[i + j + k] == t[j + k] == t[j..j + |u|][k];
    }
    assert s[i + j..i + j + |u|] == u;
    ContainsAt(s, u, i + j);
  }

  /** The middle part of a concatenation is contained in it. */
  lemma ContainsInfix(a: string, b: string, c: string)
    ensures Contains(a + b + c, b)
  {
    assert (a + b + c)[|a|..|a| + |b|] == b;
    ContainsAt(a + b + c, b, |a|);
  }

  /** Every string contains itself and the empty string. */
  lemma ContainsSelf(s: string)
    ensures Contains(s, s) && Contains(s, "")
  {
    assert StartsWith(s, s);
  }

  /** The empty string contains no non-empty string. */
  lemma EmptyContainsNothing(sub: string)
    requires |sub| > 0
    ensures !Contains("", sub)
  {
  }

  /**
   * `s.split(sep)` for a one-character separator: the pieces between the
   * separators, always at least one piece.
   */
  function Split(s: string, sep: char): (parts: seq<string>)
    ensures |parts| >= 1
    decreases |s|
  {
    if |s| == 0 then [""]
    else
      var rest := Split(s[1..], sep);
      if s[0] == sep then [""] + rest
      else [[s[0]] + rest[0]] + rest[1..]
  }

  /** `sep.join(parts)`, the inverse of `Split`. */
  function Join(parts: seq<string>, sep: char): string
    decreases |parts|
  {
    if |parts| == 0 then ""
    else if |parts| == 1 then parts[0]
    else parts[0] + [sep] + Join(parts[1..], sep)
  }

  /** `''.join(parts)`. */
  function Concat(parts: seq<string>): string {
    if |parts| == 0 then "" else parts[0] + Concat(parts[1..])
  }

  lemma {:induction false} ConcatAppend(a: seq<string>, b: seq<string>)
    ensures Concat(a + b) == Concat(a) + Concat(b)
    decreases |a|
  {
    if |a| == 0 {
      assert a + b == b;
    } else {
      assert (a + b)[1..] == a[1..] + b;
      ConcatAppend(a[1..], b);
    }
  }

  /** The concatenation around one part. */
  lemma {:induction false} ConcatAround(parts: seq<string>, k: nat)
    requires k < |parts|
    ensures Concat(parts) == Concat(parts[..k]) + parts[k] + Concat(parts[k + 1..])
  {
    var before, after := parts[..k], parts[k + 1..];
    assert parts == before + [parts[k]] + after;
    ConcatAppend(before + [parts[k]], after);
    ConcatAppend(before, [parts[k]]);
    assert Concat([parts[k]]) == parts[k] by {
      assert [parts[k]][1..] == [];
    }
  }

  /** Every part occurs in the concatenation. */
  lemma {:induction false} ConcatContains(parts: seq<string>, k: nat)
    requires k < |parts|
    ensures Contains(Concat(parts), parts[k])
  {
    ConcatAround(parts, k);
    ContainsInfix(Concat(parts[..k]), parts[k], Concat(parts[k + 1..]));
  }

  /** No piece holds the separator, and joining the pieces gives the string back. */
  lemma {:induction false} SplitJoin(s: string, sep: char)
    ensures forall k :: 0 <= k < |Split(s, sep)| ==> sep !in Split(s, sep)[k]
    ensures Join(Split(s, sep), sep) == s
    decreases |s|
  {
    if |s| > 0 {
      SplitJoin(s[1..], sep);
      if s[0] == sep {
        SplitJoinAtSep(s, sep);
      } else {
        SplitJoinInPiece(s, sep);
      }
    }
  }

  /** The step of `SplitJoin` for a string that starts with the separator. */
  lemma {:induction false} SplitJoinAtSep(s: string, sep: char)
    requires |s| > 0 && s[0] == sep
    requires forall k :: 0 <= k < |Split(s[1..], sep)| ==> sep !in Split(s[1..], sep)[k]
    requires Join(Split(s[1..], sep), sep) == s[1..]
    ensures forall k :: 0 <= k < |Split(s, sep)| ==> sep !in Split(s, sep)[k]
    ensures Join(Split(s, sep), sep) == s
  {
    var rest := Split(s[1..], sep);
    assert Split(s, sep) == [""] + rest;
    if |rest| == 1 {
      assert Join(Split(s, sep), sep) == "" + [sep] + rest[0];
    } else {
      assert Join(Split(s, sep), sep) == "" + [sep] + Join(rest, sep);
    }
    assert [s[0]] + s[1..] == s;
  }

  /** The step of `SplitJoin` for a string that starts inside a piece. */
  lemma {:induction false} SplitJoinInPiece(s: string, sep: char)
    requires |s| > 0 && s[0] != sep
    requires forall k :: 0 <= k < |Split(s[1..], sep)| ==> sep !in Split(s[1..], sep)[k]
    requires Join(Split(s[1..], sep), sep) == s[1..]
    ensures forall k :: 0 <= k < |Split(s, sep)| ==> sep !in Split(s, sep)[k]
    ensures Join(Split(s, sep), sep) == s
  {
    var rest := Split(s[1..], sep);
    var parts := Split(s, sep);
    assert parts == [[s[0]] + rest[0]] + rest[1..];
    assert forall k :: 0 <= k < |parts| ==> sep !in parts[k] by {
      assert forall k :: 1 <= k < |parts| ==> parts[k] == rest[k];
    }
    assert Join(parts, sep) == [s[0]] + Join(rest, sep) by {
      JoinFirstPiece(rest, s[0], sep);
    }
    assert [s[0]] + s[1..] == s;
  }

  /** Putting a character before the first piece puts it before the joined text. */
  lemma {:induction false} JoinFirstPiece(rest: seq<string>, c: char, sep: char)
    requires |rest| >= 1
    ensures Join([[c] + rest[0]] + rest[1..], sep) == [c] + Join(rest, sep)
  {
    var parts := [[c] + rest[0]] + rest[1..];
    if |rest| == 1 {
      assert parts == [[c] + rest[0]];
    } else {
      assert parts[1..] == rest[1..];
      assert Join(parts, sep) == [c] + rest[0] + [sep] + Join(rest[1..], sep);
    }
  }

  /** A string without the separator splits into itself. */
  lemma {:induction false} SplitNoSep(s: string, sep: char)
    requires sep !in s
    ensures Split(s, sep) == [s]
    decreases |s|
  {
    if |s| > 0 {
      SplitNoSep(s[1..], sep);
      assert [s[0]] + s[1..] == s;
    }
  }

  /** A string holding the separator splits into at least two pieces. */
  lemma {:induction false} SplitMany(s: string, sep: char)
    requires sep in s
    ensures |Split(s, sep)| >= 2
    decreases |s|
  {
    if s[0] != sep {
      assert sep in s[1..] by {
        assert s == [s[0]] + s[1..];
      }
      SplitMany(s[1..], sep);
    }
  }

  /** Splitting distributes over a separator occurrence. */
  lemma {:induction false} SplitAppend(a: string, sep: char, b: string)
    requires sep !in a
    ensures Split(a + [sep] + b, sep) == [a] + Split(b, sep)
    decreases |a|
  {
    if |a| == 0 {
      assert a + [sep] + b == [sep] + b;
      assert ([sep] + b)[1..] == b;
    } else {
      var s := a + [sep] + b;
      assert s[0] == a[0];
      assert s[1..] == a[1..] + [sep] + b;
      SplitAppend(a[1..], sep, b);
      assert [a[0]] + a[1..] == a;
    }
  }

  /** Splitting `a + [sep] + b` when `b` has no separator yields `Split(a)` then `[b]`. */
  lemma {:induction false} SplitConcat(a: string, sep: char, b: string)
    ensures Split(a + [sep] + b, sep) == Split(a, sep) + Split(b, sep)
    decreases |a|
  {
    if |a| == 0 {
      assert a + [sep] + b == [sep] + b;
      assert ([sep] + b)[1..] == b;
    } else {
      var s := a + [sep] + b;
      assert s[0] == a[0];
      assert s[1..] == a[1..] + [sep] + b;
      SplitConcat(a[1..], sep, b);
    }
  }

  /**
   * `s.split(sep)` for a separator string of any non-empty length: occurrences
   * are taken from the left and do not overlap.
   */
  function SplitOn(s: string, sep: string): (parts: seq<string>)
    requires |sep| > 0
    ensures |parts| >= 1
    decreases |s|
  {
    if StartsWith(s, sep) then [""] + SplitOn(s[|sep|..], sep)
    else if |s| == 0 then [""]
    else
      var rest := SplitOn(s[1..], sep);
      [[s[0]] + rest[0]] + rest[1..]
  }

  /** `s.split(sep)[1]` exists exactly when `sep` occurs in `s`. */
  lemma {:induction false} SplitOnSecondPiece(s: string, sep: string)
    requires |sep| > 0
    ensures |SplitOn(s, sep)| >= 2 <==> Contains(s, sep)
    decreases |s|
  {
    if !StartsWith(s, sep) && |s| > 0 {
      SplitOnSecondPiece(s[1..], sep);
    }
  }

  /** `s.split(sep)[k]`, or `None` where Python raises `IndexError`. */
  function Field(s: string, sep: char, k: nat): Option<string> {
    var parts := Split(s, sep);
    if k < |parts| then Some(parts[k]) else None
  }

  /** `s.split(sep)[0]`: the text before the first separator, or all of `s`. */
  function Before(s: string, sep: char): (r: string)
    ensures sep !in r
    ensures StartsWith(s, r)
    ensures r == s || s[|r|] == sep
    decreases |s|
  {
    if |s| == 0 || s[0] == sep then "" else [s[0]] + Before(s[1..], sep)
  }

  /** The first piece of a split is the text before the first separator. */
  lemma {:induction false} SplitHead(s: string, sep: char)
    ensures Split(s, sep)[0] == Before(s, sep)
    decreases |s|
  {
    if |s| > 0 && s[0] != sep {
      SplitHead(s[1..], sep);
    }
  }

  /** Number of leading non-whitespace characters. */
  function RunLength(s: string): (n: nat)
    ensures n <= |s|
    ensures forall i :: 0 <= i < n ==> !IsSpace(s[i])
    ensures n == |s| || IsSpace(s[n])
    decreases |s|
  {
    if |s| == 0 || IsSpace(s[0]) then 0 else 1 + RunLength(s[1..])
  }

  /** Python's `s.split()`: the maximal runs of non-whitespace characters, in order. */
  function Words(s: string): (ws: seq<string>)
    decreases |s|
  {
    if |s| == 0 then []
    else if IsSpace(s[0]) then Words(s[1..])
    else
      var n := RunLength(s);
      [s[..n]] + Words(s[n..])
  }

  /** A run of non-whitespace stops at a following whitespace character. */
  lemma {:induction false} RunLengthAppend(a: string, c: string)
    requires |c| > 0 && IsSpace(c[0])
    ensures RunLength(a + c) == RunLength(a)
    decreases |a|
  {
    if |a| > 0 && !IsSpace(a[0]) {
      assert (a + c)[1..] == a[1..] + c;
      RunLengthAppend(a[1..], c);
    }
  }

  /** A word without whitespace splits into itself. */
  lemma WordsSingle(w: string)
    requires |w| > 0 && forall i :: 0 <= i < |w| ==> !IsSpace(w[i])
    ensures Words(w) == [w]
  {
    assert w[..|w|] == w;
    assert w[|w|..] == [];
  }

  /** `(a + " " + b).split()` is `a.split() + b.split()`. */
  lemma {:induction false} WordsJoin(a: string, b: string)
    ensures Words(a + " " + b) == Words(a) + Words(b)
    decreases |a|
  {
    var s := a + " " + b;
    if |a| == 0 {
      assert s[1..] == b;
      assert Words(s) == Words(b);
    } else if IsSpace(a[0]) {
      assert s[0] == a[0] && s[1..] == a[1..] + " " + b;
      assert Words(s) == Words(s[1..]);
      WordsJoin(a[1..], b);
    } else {
      var n := RunLength(a);
      WordsJoin(a[n..], b);
      WordsJoinRun(a, b);
    }
  }

  /** The step of `WordsJoin` for a string that starts with a word. */
  lemma {:induction false} WordsJoinRun(a: string, b: string)
    requires |a| > 0 && !IsSpace(a[0])
    requires Words(a[RunLength(a)..] + " " + b) == Words(a[RunLength(a)..]) + Words(b)
    ensures Words(a + " " + b) == Words(a) + Words(b)
  {
    var c := " " + b;
    var n := RunLength(a);
    assert a + " " + b == a + c;
    assert a[n..] + " " + b == a[n..] + c;
    assert Words(a + c) == [a[..n]] + Words(a[n..] + c) by {
      RunLengthAppend(a, c);
      AppendSlices(a, c, n);
      WordsFirst(a + c);
    }
    assert Words(a) == [a[..n]] + Words(a[n..]) by {
      WordsFirst(a);
    }
    ConsGlue(Words(a + c), a[..n], Words(a[n..] + c), Words(a), Words(a[n..]), Words(b));
  }

  /** Slicing a concatenation inside its first part. */
  lemma AppendSlices(a: string, c: string, n: nat)
    requires n <= |a|
    ensures (a + c)[..n] == a[..n] && (a + c)[n..] == a[n..] + c
  {
  }

  /** Regrouping a word list that starts with a known first word. */
  lemma ConsGlue(whole: seq<string>, w: string, tail: seq<string>, left: seq<string>, rest: seq<string>, right: seq<string>)
    requires whole == [w] + tail && tail == rest + right && left == [w] + rest
    ensures whole == left + right
  {
  }

  /** `split()` of a string that starts with a word: that word, then the rest. */
  lemma WordsFirst(s: string)
    requires |s| > 0 && !IsSpace(s[0])
    ensures Words(s) == [s[..RunLength(s)]] + Words(s[RunLength(s)..])
  {
  }

  /** `not s.strip()`: the string is empty or all whitespace. */
  predicate IsBlank(s: string) {
    forall c :: c in s ==> IsSpace(c)
  }

  /** A blank string has no words. */
  lemma {:induction false} WordsOfBlank(s: string)
    ensures IsBlank(s) ==> Words(s) == []
    decreases |s|
  {
    if |s| > 0 && IsBlank(s) {
      assert IsSpace(s[0]) by {
        assert s[0] in s;
      }
      assert IsBlank(s[1..]) by {
        forall c | c in s[1..]
          ensures IsSpace(c)
        {
          assert c in s;
        }
      }
      WordsOfBlank(s[1..]);
    }
  }

  /** A string with a non-whitespace character has a first word, and it is a maximal run of non-whitespace. */
  lemma {:induction false} WordsOfNonBlank(s: string)
    requires !IsBlank(s)
    ensures |Words(s)| > 0
    ensures |Words(s)[0]| > 0 && forall i :: 0 <= i < |Words(s)[0]| ==> !IsSpace(Words(s)[0][i])
    decreases |s|
  {
    if IsSpace(s[0]) {
      assert !IsBlank(s[1..]) by {
        var c :| c in s && !IsSpace(c);
        assert c != s[0];
        assert c in s[1..] by {
          assert s == [s[0]] + s[1..];
        }
      }
      WordsOfNonBlank(s[1..]);
    }
  }
}
