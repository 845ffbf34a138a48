/** The JavaScript string and array operations the legend and the layer
    lookup rely on: `split`, `join`, `indexOf`, `splice` and the default
    `sort`. A Dafny `char` is a Unicode code point, so strings here are
    sequences of code points and `sort` compares code points; JavaScript
    compares UTF-16 code units, which orders the same way on strings
    without characters outside the Basic Multilingual Plane. */
module Strings {

  import opened Values

  /** `s.split([sep])`: the pieces between separators; never empty. */
  function Split(s: string, sep: char): (r: seq<string>)
    ensures |r| >= 1
  {
    if |s| == 0 then [""]
    else
      var rest := Split(s[1..], sep);
      if s[0] == sep then [""] + rest
      else [[s[0]] + rest[0]] + rest[1..]
  }

  /** No piece holds the separator, and there is more than one piece exactly
      when the string holds the separator. */
  lemma {:induction false} SplitPieces(s: string, sep: char)
    ensures forall k :: 0 <= k < |Split(s, sep)| ==> sep !in Split(s, sep)[k]
    ensures |Split(s, sep)| > 1 <==> sep in s
  {
    if |s| > 0 {
      SplitPieces(s[1..], sep);
      var rest := Split(s[1..], sep);
      assert s == [s[0]] + s[1..];
      if s[0] != sep {
        assert forall k :: 1 <= k < |rest| ==> Split(s, sep)[k] == rest[k];
      }
    }
  }

  /** `parts.join(sep)`: no parts give the empty string, and the first
      part begins the result. */
  function Join(parts: seq<string>, sep: string): (r: string)
    ensures |parts| == 0 ==> r == ""
    ensures |parts| > 0 ==> parts[0] <= r
  {
    if |parts| == 0 then ""
    else if |parts| == 1 then parts[0]
    else parts[0] + sep + Join(parts[1..], sep)
  }

  /** A character of `parts.join(sep)` comes from one of the parts, or from
      the separator when there are at least two parts, and every such
      character occurs. */
  lemma {:induction false} JoinChars(parts: seq<string>, sep: string)
    ensures forall c :: c in Join(parts, sep) <==> (exists p :: p in parts && c in p) || (|parts| > 1 && c in sep)
  {
    if |parts| > 1 {
      JoinChars(parts[1..], sep);
      assert forall p :: p in parts <==> p == parts[0] || p in parts[1..];
    }
  }

  /** `s.split(sep)[i]`, which is undefined past the last piece: the first
      piece always exists, the second exists exactly when `s` holds the
      separator, and no piece holds it. */
  function Field(s: string, sep: char, i: nat): (r: Option<string>)
    ensures i == 0 ==> r.Some?
    ensures i == 1 ==> (r.Some? <==> sep in s)
    ensures r.Some? ==> sep !in r.value
  {
    SplitPieces(s, sep);
    var parts := Split(s, sep);
    if i < |parts| then Some(parts[i]) else None
  }

  /** `s` with every `from` replaced by `to`, character by character. */
  function ReplaceChar(s: string, from: char, to: char): (r: string)
    ensures |r| == |s|
    ensures forall i :: 0 <= i < |s| ==> r[i] == (if s[i] == from then to else s[i])
  {
    if |s| == 0 then "" else [if s[0] == from then to else s[0]] + ReplaceChar(s[1..], from, to)
  }

  /** A string without the separator is a single piece. */
  lemma {:induction false} SplitWithoutSeparator(s: string, sep: char)
    requires sep !in s
    ensures Split(s, sep) == [s]
  {
    if |s| > 0 {
      assert sep !in s[1..] by {
        forall k | 0 <= k < |s[1..]| ensures s[1..][k] != sep { assert s[1..][k] == s[k + 1]; }
      }
      SplitWithoutSeparator(s[1..], sep);
      assert [s[0]] + s[1..] == s;
    }
  }

  /** `split` on a string with a known first character. */
  lemma SplitCons(c: char, t: string, sep: char)
    ensures Split([c] + t, sep) ==
      if c == sep then [""] + Split(t, sep) else [[c] + Split(t, sep)[0]] + Split(t, sep)[1..]
  {
    var s := [c] + t;
    assert s[0] == c && s[1..] == t;
  }

  /** Splitting at a separator splits both halves independently. */
  lemma {:induction false} SplitAtSeparator(a: string, sep: char, b: string)
    ensures Split(a + [sep] + b, sep) == Split(a, sep) + Split(b, sep)
  {
    if |a| == 0 {
      assert a + [sep] + b == [sep] + b;
      SplitCons(sep, b, sep);
    } else {
      SplitAtSeparator(a[1..], sep, b);
      SplitAtSeparatorStep(a, sep, b);
    }
  }

  /** The inductive step: one more leading character on the left half. */
  lemma SplitAtSeparatorStep(a: string, sep: char, b: string)
    requires |a| > 0
    requires Split(a[1..] + [sep] + b, sep) == Split(a[1..], sep) + Split(b, sep)
    ensures Split(a + [sep] + b, sep) == Split(a, sep) + Split(b, sep)
  {
    var c, tail := a[0], a[1..] + [sep] + b;
    assert a + [sep] + b == [c] + tail;
    assert a == [c] + a[1..];
    SplitCons(c, tail, sep);
    SplitCons(c, a[1..], sep);
    PrependPiece(c, c == sep, Split(a[1..], sep), Split(b, sep));
  }

  /** The list algebra behind the step: prepending to the first piece of a
      concatenation, or prepending an empty piece, commutes with appending. */
  lemma PrependPiece(c: char, atSep: bool, left: seq<string>, right: seq<string>)
    requires |left| >= 1
    ensures (if atSep then [""] + (left + right) else [[c] + (left + right)[0]] + (left + right)[1..])
         == (if atSep then [""] + left else [[c] + left[0]] + left[1..]) + right
  {
    var rest := left + right;
    assert rest[0] == left[0] && rest[1..] == left[1..] + right;
  }

  /** Joining the pieces with another one-character separator replaces every
      separator by it. */
  lemma {:induction false} JoinSplitReplaces(s: string, sep: char, repl: char)
    ensures Join(Split(s, sep), [repl]) == ReplaceChar(s, sep, repl)
  {
    if |s| > 0 {
      JoinSplitReplaces(s[1..], sep, repl);
      var rest := Split(s[1..], sep);
      if s[0] == sep {
        assert ([""] + rest)[1..] == rest;
      } else if |rest| > 1 {
        var parts := [[s[0]] + rest[0]] + rest[1..];
        assert parts[1..] == rest[1..];
        assert Join(rest, [repl]) == rest[0] + [repl] + Join(rest[1..], [repl]);
      }
    }
  }

  /** `s.split(sep).join(sep)` gives back `s`. */
  lemma SplitJoinRoundTrip(s: string, sep: char)
    ensures Join(Split(s, sep), [sep]) == s
  {
    JoinSplitReplaces(s, sep, sep);
    assert ReplaceChar(s, sep, sep) == s;
  }

  /** The lexicographic order of the default `sort`, character by
      character. */
  predicate LexLeq(a: string, b: string)
  {
    |a| == 0 || (|b| > 0 && (a[0] < b[0] || (a[0] == b[0] && LexLeq(a[1..], b[1..]))))
  }

  lemma {:induction false} LexLeqTotal(a: string, b: string)
    ensures LexLeq(a, b) || LexLeq(b, a)
  {
    if |a| > 0 && |b| > 0 && a[0] == b[0] {
      LexLeqTotal(a[1..], b[1..]);
    }
  }

  lemma {:induction false} LexLeqTransitive(a: string, b: string, c: string)
    requires LexLeq(a, b) && LexLeq(b, c)
    ensures LexLeq(a, c)
  {
    if |a| > 0 && a[0] == b[0] && b[0] == c[0] {
      LexLeqTransitive(a[1..], b[1..], c[1..]);
    }
  }

  lemma {:induction false} LexLeqAntisymmetric(a: string, b: string)
    requires LexLeq(a, b) && LexLeq(b, a)
    ensures a == b
  {
    if |a| > 0 {
      LexLeqAntisymmetric(a[1..], b[1..]);
      assert a == [a[0]] + a[1..] && b == [b[0]] + b[1..];
    }
  }

  predicate Sorted(s: seq<string>)
  {
    forall i, j :: 0 <= i < j < |s| ==> LexLeq(s[i], s[j])
  }

  function Insert(x: string, s: seq<string>): seq<string>
  {
    if |s| == 0 then [x]
    else if LexLeq(x, s[0]) then [x] + s
    else [s[0]] + Insert(x, s[1..])
  }

  /** `array.sort()` with no comparator, as a function on the array's
      contents: the result is in order and holds exactly the same
      elements. */
  function Sort(s: seq<string>): (r: seq<string>)
    ensures Sorted(r)
    ensures multiset(r) == multiset(s)
  {
    if |s| == 0 then []
    else
      var rest := Sort(s[1..]);
      InsertSorted(s[0], rest);
      InsertPermutes(s[0], rest);
      assert s == [s[0]] + s[1..];
      Insert(s[0], rest)
  }

  lemma {:induction false} InsertPermutes(x: string, s: seq<string>)
    ensures multiset(Insert(x, s)) == multiset(s) + multiset{x}
  {
    if |s| > 0 && !LexLeq(x, s[0]) {
      InsertPermutes(x, s[1..]);
      assert s == [s[0]] + s[1..];
    }
  }

  lemma {:induction false} InsertSorted(x: string, s: seq<string>)
    requires Sorted(s)
    ensures Sorted(Insert(x, s))
  {
    if |s| == 0 {
    } else if LexLeq(x, s[0]) {
      forall j | 0 < j < |s| ensures LexLeq(x, s[j]) {
        LexLeqTransitive(x, s[0], s[j]);
      }
      SortedCons(x, s);
    } else {
      var h, t := s[0], s[1..];
      assert Sorted(t) by {
        forall i, j | 0 <= i < j < |t| ensures LexLeq(t[i], t[j]) {
          assert t[i] == s[i + 1] && t[j] == s[j + 1];
        }
      }
      InsertSorted(x, t);
      InsertPermutes(x, t);
      LexLeqTotal(x, h);
      var r := Insert(x, t);
      forall y | y in r ensures LexLeq(h, y) {
        assert y in multiset(t) + multiset{x};
        if y != x {
          var k :| 0 <= k < |t| && t[k] == y;
          assert s[k + 1] == y;
        }
      }
      SortedCons(h, r);
    }
  }

  /** A sorted list stays sorted under a head no greater than its elements. */
  lemma SortedCons(h: string, r: seq<string>)
    requires Sorted(r)
    requires forall y :: y in r ==> LexLeq(h, y)
    ensures Sorted([h] + r)
  {
    var s := [h] + r;
    forall i, j | 0 <= i < j < |s| ensures LexLeq(s[i], s[j]) {
      assert s[j] == r[j - 1];
      if i > 0 {
        assert s[i] == r[i - 1];
      }
    }
  }

  /** Two sorted lists with the same elements are equal: the order the
      default `sort` produces is unique. */
  lemma {:induction false} SortedUnique(a: seq<string>, b: seq<string>)
    requires Sorted(a) && Sorted(b) && multiset(a) == multiset(b)
    ensures a == b
  {
    if |a| > 0 {
      assert a[0] in multiset(a) && a[0] in multiset(b);
      SortedHeads(a, b);
      assert a == [a[0]] + a[1..] && b == [b[0]] + b[1..];
      assert multiset(a[1..]) == multiset(a) - multiset{a[0]};
      assert multiset(b[1..]) == multiset(b) - multiset{b[0]};
      SortedTail(a);
      SortedTail(b);
      SortedUnique(a[1..], b[1..]);
    }
  }

  /** Sorted lists with the same elements start with the same element. */
  lemma SortedHeads(a: seq<string>, b: seq<string>)
    requires Sorted(a) && Sorted(b) && multiset(a) == multiset(b) && |a| > 0 && |b| > 0
    ensures a[0] == b[0]
  {
    assert a[0] in multiset(b) && b[0] in multiset(a);
    var i :| 0 <= i < |b| && b[i] == a[0];
    var j :| 0 <= j < |a| && a[j] == b[0];
    if i > 0 && j > 0 {
      assert LexLeq(b[0], b[i]) && LexLeq(a[0], a[j]);
      LexLeqAntisymmetric(a[0], b[0]);
    }
  }

  lemma SortedTail(a: seq<string>)
    requires Sorted(a) && |a| > 0
    ensures Sorted(a[1..])
  {
    forall i, j | 0 <= i < j < |a[1..]| ensures LexLeq(a[1..][i], a[1..][j]) {
      assert a[1..][i] == a[i + 1] && a[1..][j] == a[j + 1];
    }
  }

  /** `array.indexOf(x)`, with -1 written as None. */
  function IndexOf(s: seq<string>, x: string): (r: Option<nat>)
    ensures r.None? <==> x !in s
    ensures r.Some? ==> r.value < |s| && s[r.value] == x && x !in s[..r.value]
  {
    if |s| == 0 then None
    else if s[0] == x then Some(0)
    else match IndexOf(s[1..], x)
      case None => None
      case Some(i) =>
        assert s[..i + 1] == [s[0]] + s[1..][..i];
        Some(i + 1)
  }

  /** `array.splice(i, 1)`, as a function on the array's contents. */
  function RemoveAt(s: seq<string>, i: nat): (r: seq<string>)
    requires i < |s|
    ensures multiset(r) + multiset{s[i]} == multiset(s)
  {
    assert s == s[..i] + [s[i]] + s[i + 1..];
    s[..i] + s[i + 1..]
  }
}
