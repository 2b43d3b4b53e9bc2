/** Python `str` primitives the nutrition code relies on, restricted to ASCII
    text: `isspace`, `lower`, `split()` with no argument, `' '.join`,
    `strip()`, the `in` substring test and `find`/`rfind`. */
module Text {
  import opened Wrappers

  /** Python's `str.isspace()` on ASCII: space, the controls 9-13
      (\t \n \v \f \r) and the separators 28-31. `split()`, `strip()` and the
      regular-expression class `\s` all use this set. */
  predicate IsSpace(c: char) {
    c == ' ' || 9 <= c as int <= 13 || 28 <= c as int <= 31
  }

  predicate IsUpper(c: char) {
    'A' <= c <= 'Z'
  }

  function LowerChar(c: char): char {
    if IsUpper(c) then (c as int + 32) as char else c
  }

  /** `s.lower()` */
  function Lower(s: string): (r: string)
    ensures |r| == |s|
    ensures forall i :: 0 <= i < |s| ==> r[i] == LowerChar(s[i])
  {
    seq(|s|, i requires 0 <= i < |s| => LowerChar(s[i]))
  }

  /** A word as `split()` produces it: non-empty and free of whitespace. */
  predicate IsToken(w: string) {
    |w| > 0 && forall i :: 0 <= i < |w| ==> !IsSpace(w[i])
  }

  /** Number of leading whitespace characters. */
  function LeadingSpaces(s: string): (k: nat)
    ensures k <= |s|
    ensures k == |s| || !IsSpace(s[k])
  {
    if s == [] || !IsSpace(s[0]) then 0 else 1 + LeadingSpaces(s[1..])
  }

  /** The leading run counted is all whitespace. */
  lemma {:induction false} LeadingAreSpaces(s: string)
    ensures forall i :: 0 <= i < LeadingSpaces(s) ==> IsSpace(s[i])
    decreases |s|
  {
    if s != [] && IsSpace(s[0]) {
      LeadingAreSpaces(s[1..]);
    }
  }

  /** The suffix of `s` after its leading whitespace. */
  function SkipSpaces(s: string): string {
    s[LeadingSpaces(s)..]
  }

  /** Length of the leading run of non-whitespace characters. */
  function WordLen(s: string): (n: nat)
    ensures n <= |s|
    ensures forall i :: 0 <= i < n ==> !IsSpace(s[i])
    ensures n == |s| || IsSpace(s[n])
  {
    if s == [] || IsSpace(s[0]) then 0 else 1 + WordLen(s[1..])
  }

  /** `s.split()`: the maximal runs of non-whitespace characters, in order. */
  function Split(s: string): (ws: seq<string>)
    ensures forall i :: 0 <= i < |ws| ==> IsToken(ws[i])
    decreases |s|
  {
    var k := LeadingSpaces(s);
    if k == |s| then []
    else
      var t := s[k..];
      var n := WordLen(t);
      var w := t[..n];
      assert IsToken(w) by {
        assert t[0] == s[k];
        assert forall i :: 0 <= i < n ==> w[i] == t[i];
      }
      var rest := Split(t[n..]);
      var ws := [w] + rest;
      assert forall i :: 0 < i < |ws| ==> ws[i] == rest[i - 1];
      ws
  }

  /** `sep.join(ws)` */
  function Join(ws: seq<string>, sep: string): string {
    if |ws| == 0 then ""
    else if |ws| == 1 then ws[0]
    else ws[0] + sep + Join(ws[1..], sep)
  }

  /** Number of trailing whitespace characters. */
  function TrailingSpaces(s: string): (m: nat)
    ensures m <= |s|
    ensures m == |s| || !IsSpace(s[|s| - 1 - m])
  {
    if s == [] || !IsSpace(s[|s| - 1]) then 0 else 1 + TrailingSpaces(s[..|s| - 1])
  }

  /** `s.strip()` */
  function Strip(s: string): string {
    var t := SkipSpaces(s);
    t[..|t| - TrailingSpaces(t)]
  }

  predicate IsPrefix(p: string, s: string) {
    |p| <= |s| && s[..|p|] == p
  }

  predicate IsSuffix(p: string, s: string) {
    |p| <= |s| && s[|s| - |p|..] == p
  }

  /** Python's `p in s` for strings. */
  predicate Contains(s: string, p: string)
    decreases |s|
  {
    IsPrefix(p, s) || (|s| > 0 && Contains(s[1..], p))
  }

  /** `s.find(c)` for a single character, `None` standing for -1. */
  function FirstIndex(s: string, c: char): (r: Option<nat>)
    ensures r.Some? ==> r.value < |s| && s[r.value] == c
    ensures r.Some? ==> forall i :: 0 <= i < r.value ==> s[i] != c
    ensures r.None? ==> forall i :: 0 <= i < |s| ==> s[i] != c
  {
    if s == [] then None
    else if s[0] == c then Some(0)
    else match FirstIndex(s[1..], c)
      case None => None
      case Some(i) => Some(i + 1)
  }

  /** `s.rfind(c)` for a single character, `None` standing for -1. */
  function LastIndex(s: string, c: char): (r: Option<nat>)
    ensures r.Some? ==> r.value < |s| && s[r.value] == c
    ensures r.Some? ==> forall i :: r.value < i < |s| ==> s[i] != c
    ensures r.None? ==> forall i :: 0 <= i < |s| ==> s[i] != c
  {
    if s == [] then None
    else if s[|s| - 1] == c then Some(|s| - 1)
    else LastIndex(s[..|s| - 1], c)
  }

  /** `p` occurs in `s` starting at index `j`. */
  predicate OccursAt(s: string, p: string, j: int) {
    0 <= j && j + |p| <= |s| && s[j..j + |p|] == p
  }

  /** Start of the last occurrence of `p` in `s`. */
  function LastOccurrence(s: string, p: string): (r: Option<nat>)
    ensures r.Some? ==> OccursAt(s, p, r.value)
    ensures r.Some? ==> forall j :: r.value < j ==> !OccursAt(s, p, j)
    ensures r.None? ==> forall j :: !OccursAt(s, p, j)
  {
    if |s| < |p| then None
    else if s[|s| - |p|..] == p then Some(|s| - |p|)
    else
      var r := LastOccurrence(s[..|s| - 1], p);
      assert forall j :: OccursAt(s, p, j) && j + |p| < |s| ==> OccursAt(s[..|s| - 1], p, j) by {
        forall j | OccursAt(s, p, j) && j + |p| < |s|
          ensures OccursAt(s[..|s| - 1], p, j)
        {
          assert s[..|s| - 1][j..j + |p|] == s[j..j + |p|];
        }
      }
      assert r.Some? ==> OccursAt(s, p, r.value) by {
        if r.Some? {
          assert s[..|s| - 1][r.value..r.value + |p|] == s[r.value..r.value + |p|];
        }
      }
      r
  }

  // ---------------------------------------------------------------------
  // Facts about splitting and joining.

  lemma {:induction false} WordLenOfToken(w: string, tail: string)
    requires IsToken(w)
    requires tail == [] || IsSpace(tail[0])
    ensures WordLen(w + tail) == |w|
    decreases |w|
  {
    if |w| == 1 {
      assert (w + tail)[1..] == tail;
    } else {
      assert (w + tail)[1..] == w[1..] + tail;
      WordLenOfToken(w[1..], tail);
    }
  }

  lemma SplitSkipsLeadingSpace(s: string)
    requires s != [] && IsSpace(s[0])
    ensures Split(s) == Split(s[1..])
  {
  }

  /** A token followed by whitespace (or nothing) is the first word. */
  lemma SplitCons(w: string, tail: string)
    requires IsToken(w)
    requires tail == [] || IsSpace(tail[0])
    ensures Split(w + tail) == [w] + Split(tail)
  {
    var s := w + tail;
    WordLenOfToken(w, tail);
    assert s[..|w|] == w;
    assert s[|w|..] == tail;
  }

  /** Splitting a single-space join of words gives the words back. */
  lemma {:induction false} SplitJoin(ws: seq<string>)
    requires forall i :: 0 <= i < |ws| ==> IsToken(ws[i])
    ensures Split(Join(ws, " ")) == ws
    decreases |ws|
  {
    if |ws| == 0 {
    } else if |ws| == 1 {
      var w := ws[0];
      assert w + [] == w;
      WordLenOfToken(w, []);
      assert SkipSpaces(w) == w;
      assert w[|w|..] == [];
    } else {
      var w := ws[0];
      var tail := " " + Join(ws[1..], " ");
      var s := w + tail;
      assert Join(ws, " ") == s;
      WordLenOfToken(w, tail);
      assert SkipSpaces(s) == s;
      assert s[..|w|] == w;
      assert s[|w|..] == tail;
      SplitSkipsLeadingSpace(tail);
      assert tail[1..] == Join(ws[1..], " ");
      SplitJoin(ws[1..]);
      assert Split(s) == [w] + Split(tail);
    }
  }

  /** A single-space join of words has no whitespace at either end. */
  lemma {:induction false} JoinEnds(ws: seq<string>)
    requires forall i :: 0 <= i < |ws| ==> IsToken(ws[i])
    ensures var j := Join(ws, " ");
      j == [] || (!IsSpace(j[0]) && !IsSpace(j[|j| - 1]))
    ensures |ws| > 0 <==> Join(ws, " ") != []
    decreases |ws|
  {
    if |ws| > 1 {
      JoinEnds(ws[1..]);
      var r := Join(ws[1..], " ");
      assert Join(ws, " ") == ws[0] + " " + r;
    }
  }

  lemma StripIdle(s: string)
    requires s == [] || (!IsSpace(s[0]) && !IsSpace(s[|s| - 1]))
    ensures Strip(s) == s
  {
  }

  /** Every character of a single-space join of words is either a character
      of one of the words or the separating space. */
  lemma {:induction false} JoinChars(ws: seq<string>, k: int)
    requires 0 <= k < |Join(ws, " ")|
    ensures var c := Join(ws, " ")[k];
      c == ' ' || exists i, j :: 0 <= i < |ws| && 0 <= j < |ws[i]| && ws[i][j] == c
    decreases |ws|
  {
    if |ws| == 1 {
      assert Join(ws, " ")[k] == ws[0][k];
    } else if |ws| > 1 {
      var r := Join(ws[1..], " ");
      assert Join(ws, " ") == ws[0] + " " + r;
      if k < |ws[0]| {
        assert Join(ws, " ")[k] == ws[0][k];
      } else if k > |ws[0]| {
        assert Join(ws, " ")[k] == r[k - |ws[0]| - 1];
        JoinChars(ws[1..], k - |ws[0]| - 1);
        var c := r[k - |ws[0]| - 1];
        if c != ' ' {
          var i, j :| 0 <= i < |ws[1..]| && 0 <= j < |ws[1..][i]| && ws[1..][i][j] == c;
          assert ws[i + 1][j] == c;
        }
      }
    }
  }
}
