/** The fuzzy matcher of `utils/fuzzy_match.py`: ingredient names are scored
    against food descriptions by a weighted sum of a character-similarity
    ratio (30%), word overlap (50%) and a binary key-word test (20%), and the
    candidates that clear a confidence floor are ranked best first. */
module FuzzyMatch {
  import opened Wrappers
  import opened Text
  import opened Seqs
  import opened Records

  /** A number in [0, 1]. */
  type Unit = x: real | 0.0 <= x <= 1.0

  /** The character-level similarity of two normalised strings,
      `difflib.SequenceMatcher(None, a, b).ratio()`. Only its range is
      known to the model. */
  type Similarity = (string, string) -> Unit

  /** The matcher's default confidence floor. */
  const DefaultMinConfidence: real := 0.3

  /** Descriptive words that do not identify an ingredient. */
  const NoiseWords: seq<string> := [
    "raw", "cooked", "fresh", "canned", "frozen", "dried",
    "with", "without", "added", "no", "low", "high", "organic",
    "prepared", "liquid", "expressed", "from", "grated", "meat"
  ]

  // ---------------------------------------------------------------------
  // Normalisation

  function PunctuationToSpace(c: char): char {
    if c == ',' || c == '(' || c == ')' then ' ' else c
  }

  /** `text.replace(',', ' ').replace('(', ' ').replace(')', ' ')` */
  function ReplacePunctuation(s: string): (r: string)
    ensures |r| == |s|
    ensures forall i :: 0 <= i < |s| ==> r[i] == PunctuationToSpace(s[i])
  {
    seq(|s|, i requires 0 <= i < |s| => PunctuationToSpace(s[i]))
  }

  /** A word normalisation keeps. */
  predicate Kept(w: string) {
    w !in NoiseWords && |w| > 1
  }

  /** Characters normalisation never produces: upper case and `,()`. */
  predicate IsCleanChar(c: char) {
    !IsUpper(c) && c != ',' && c != '(' && c != ')'
  }

  predicate Clean(s: string) {
    forall c :: c in s ==> IsCleanChar(c)
  }

  /** A word as normalisation leaves it. */
  predicate NormalWord(w: string) {
    IsToken(w) && Kept(w) && Clean(w)
  }

  /** The text before it is split: lower-cased, stripped, `,()` blanked. */
  function Prepared(text: string): string {
    ReplacePunctuation(Strip(Lower(text)))
  }

  /** The words normalisation keeps, in order. */
  function NormalWords(text: string): (ws: seq<string>)
    ensures forall i :: 0 <= i < |ws| ==> NormalWord(ws[i])
  {
    var xs := Split(Prepared(text));
    PreparedIsClean(text);
    SplitKeepsClean(Prepared(text));
    FilterPreserves(xs, Kept, (w: string) => IsToken(w) && Clean(w));
    Filter(xs, Kept)
  }

  /** `_normalize_string`: lower-case, strip, turn `,()` into spaces, drop
      noise words and one-letter words, and join the rest with single
      spaces. Splitting the result gives back exactly the kept words. */
  function Normalize(text: string): (r: string)
    ensures Split(r) == NormalWords(text)
  {
    var ws := NormalWords(text);
    SplitJoin(ws);
    Join(ws, " ")
  }

  lemma PreparedIsClean(text: string)
    ensures Clean(Prepared(text))
  {
    StrippedLowerHasNoUpper(text);
    BlankedIsClean(Strip(Lower(text)));
  }

  lemma StrippedLowerHasNoUpper(text: string)
    ensures var t := Strip(Lower(text)); forall i :: 0 <= i < |t| ==> !IsUpper(t[i])
  {
    var l := Lower(text);
    var u := SkipSpaces(l);
    var t := Strip(l);
    forall i | 0 <= i < |t|
      ensures !IsUpper(t[i])
    {
      assert t[i] == u[i];
      assert u[i] == l[LeadingSpaces(l) + i];
    }
  }

  lemma BlankedIsClean(t: string)
    requires forall i :: 0 <= i < |t| ==> !IsUpper(t[i])
    ensures Clean(ReplacePunctuation(t))
  {
    var r := ReplacePunctuation(t);
    forall c | c in r
      ensures IsCleanChar(c)
    {
      var i :| 0 <= i < |r| && r[i] == c;
      assert r[i] == PunctuationToSpace(t[i]);
    }
  }

  lemma {:induction false} SplitKeepsClean(s: string)
    requires Clean(s)
    ensures forall w :: w in Split(s) ==> Clean(w)
    decreases |s|
  {
    var t := SkipSpaces(s);
    if t != [] {
      var n := WordLen(t);
      assert Clean(t);
      assert Clean(t[..n]);
      assert Clean(t[n..]);
      SplitKeepsClean(t[n..]);
      assert Split(s) == [t[..n]] + Split(t[n..]);
    }
  }

  lemma JoinKeepsClean(ws: seq<string>)
    requires forall i :: 0 <= i < |ws| ==> Clean(ws[i])
    ensures Clean(Join(ws, " "))
  {
    var j := Join(ws, " ");
    forall c | c in j
      ensures IsCleanChar(c)
    {
      var k :| 0 <= k < |j| && j[k] == c;
      JoinChars(ws, k);
    }
  }

  /** Preparing a clean string without surrounding whitespace is the
      identity. */
  lemma PreparedIdle(j: string)
    requires Clean(j)
    requires j == [] || (!IsSpace(j[0]) && !IsSpace(j[|j| - 1]))
    ensures Prepared(j) == j
  {
    assert forall i :: 0 <= i < |j| ==> IsCleanChar(j[i]) by {
      forall i | 0 <= i < |j|
        ensures IsCleanChar(j[i])
      {
        assert j[i] in j;
      }
    }
    assert Lower(j) == j;
    StripIdle(j);
    assert ReplacePunctuation(j) == j;
  }

  /** A single-space join of normal words is already prepared. */
  lemma JoinIsPrepared(ws: seq<string>)
    requires forall i :: 0 <= i < |ws| ==> IsToken(ws[i]) && Clean(ws[i])
    ensures Prepared(Join(ws, " ")) == Join(ws, " ")
  {
    JoinKeepsClean(ws);
    JoinEnds(ws);
    PreparedIdle(Join(ws, " "));
  }

  /** A prepared string whose words are all kept normalises to those
      words. */
  lemma NormalWordsOfPrepared(j: string, ws: seq<string>)
    requires Prepared(j) == j && Split(j) == ws
    requires forall i :: 0 <= i < |ws| ==> Kept(ws[i])
    ensures NormalWords(j) == ws
  {
    FilterKeepsAll(ws, Kept);
  }

  /** Normalising a normalised string keeps exactly the same words. */
  lemma NormalWordsStable(text: string)
    ensures NormalWords(Normalize(text)) == NormalWords(text)
  {
    var ws := NormalWords(text);
    JoinIsPrepared(ws);
    SplitJoin(ws);
    NormalWordsOfPrepared(Join(ws, " "), ws);
  }

  /** Normalising a normalised string changes nothing. */
  lemma NormalizeIdempotent(text: string)
    ensures Normalize(Normalize(text)) == Normalize(text)
  {
    NormalWordsStable(text);
  }

  // ---------------------------------------------------------------------
  // Sub-scores

  /** The distinct words of a word list (Python's `set(text.split())`). */
  function WordSet(ws: seq<string>): set<string> {
    set w | w in ws
  }

  lemma SubsetCardinality(a: set<string>, b: set<string>)
    requires a <= b
    ensures |a| <= |b|
    ensures |a| == |b| ==> a == b
  {
    assert (b - a) + a == b;
    assert (b - a) * a == {};
    assert |b - a| + |a| == |b|;
  }

  /** `_calculate_word_overlap` on the two word sets: the share of the
      ingredient's distinct words that the description also has. */
  function Overlap(a: set<string>, b: set<string>): (r: real)
    ensures 0.0 <= r <= 1.0
    ensures r == 1.0 <==> a != {} && a <= b
    ensures r == 0.0 <==> a * b == {}
  {
    if |a| == 0 then 0.0
    else
      SubsetCardinality(a * b, a);
      assert a * b == a <==> a <= b;
      (|a * b| as real) / (|a| as real)
  }

  /** How many of the words `ws` (repeats counted) occur in `food`. */
  function CountPresent(ws: seq<string>, food: seq<string>): (m: nat)
    ensures m <= |ws|
    ensures m == |ws| <==> forall i :: 0 <= i < |ws| ==> ws[i] in food
    ensures m > 0 <==> exists i :: 0 <= i < |ws| && ws[i] in food
  {
    if ws == [] then 0
    else
      var rest := CountPresent(ws[1..], food);
      assert forall i :: 1 <= i < |ws| ==> ws[i] == ws[1..][i - 1];
      (if ws[0] in food then 1 else 0) + rest
  }

  function MaxReal(a: real, b: real): real {
    if a >= b then a else b
  }

  /** `_calculate_key_ingredient_presence` on the two word lists: 1.0 when
      enough of the ingredient's words occur in the description, else 0.0.
      One word must occur, two words must both occur, and from three words
      on at least max(2, 0.67 n) of them must (repeats counted). */
  function KeyPresence(iw: seq<string>, fw: seq<string>): (r: real)
    ensures r == 0.0 || r == 1.0
    ensures |iw| <= 2 ==> (r == 1.0 <==> iw != [] && forall w :: w in iw ==> w in fw)
    ensures |iw| >= 3 ==>
      (r == 1.0 <==> CountPresent(iw, fw) >= 2 && 100 * CountPresent(iw, fw) >= 67 * |iw|)
    ensures iw != [] && (forall w :: w in iw ==> w in fw) ==> r == 1.0
    ensures r == 1.0 ==> exists w :: w in iw && w in fw
  {
    if |iw| == 1 then (if iw[0] in fw then 1.0 else 0.0)
    else
      var matches := CountPresent(iw, fw);
      if |iw| == 2 then (if matches == 2 then 1.0 else 0.0)
      else
        var threshold := MaxReal(2.0, (|iw| as real) * (67.0 / 100.0));
        if matches as real >= threshold then 1.0 else 0.0
  }

  /** The weighting of `calculate_match_score`: 30% character similarity,
      50% word overlap, 20% key-word presence. */
  function Weighted(similarity: real, overlap: real, key: real): (r: real)
    requires 0.0 <= similarity <= 1.0 && 0.0 <= overlap <= 1.0 && 0.0 <= key <= 1.0
    ensures 0.0 <= r <= 1.0
    ensures overlap == 1.0 && key == 1.0 ==> r >= 0.7
    ensures overlap == 0.0 && key == 0.0 ==> r <= 0.3
  {
    (3.0 / 10.0) * similarity + (1.0 / 2.0) * overlap + (1.0 / 5.0) * key
  }

  /** `calculate_match_score` once both strings are normalised. */
  function NormalizedScore(a: string, b: string, ratio: Similarity): (r: real)
    ensures 0.0 <= r <= 1.0
  {
    var iw := Split(a);
    var fw := Split(b);
    Weighted(ratio(a, b), Overlap(WordSet(iw), WordSet(fw)), KeyPresence(iw, fw))
  }

  /** `calculate_match_score` on the raw strings. */
  function MatchScore(ingredient: string, food: string, ratio: Similarity): (r: real)
    ensures 0.0 <= r <= 1.0
  {
    NormalizedScore(Normalize(ingredient), Normalize(food), ratio)
  }

  /** When every word of the normalised ingredient occurs in the normalised
      description, the score is at least 0.7 whatever the similarity. */
  lemma AllWordsPresentScoresHigh(a: string, b: string, ratio: Similarity)
    requires Split(a) != []
    requires forall w :: w in Split(a) ==> w in Split(b)
    ensures NormalizedScore(a, b, ratio) >= 0.7
  {
    var iw := Split(a);
    var fw := Split(b);
    assert iw[0] in WordSet(iw);
    assert WordSet(iw) <= WordSet(fw);
  }

  /** When no word of the normalised ingredient occurs in the normalised
      description, only the similarity contributes: the score is at most
      0.3. */
  lemma NoWordPresentScoresLow(a: string, b: string, ratio: Similarity)
    requires forall w :: w in Split(a) ==> w !in Split(b)
    ensures NormalizedScore(a, b, ratio) <= 0.3
  {
    var iw := Split(a);
    var fw := Split(b);
    assert WordSet(iw) * WordSet(fw) == {};
  }

  /** The same two facts for raw names, in terms of the words normalisation
      keeps. */
  lemma KeptWordsDecideScore(ingredient: string, food: string, ratio: Similarity)
    ensures NormalWords(ingredient) != [] && (forall w :: w in NormalWords(ingredient) ==> w in NormalWords(food))
      ==> MatchScore(ingredient, food, ratio) >= 0.7
    ensures (forall w :: w in NormalWords(ingredient) ==> w !in NormalWords(food))
      ==> MatchScore(ingredient, food, ratio) <= 0.3
  {
    var a := Normalize(ingredient);
    var b := Normalize(food);
    if NormalWords(ingredient) != [] && forall w :: w in NormalWords(ingredient) ==> w in NormalWords(food) {
      AllWordsPresentScoresHigh(a, b, ratio);
    }
    if forall w :: w in NormalWords(ingredient) ==> w !in NormalWords(food) {
      NoWordPresentScoresLow(a, b, ratio);
    }
  }

  // ---------------------------------------------------------------------
  // Ranking. Candidates are identified by their position in the food list;
  // `scores[i]` is the score of food `i`.

  /** Candidate `a` is ranked before candidate `b`: a higher score, or an
      equal score and an earlier position (Python's sort is stable, also
      with `reverse=True`). */
  predicate Precedes(scores: seq<real>, a: nat, b: nat) {
    a < |scores| && b < |scores| &&
    (scores[a] > scores[b] || (scores[a] == scores[b] && a < b))
  }

  predicate Ranked(scores: seq<real>, xs: seq<nat>) {
    forall i, j :: 0 <= i < j < |xs| ==> Precedes(scores, xs[i], xs[j])
  }

  predicate InRange(scores: seq<real>, xs: seq<nat>) {
    forall k :: 0 <= k < |xs| ==> xs[k] < |scores|
  }

  predicate Increasing(xs: seq<nat>) {
    forall i, j :: 0 <= i < j < |xs| ==> xs[i] < xs[j]
  }

  /** A candidate that precedes every member of a ranked list heads it. */
  lemma ConsRanked(scores: seq<real>, h: nat, xs: seq<nat>)
    requires h < |scores| && InRange(scores, xs) && Ranked(scores, xs)
    requires forall k :: 0 <= k < |xs| ==> Precedes(scores, h, xs[k])
    ensures InRange(scores, [h] + xs) && Ranked(scores, [h] + xs)
  {
    var r := [h] + xs;
    assert forall i :: 0 < i < |r| ==> r[i] == xs[i - 1];
  }

  /** Inserts candidate `x` into a ranked list. Ranked lists hold no
      repeats, so equal members and one more element make a permutation. */
  function Insert(scores: seq<real>, x: nat, xs: seq<nat>): (r: seq<nat>)
    requires x < |scores| && InRange(scores, xs) && Ranked(scores, xs)
    requires x !in xs
    ensures InRange(scores, r) && Ranked(scores, r)
    ensures |r| == |xs| + 1
    ensures forall y :: y in r <==> y in xs || y == x
  {
    if xs == [] then [x]
    else if Precedes(scores, x, xs[0]) then
      ConsRanked(scores, x, xs);
      [x] + xs
    else
      var tail := xs[1..];
      assert forall i :: 0 <= i < |tail| ==> tail[i] == xs[i + 1];
      var rest := Insert(scores, x, tail);
      assert forall k :: 0 <= k < |rest| ==> Precedes(scores, xs[0], rest[k]) by {
        forall k | 0 <= k < |rest|
          ensures Precedes(scores, xs[0], rest[k])
        {
          assert rest[k] in rest;
          if rest[k] != x {
            var m :| 0 <= m < |tail| && tail[m] == rest[k];
          }
        }
      }
      ConsRanked(scores, xs[0], rest);
      var r := [xs[0]] + rest;
      assert forall y :: y in xs <==> y == xs[0] || y in tail by {
        assert xs == [xs[0]] + tail;
      }
      r
  }

  /** Insertion sort into ranking order. */
  function Rank(scores: seq<real>, xs: seq<nat>): (r: seq<nat>)
    requires InRange(scores, xs) && Increasing(xs)
    ensures InRange(scores, r) && Ranked(scores, r)
    ensures |r| == |xs|
    ensures forall y :: y in r <==> y in xs
  {
    if xs == [] then []
    else
      var tail := xs[1..];
      assert forall i :: 0 <= i < |tail| ==> tail[i] == xs[i + 1];
      var rest := Rank(scores, tail);
      assert xs[0] !in tail;
      assert forall y :: y in xs <==> y == xs[0] || y in tail by {
        assert xs == [xs[0]] + tail;
      }
      Insert(scores, xs[0], rest)
  }

  /** The positions `0 .. n-1`. */
  function Positions(n: nat): (r: seq<nat>)
    ensures |r| == n && forall i :: 0 <= i < n ==> r[i] == i
  {
    seq(n, i requires 0 <= i < n => i)
  }

  lemma {:induction false} SubsequenceIncreasing(ys: seq<nat>, xs: seq<nat>, base: nat)
    requires forall i :: 0 <= i < |xs| ==> xs[i] == base + i
    requires IsSubsequence(ys, xs)
    ensures Increasing(ys)
    ensures forall i :: 0 <= i < |ys| ==> base <= ys[i]
    decreases |xs|
  {
    if ys != [] {
      if ys[0] == xs[0] && IsSubsequence(ys[1..], xs[1..]) {
        SubsequenceIncreasing(ys[1..], xs[1..], base + 1);
        assert forall i :: 1 <= i < |ys| ==> ys[i] == ys[1..][i - 1];
      } else {
        SubsequenceIncreasing(ys, xs[1..], base + 1);
      }
    }
  }

  /** The candidate filter of `find_best_matches`: `score >= min_confidence`. */
  function Clears(scores: seq<real>, minConfidence: real): nat -> bool {
    (i: nat) => i < |scores| && scores[i] >= minConfidence
  }

  function Reaches(minConfidence: real): real -> bool {
    (score: real) => score >= minConfidence
  }

  /** Filtering the positions `base ..` keeps as many as there are scores
      from `base` on that reach the floor. */
  lemma {:induction false} ClearedPositionsCount(scores: seq<real>, minConfidence: real, xs: seq<nat>, base: nat)
    requires base + |xs| == |scores|
    requires forall i :: 0 <= i < |xs| ==> xs[i] == base + i
    ensures |Filter(xs, Clears(scores, minConfidence))| == Count(scores[base..], Reaches(minConfidence))
    decreases |xs|
  {
    if xs != [] {
      assert forall i :: 0 <= i < |xs[1..]| ==> xs[1..][i] == base + 1 + i;
      ClearedPositionsCount(scores, minConfidence, xs[1..], base + 1);
      assert scores[base..][1..] == scores[base + 1..];
      assert scores[base..][0] == scores[base];
    } else {
      assert scores[base..] == [];
    }
  }

  /** The positions of the foods scoring at least `minConfidence`, ranked
      best first with ties in input order. */
  function RankedCandidates(scores: seq<real>, minConfidence: real): (r: seq<nat>)
    ensures InRange(scores, r) && Ranked(scores, r)
    ensures forall i :: i in r <==> 0 <= i < |scores| && scores[i] >= minConfidence
    ensures |r| == Count(scores, Reaches(minConfidence))
  {
    var all: seq<nat> := Positions(|scores|);
    var kept: seq<nat> := Filter<nat>(all, Clears(scores, minConfidence));
    SubsequenceIncreasing(kept, all, 0);
    ClearedPositionsCount(scores, minConfidence, all, 0);
    assert scores[0..] == scores;
    assert InRange(scores, kept) by {
      forall k | 0 <= k < |kept|
        ensures kept[k] < |scores|
      {
        assert kept[k] in kept;
      }
    }
    assert forall i: int :: i in kept <==> 0 <= i < |scores| && scores[i] >= minConfidence by {
      forall i: int
        ensures i in kept <==> 0 <= i < |scores| && scores[i] >= minConfidence
      {
        if 0 <= i < |scores| {
          assert all[i] == i;
          assert i in all;
        }
      }
    }
    Rank(scores, kept)
  }

  /** `pos` holds distinct foods scoring at least `minConfidence`, best
      first with ties in input order, and every other such food ranks
      after all of them: `pos` is how the ranking of the qualifying foods
      begins. */
  predicate LeadingCandidates(scores: seq<real>, minConfidence: real, pos: seq<nat>) {
    InRange(scores, pos) && Ranked(scores, pos) &&
    (forall k :: 0 <= k < |pos| ==> scores[pos[k]] >= minConfidence) &&
    (forall i, k :: 0 <= i < |scores| && scores[i] >= minConfidence && i !in pos && 0 <= k < |pos| ==>
       Precedes(scores, pos[k], i))
  }

  /** The positions `find_best_matches` keeps: the beginning of the
      ranking, as long as `scored_matches[:limit]` is. */
  function TopPositions(scores: seq<real>, limit: Option<int>, minConfidence: real): (pos: seq<nat>)
    ensures LeadingCandidates(scores, minConfidence, pos)
    ensures |pos| == SliceLength(Count(scores, Reaches(minConfidence)), limit)
  {
    var ranked := RankedCandidates(scores, minConfidence);
    var top := Take(ranked, limit);
    assert forall k :: 0 <= k < |top| ==> top[k] == ranked[k];
    assert forall k :: 0 <= k < |top| ==> top[k] in ranked by {
      forall k | 0 <= k < |top|
        ensures top[k] in ranked
      {
        assert ranked[k] in ranked;
      }
    }
    forall i, k | 0 <= i < |scores| && scores[i] >= minConfidence && i !in top && 0 <= k < |top|
      ensures Precedes(scores, top[k], i)
    {
      assert i in ranked;
      var j :| 0 <= j < |ranked| && ranked[j] == i;
      if j < |top| {
        assert top[j] == i;
      }
    }
    top
  }

  /** Two beginnings of the ranking of the same length are equal: the
      floor and the length decide which foods are kept and in what
      order. */
  lemma LeadingCandidatesUnique(scores: seq<real>, minConfidence: real, p: seq<nat>, q: seq<nat>)
    requires LeadingCandidates(scores, minConfidence, p) && LeadingCandidates(scores, minConfidence, q)
    requires |p| == |q|
    ensures p == q
  {
    forall k | 0 <= k < |p|
      ensures p[k] == q[k]
    {
      LeadingAgreeAt(scores, minConfidence, p, q, k);
    }
  }

  lemma {:induction false} LeadingAgreeAt(scores: seq<real>, minConfidence: real, p: seq<nat>, q: seq<nat>, k: nat)
    requires LeadingCandidates(scores, minConfidence, p) && LeadingCandidates(scores, minConfidence, q)
    requires |p| == |q| && k < |p|
    ensures p[k] == q[k]
    decreases k
  {
    forall j | 0 <= j < k
      ensures p[j] == q[j]
    {
      LeadingAgreeAt(scores, minConfidence, p, q, j);
    }
    if p[k] != q[k] {
      // Whichever of the two appears in the other list, it appears later
      // there, so each would have to rank before the other.
      assert Precedes(scores, q[k], p[k]) by {
        if p[k] in q {
          var j :| 0 <= j < |q| && q[j] == p[k];
          if j < k {
            assert p[j] == q[j];
          }
        }
      }
      assert Precedes(scores, p[k], q[k]) by {
        if q[k] in p {
          var j :| 0 <= j < |p| && p[j] == q[k];
          if j < k {
            assert p[j] == q[j];
          }
        }
      }
      assert false;
    }
  }

  /** `rec` is a copy of some food scoring at least `minConfidence`, with
      that score stamped as its `match_score`. */
  predicate CopyOfCandidate(rec: Record, foods: seq<Record>, scores: seq<real>, minConfidence: real)
    requires |scores| == |foods|
  {
    exists i :: 0 <= i < |foods| && scores[i] >= minConfidence && rec == foods[i]["match_score" := JFloat(scores[i])]
  }

  /** The copies of the given candidates, each carrying its `match_score`. */
  function Stamped(foods: seq<Record>, scores: seq<real>, xs: seq<nat>): (r: seq<Record>)
    requires |scores| == |foods| && InRange(scores, xs)
    ensures |r| == |xs|
    ensures forall k :: 0 <= k < |xs| ==> r[k] == foods[xs[k]]["match_score" := JFloat(scores[xs[k]])]
  {
    seq(|xs|, k requires 0 <= k < |xs| => foods[xs[k]]["match_score" := JFloat(scores[xs[k]])])
  }

  /** A food scoring at least `minConfidence` whose copy is not among
      `r` scores no more than any of them. */
  predicate OthersScoreNoHigher(foods: seq<Record>, scores: seq<real>, minConfidence: real, r: seq<Record>)
    requires |scores| == |foods|
    requires forall k :: 0 <= k < |r| ==> "match_score" in r[k] && r[k]["match_score"].JFloat?
  {
    forall i, k ::
      (0 <= i < |foods| && scores[i] >= minConfidence && 0 <= k < |r| &&
       foods[i]["match_score" := JFloat(scores[i])] !in r) ==>
      r[k]["match_score"].f >= scores[i]
  }

  /** What stamping scores on the beginning of the ranking yields. */
  lemma StampedLeading(foods: seq<Record>, scores: seq<real>, minConfidence: real, top: seq<nat>)
    requires |scores| == |foods| && LeadingCandidates(scores, minConfidence, top)
    ensures var r := Stamped(foods, scores, top);
      (forall k :: 0 <= k < |r| ==> CopyOfCandidate(r[k], foods, scores, minConfidence)) &&
      (forall k :: 0 <= k < |r| ==> "match_score" in r[k] && r[k]["match_score"].JFloat?) &&
      (forall k :: 0 < k < |r| ==> r[k - 1]["match_score"].f >= r[k]["match_score"].f) &&
      OthersScoreNoHigher(foods, scores, minConfidence, r)
  {
    var r := Stamped(foods, scores, top);
    forall k | 0 <= k < |r|
      ensures CopyOfCandidate(r[k], foods, scores, minConfidence)
    {
      assert r[k] == foods[top[k]]["match_score" := JFloat(scores[top[k]])];
    }
    forall k | 0 < k < |r|
      ensures r[k - 1]["match_score"].f >= r[k]["match_score"].f
    {
      assert Precedes(scores, top[k - 1], top[k]);
    }
    forall i, k | 0 <= i < |foods| && scores[i] >= minConfidence && 0 <= k < |r| &&
      foods[i]["match_score" := JFloat(scores[i])] !in r
      ensures r[k]["match_score"].f >= scores[i]
    {
      assert Precedes(scores, top[k], i);
    }
  }

  /** The selection and ordering of `find_best_matches`, given each food's
      score: copies of the foods scoring at least `minConfidence`, each
      carrying its `match_score`, best first with ties in input order, as
      many as `scored_matches[:limit]` keeps. */
  function TopMatches(foods: seq<Record>, scores: seq<real>, limit: Option<int>, minConfidence: real)
    : (r: seq<Record>)
    requires |scores| == |foods|
    ensures r == Stamped(foods, scores, TopPositions(scores, limit, minConfidence))
    ensures |r| == SliceLength(Count(scores, Reaches(minConfidence)), limit)
    ensures forall k :: 0 <= k < |r| ==> CopyOfCandidate(r[k], foods, scores, minConfidence)
    ensures forall k :: 0 <= k < |r| ==> "match_score" in r[k] && r[k]["match_score"].JFloat?
    ensures forall k :: 0 < k < |r| ==> r[k - 1]["match_score"].f >= r[k]["match_score"].f
    ensures OthersScoreNoHigher(foods, scores, minConfidence, r)
  {
    var top := TopPositions(scores, limit, minConfidence);
    StampedLeading(foods, scores, minConfidence, top);
    Stamped(foods, scores, top)
  }

  /** With every score at most 1, each match's score lies between the
      floor and 1. */
  lemma TopScoresInRange(foods: seq<Record>, scores: seq<real>, limit: Option<int>, minConfidence: real)
    requires |scores| == |foods| && forall i :: 0 <= i < |scores| ==> scores[i] <= 1.0
    ensures var r := TopMatches(foods, scores, limit, minConfidence);
      forall k :: 0 <= k < |r| ==>
        "match_score" in r[k] && r[k]["match_score"].JFloat? && minConfidence <= r[k]["match_score"].f <= 1.0
  {
    var r: seq<Record> := TopMatches(foods, scores, limit, minConfidence);
    forall k | 0 <= k < |r|
      ensures "match_score" in r[k] && r[k]["match_score"].JFloat? && minConfidence <= r[k]["match_score"].f <= 1.0
    {
      assert CopyOfCandidate(r[k], foods, scores, minConfidence);
      var i :| 0 <= i < |foods| && scores[i] >= minConfidence && r[k] == foods[i]["match_score" := JFloat(scores[i])];
    }
  }

  /** Without a limit every qualifying food is among the matches. */
  lemma NoLimitKeepsAll(foods: seq<Record>, scores: seq<real>, minConfidence: real, i: nat)
    requires |scores| == |foods| && i < |foods| && scores[i] >= minConfidence
    ensures foods[i]["match_score" := JFloat(scores[i])] in TopMatches(foods, scores, None, minConfidence)
  {
    var top := TopPositions(scores, None, minConfidence);
    var ranked := RankedCandidates(scores, minConfidence);
    assert top == ranked;
    assert i in ranked;
    var k :| 0 <= k < |top| && top[k] == i;
    assert TopMatches(foods, scores, None, minConfidence)[k] == foods[i]["match_score" := JFloat(scores[i])];
  }

  /** Each food's `calculate_match_score` against the ingredient, for a
      table whose descriptions are all strings. */
  function Scores(ingredient: string, foods: seq<Record>, ratio: Similarity): (r: seq<real>)
    requires ValidStore(foods)
    ensures |r| == |foods|
    ensures forall i :: 0 <= i < |r| ==> 0.0 <= r[i] <= 1.0
  {
    seq(|foods|, i requires 0 <= i < |foods| && HasDescription(foods[i]) =>
      MatchScore(ingredient, Description(foods[i]), ratio))
  }

  /** `find_best_matches(ingredient, foods, limit)` with the matcher's
      confidence floor `minConfidence`. The loop reads each food's
      description first, so the first food without a string description
      makes the call raise; a `limit` that is not a slice bound makes the
      final slice raise. */
  function FindBestMatches(ingredient: string, foods: seq<Record>, limit: Json,
                           minConfidence: real, ratio: Similarity): (r: Result<seq<Record>, PyError>)
    ensures r.Err? <==> !ValidStore(foods) || SliceBound(limit).Err?
    ensures !ValidStore(foods) ==> r == Err(FirstFailure(foods, DescriptionError).value)
    ensures ValidStore(foods) && r.Ok? ==>
      r.value == TopMatches(foods, Scores(ingredient, foods, ratio), SliceBound(limit).value, minConfidence)
    ensures r.Ok? ==> forall k :: 0 <= k < |r.value| ==>
      "match_score" in r.value[k] && r.value[k]["match_score"].JFloat? &&
      minConfidence <= r.value[k]["match_score"].f <= 1.0
    ensures r.Ok? ==> forall k :: 0 < k < |r.value| ==> r.value[k - 1]["match_score"].f >= r.value[k]["match_score"].f
  {
    match FirstFailure(foods, DescriptionError)
    case Some(e) => Err(e)
    case None =>
      var bound :- SliceBound(limit);
      var scores := Scores(ingredient, foods, ratio);
      TopScoresInRange(foods, scores, bound, minConfidence);
      Ok(TopMatches(foods, scores, bound, minConfidence))
  }

  /** A successful call returns the best matches: as many as the slice
      keeps of the foods reaching the floor, each a copy of such a food
      with its score, and no qualifying food left out scores higher than
      one kept. */
  lemma BestMatchesLead(ingredient: string, foods: seq<Record>, limit: Json, minConfidence: real, ratio: Similarity)
    requires FindBestMatches(ingredient, foods, limit, minConfidence, ratio).Ok?
    ensures ValidStore(foods) && SliceBound(limit).Ok?
    ensures var scores := Scores(ingredient, foods, ratio);
      var r := FindBestMatches(ingredient, foods, limit, minConfidence, ratio).value;
      |r| == SliceLength(Count(scores, Reaches(minConfidence)), SliceBound(limit).value) &&
      (forall k :: 0 <= k < |r| ==> CopyOfCandidate(r[k], foods, scores, minConfidence)) &&
      OthersScoreNoHigher(foods, scores, minConfidence, r)
  {
  }

  // ---------------------------------------------------------------------
  // Search variations

  /** `get_search_variations`: the input itself, then for exactly two
      words the swapped pair, then for two or more words each word on its
      own. */
  function SearchVariations(ingredient: string): (r: seq<string>)
    ensures |r| >= 1 && r[0] == ingredient
    ensures var n := |Split(ingredient)|; |r| == (if n == 2 then 4 else if n > 2 then n + 1 else 1)
    ensures |Split(ingredient)| >= 2 ==> r[|r| - |Split(ingredient)|..] == Split(ingredient)
  {
    var words := Split(ingredient);
    if |words| == 2 then [ingredient, Join([words[1], words[0]], " ")] + words
    else if |words| > 1 then [ingredient] + words
    else [ingredient]
  }

  lemma SwappedPairSplits(ws: seq<string>)
    requires |ws| == 2 && IsToken(ws[0]) && IsToken(ws[1])
    ensures Split(Join([ws[1], ws[0]], " ")) == [ws[1], ws[0]]
  {
    SplitJoin([ws[1], ws[0]]);
  }

  /** For a two-word name the second variation is the two words swapped. */
  lemma SecondVariationSwaps(ingredient: string)
    requires |Split(ingredient)| == 2
    ensures Split(SearchVariations(ingredient)[1]) == [Split(ingredient)[1], Split(ingredient)[0]]
  {
    SwappedPairSplits(Split(ingredient));
  }
}
