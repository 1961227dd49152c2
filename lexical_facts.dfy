/**
 * What the scanners of module Lexical promise: normalisation is idempotent,
 * `re.search` finds the leftmost match, a labelled value is the greedy number
 * at the first digit after the leftmost label, and the coordinate scan reads
 * back, in order, every point written in the `(x,y)` / `(x,y,z)` notation.
 */
module LexicalFacts {
  import opened Wrappers
  import opened Geometry
  import opened Lexical

  // ---------------------------------------------------------------------------
  // Normalisation

  lemma {:induction false} LowerOfLowered(s: string)
    requires IsLowered(s)
    ensures Lower(s) == s
  {
  }

  lemma {:induction false} TrimStartIdempotent(s: string)
    ensures TrimStart(TrimStart(s)) == TrimStart(s)
  {
  }

  lemma {:induction false} LowerIsLowered(s: string)
    ensures IsLowered(Lower(s))
  {
  }

  lemma {:induction false} TrimStartKeepsLowered(t: string)
    requires IsLowered(t)
    ensures IsLowered(TrimStart(t))
  {
    var a := TrimStart(t);
    forall i | 0 <= i < |a| ensures !('A' <= a[i] <= 'Z') {
      assert a[i] == t[|t| - |a| + i];
    }
  }

  lemma {:induction false} TrimEndKeepsLowered(t: string)
    requires IsLowered(t)
    ensures IsLowered(TrimEnd(t))
  {
    var b := TrimEnd(t);
    forall i | 0 <= i < |b| ensures !('A' <= b[i] <= 'Z') {
      assert b[i] == t[i];
    }
  }

  /** The normalised text has no ASCII capital and no white space at either end. */
  lemma {:induction false} NormalizeShape(s: string)
    ensures IsLowered(Normalize(s))
    ensures Normalize(s) != [] ==> !IsSpace(Normalize(s)[0]) && !IsSpace(Normalize(s)[|Normalize(s)| - 1])
  {
    var t := TrimStart(Lower(s));
    LowerIsLowered(s);
    TrimStartKeepsLowered(Lower(s));
    TrimEndKeepsLowered(t);
    var r := TrimEnd(t);
    assert r == Normalize(s);
    if r != [] {
      assert r[0] == t[0];
    }
  }

  /** Text without white space at its start is left alone by `TrimStart`. */
  lemma TrimStartOfClean(s: string)
    requires s != [] ==> !IsSpace(s[0])
    ensures TrimStart(s) == s
  {
  }

  /** Text without white space at its end is left alone by `TrimEnd`. */
  lemma TrimEndOfClean(s: string)
    requires s != [] ==> !IsSpace(s[|s| - 1])
    ensures TrimEnd(s) == s
  {
  }

  /** Text with no ASCII capital and no white space at either end is its own normal form. */
  lemma {:induction false} CleanIsNormalized(s: string)
    requires IsLowered(s) && (s != [] ==> !IsSpace(s[0]) && !IsSpace(s[|s| - 1]))
    ensures Normalize(s) == s
  {
    LowerOfLowered(s);
    TrimStartOfClean(s);
    TrimEndOfClean(s);
  }

  /** A text is its own normal form exactly when it has no ASCII capital and no white space at either end. */
  lemma {:induction false} NormalizedIff(s: string)
    ensures Normalize(s) == s <==> IsLowered(s) && (s != [] ==> !IsSpace(s[0]) && !IsSpace(s[|s| - 1]))
  {
    if IsLowered(s) && (s != [] ==> !IsSpace(s[0]) && !IsSpace(s[|s| - 1])) {
      CleanIsNormalized(s);
    } else {
      NormalizeShape(s);
    }
  }

  /** Normalising twice is normalising once, so `parse_command` ignores a re-normalised input. */
  lemma {:induction false} NormalizeIdempotent(s: string)
    ensures Normalize(Normalize(s)) == Normalize(s)
  {
    NormalizeShape(s);
    NormalizedIff(Normalize(s));
  }

  // ---------------------------------------------------------------------------
  // Substrings

  /** An occurrence of `big` carries with it every occurrence of the words inside `big`. */
  lemma {:induction false} ContainsTransitive(s: string, big: string, small: string)
    requires Contains(s, big) && Contains(big, small)
    ensures Contains(s, small)
  {
    var i :| 0 <= i <= |s| - |big| && ContainsAt(s, big, i);
    var j :| 0 <= j <= |big| - |small| && ContainsAt(big, small, j);
    forall k | 0 <= k < |small| ensures s[i + j + k] == small[k] {
      assert small[k] == big[j..j + |small|][k] == big[j + k];
      assert big[j + k] == s[i..i + |big|][j + k];
    }
    assert s[i + j..i + j + |small|] == small;
    assert ContainsAt(s, small, i + j);
  }

  // ---------------------------------------------------------------------------
  // re.search

  /** A position where `at` succeeds, with no success before it, is what the search returns. */
  lemma {:induction false} SearchFinds<T>(n: nat, p: nat, at: nat -> Option<T>, q: nat)
    requires p <= q <= n && at(q).Some?
    requires forall k :: p <= k < q ==> at(k).None?
    ensures SearchFrom(n, p, at) == at(q)
    decreases q - p
  {
    if p < q {
      SearchFinds(n, p + 1, at, q);
    }
  }

  /** A search that succeeds stopped at the leftmost position where `at` succeeds. */
  lemma {:induction false} SearchFound<T>(n: nat, p: nat, at: nat -> Option<T>)
    requires SearchFrom(n, p, at).Some?
    ensures exists q :: p <= q <= n && at(q) == SearchFrom(n, p, at) && forall k :: p <= k < q ==> at(k).None?
    decreases n + 1 - p
  {
    if at(p).None? {
      SearchFound(n, p + 1, at);
      var q :| p + 1 <= q <= n && at(q) == SearchFrom(n, p + 1, at) && forall k :: p + 1 <= k < q ==> at(k).None?;
      assert forall k :: p <= k < q ==> at(k).None?;
    }
  }

  /** A search fails exactly when `at` fails at every position. */
  lemma {:induction false} SearchFails<T>(n: nat, p: nat, at: nat -> Option<T>)
    ensures SearchFrom(n, p, at).None? <==> forall q :: p <= q <= n ==> at(q).None?
    decreases n + 1 - p
  {
    if p <= n {
      SearchFails(n, p + 1, at);
    }
  }

  // ---------------------------------------------------------------------------
  // Labelled numbers

  /** The first digit at or after `k`, or |s| when there is none. */
  function FirstDigitFrom(s: string, k: nat): (j: nat)
    requires k <= |s|
    ensures k <= j <= |s|
    ensures forall i :: k <= i < j ==> !IsDigit(s[i])
    ensures j < |s| ==> IsDigit(s[j])
    decreases |s| - k
  {
    if k < |s| && !IsDigit(s[k]) then FirstDigitFrom(s, k + 1) else k
  }

  /**
   * What a label pattern reads when the first digit after the label end `k`
   * is at `j`: the greedy literal at `j`, negated when the pattern allows a
   * sign and the character just before `j` (after the label) is `-`.
   */
  function NumberAtDigit(s: string, k: nat, j: nat, signed: bool): real
    requires k <= j < |s| && IsDigit(s[j])
  {
    var u := UnsignedAt(s, j).value.number;
    if signed && k < j && s[j - 1] == '-' then -u else u
  }

  /** The lazy `[^\d]*?` scan stops at the first digit, taking a `-` just before it. */
  lemma {:induction false} LazyNumberReadsFirstDigit(s: string, k: nat, signed: bool)
    requires k <= |s|
    ensures LazyNumberFrom(s, k, signed) ==
      (var j := FirstDigitFrom(s, k); if j == |s| then None else Some(NumberAtDigit(s, k, j, signed)))
    decreases |s| - k
  {
    if k < |s| && !IsDigit(s[k]) {
      LazyNumberReadsFirstDigit(s, k + 1, signed);
    }
  }

  /** Some label starts at `p` and a digit follows its end. */
  predicate LabelWithDigitAt(s: string, labels: seq<string>, p: nat) {
    exists i :: 0 <= i < |labels| && ContainsAt(s, labels[i], p) && FirstDigitFrom(s, p + |labels[i]|) < |s|
  }

  /** Label `word` starts at `p`, a digit follows it, and the number read there is `v`. */
  predicate AlternativeReads(s: string, word: string, p: nat, signed: bool, v: real) {
    ContainsAt(s, word, p) && FirstDigitFrom(s, p + |word|) < |s|
    && v == NumberAtDigit(s, p + |word|, FirstDigitFrom(s, p + |word|), signed)
  }

  /** A label alternative that matches at `p` reads the number at the first digit after it. */
  lemma {:induction false} NumberAfterLabelReads(s: string, labels: seq<string>, p: nat, signed: bool)
    requires LabelAt(s, labels, p, LazyNumber(s, signed)).Some?
    ensures exists i ::
              0 <= i < |labels| && AlternativeReads(s, labels[i], p, signed, LabelAt(s, labels, p, LazyNumber(s, signed)).value)
  {
    var v := LabelAt(s, labels, p, LazyNumber(s, signed)).value;
    var k := p + |labels[0]|;
    if ContainsAt(s, labels[0], p) && LazyNumber(s, signed)(k).Some? {
      LazyNumberReadsFirstDigit(s, k, signed);
      assert AlternativeReads(s, labels[0], p, signed, v);
    } else {
      NumberAfterLabelReads(s, labels[1..], p, signed);
      var i :| 0 <= i < |labels[1..]| && AlternativeReads(s, labels[1..][i], p, signed, v);
      assert labels[1..][i] == labels[i + 1];
    }
  }

  /** A label followed by a digit makes the alternatives at `p` match. */
  lemma {:induction false} LabelWithDigitMatches(s: string, labels: seq<string>, p: nat, signed: bool, i: nat)
    requires i < |labels| && ContainsAt(s, labels[i], p) && FirstDigitFrom(s, p + |labels[i]|) < |s|
    ensures LabelAt(s, labels, p, LazyNumber(s, signed)).Some?
  {
    var k := p + |labels[0]|;
    if i == 0 {
      LazyNumberReadsFirstDigit(s, k, signed);
    } else if !(ContainsAt(s, labels[0], p) && LazyNumber(s, signed)(k).Some?) {
      assert labels[i] == labels[1..][i - 1];
      LabelWithDigitMatches(s, labels[1..], p, signed, i - 1);
    }
  }

  /** The alternatives match at `p` exactly when some label there is followed by a digit. */
  lemma NumberAfterLabelIff(s: string, labels: seq<string>, p: nat, signed: bool)
    ensures NumberAfterLabel(s, labels, signed)(p).Some? <==> LabelWithDigitAt(s, labels, p)
  {
    if LabelAt(s, labels, p, LazyNumber(s, signed)).Some? {
      NumberAfterLabelReads(s, labels, p, signed);
    }
    if LabelWithDigitAt(s, labels, p) {
      var i :| 0 <= i < |labels| && ContainsAt(s, labels[i], p) && FirstDigitFrom(s, p + |labels[i]|) < |s|;
      LabelWithDigitMatches(s, labels, p, signed, i);
    }
  }

  /** Where `NumberAfterLabel` succeeds: exactly at a label followed, anywhere later, by a digit. */
  lemma {:induction false} NumberAfterLabelWhere(s: string, labels: seq<string>, signed: bool)
    ensures forall p :: 0 <= p <= |s| ==>
      (NumberAfterLabel(s, labels, signed)(p).Some? <==> LabelWithDigitAt(s, labels, p))
  {
    forall p | 0 <= p <= |s|
      ensures NumberAfterLabel(s, labels, signed)(p).Some? <==> LabelWithDigitAt(s, labels, p)
    {
      NumberAfterLabelIff(s, labels, p, signed);
    }
  }

  /**
   * `re.search(r'(?:labels)[^\d]*?(-?\d+\.?\d*)', s)` succeeds iff some label
   * is followed, anywhere later, by a digit.
   */
  lemma {:induction false} LabelledNumberFound(s: string, labels: seq<string>, signed: bool)
    ensures LabelledNumber(s, labels, signed).Some? <==> exists p :: 0 <= p <= |s| && LabelWithDigitAt(s, labels, p)
  {
    NumberAfterLabelWhere(s, labels, signed);
    SearchFails(|s|, 0, NumberAfterLabel(s, labels, signed));
  }

  /**
   * When it succeeds, its value is read at the first digit after the leftmost
   * label so followed.
   */
  lemma {:induction false} LabelledNumberValue(s: string, labels: seq<string>, signed: bool)
    requires LabelledNumber(s, labels, signed).Some?
    ensures exists p, i ::
      0 <= p <= |s| && 0 <= i < |labels| &&
      AlternativeReads(s, labels[i], p, signed, LabelledNumber(s, labels, signed).value) &&
      forall q :: 0 <= q < p ==> !LabelWithDigitAt(s, labels, q)
  {
    var at := NumberAfterLabel(s, labels, signed);
    NumberAfterLabelWhere(s, labels, signed);
    SearchFound(|s|, 0, at);
    var p :| 0 <= p <= |s| && at(p) == SearchFrom(|s|, 0, at) && forall k :: 0 <= k < p ==> at(k).None?;
    NumberAfterLabelReads(s, labels, p, signed);
  }
}
