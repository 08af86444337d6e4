/**
 * The text inspections in graph.py: lower-casing, the `\b(\d+)\b` scan for
 * numbers, the space-bounded keyword test, substring tests, and the greedy
 * `\{.*\}` search (with DOTALL) that cuts the JSON object out of the
 * language model's reply.
 *
 * Character classes are those of Python's `re` and `str.lower` on the Latin-1
 * range: `\d` is an ASCII digit; `\w` is an ASCII letter or digit, `_`, a
 * Latin-1 letter, or a Latin-1 numeric (the superscripts ², ³, ¹ and the
 * fractions ¼, ½, ¾); `lower()` maps ASCII and Latin-1 capitals.
 */
module QueryText {
  import opened Wrappers
  import opened PyValues

  function LowerChar(c: char): char
  {
    if 'A' <= c <= 'Z' || ('\U{C0}' <= c <= '\U{DE}' && c != '\U{D7}') then (c as int + 32) as char
    else c
  }

  /** `s.lower()` */
  function Lower(s: string): string
  {
    seq(|s|, i requires 0 <= i < |s| => LowerChar(s[i]))
  }

  /** The characters `\w` matches. */
  predicate IsWordChar(c: char)
  {
    || IsDigit(c)
    || 'a' <= c <= 'z'
    || 'A' <= c <= 'Z'
    || c == '_'
    || c == '\U{AA}' || c == '\U{B5}' || c == '\U{BA}'
    || c == '\U{B2}' || c == '\U{B3}' || c == '\U{B9}' || ('\U{BC}' <= c <= '\U{BE}')
    || ('\U{C0}' <= c <= '\U{FF}' && c != '\U{D7}' && c != '\U{F7}')
  }

  /** s[i..j] is a match of `\b(\d+)\b`: a digit run with no word character on either side. */
  predicate IsNumberToken(s: string, i: int, j: int)
  {
    && 0 <= i < j <= |s|
    && (forall k :: i <= k < j ==> IsDigit(s[k]))
    && (i == 0 || !IsWordChar(s[i - 1]))
    && (j == |s| || !IsWordChar(s[j]))
  }

  /** The end of the run of digits that starts at i. */
  function DigitRunEnd(s: string, i: nat): (j: nat)
    requires i <= |s|
    ensures i <= j <= |s|
    ensures forall k :: i <= k < j ==> IsDigit(s[k])
    ensures j == |s| || !IsDigit(s[j])
    decreases |s| - i
  {
    if i < |s| && IsDigit(s[i]) then DigitRunEnd(s, i + 1) else i
  }

  /** A token can only end where its digit run ends. */
  lemma TokenEndsAtRunEnd(s: string, i: nat, j: int)
    requires i <= |s|
    ensures IsNumberToken(s, i, j) ==> j == DigitRunEnd(s, i)
  {
  }

  /**
   * The leftmost match of `\b(\d+)\b` that starts at or after `from`,
   * scanning left to right as `re.findall` does.
   */
  function NumberTokenFrom(s: string, from: nat): (r: Option<(nat, nat)>)
    requires from <= |s|
    ensures r.Some? ==> from <= r.value.0 && IsNumberToken(s, r.value.0, r.value.1)
    ensures r.Some? ==> forall i, j :: from <= i < r.value.0 ==> !IsNumberToken(s, i, j)
    ensures r.None? ==> forall i, j :: from <= i ==> !IsNumberToken(s, i, j)
    decreases |s| - from
  {
    if from == |s| then None
    else
      var j := DigitRunEnd(s, from);
      if IsDigit(s[from]) && (from == 0 || !IsWordChar(s[from - 1])) && (j == |s| || !IsWordChar(s[j])) then
        Some((from, j))
      else
        assert forall j' :: !IsNumberToken(s, from, j') by {
          forall j' ensures IsNumberToken(s, from, j') ==> j' == j {
            TokenEndsAtRunEnd(s, from, j');
          }
        }
        NumberTokenFrom(s, from + 1)
  }

  /** `int(re.findall(r'\b(\d+)\b', s)[0])`, or None when there is no match. */
  function FirstNumber(s: string): (r: Option<nat>)
    ensures r.Some? <==> exists i, j :: IsNumberToken(s, i, j)
    ensures r.Some? ==> exists i, j :: && IsNumberToken(s, i, j)
                                        && (forall i', j' :: 0 <= i' < i ==> !IsNumberToken(s, i', j'))
                                        && AllDigits(s[i..j]) && r.value == DecimalValue(s[i..j])
  {
    match NumberTokenFrom(s, 0)
    case None => None
    case Some((i, j)) =>
      assert AllDigits(s[i..j]) by {
        forall k | 0 <= k < j - i ensures IsDigit(s[i..j][k]) {
          assert s[i..j][k] == s[i + k];
        }
      }
      Some(DecimalValue(s[i..j]))
  }

  /** sub occurs in s at position i. */
  predicate OccursAt(s: string, sub: string, i: int)
  {
    0 <= i && i + |sub| <= |s| && s[i..i + |sub|] == sub
  }

  /** `sub in s` */
  predicate Contains(s: string, sub: string)
  {
    exists i | 0 <= i <= |s| - |sub| :: OccursAt(s, sub, i)
  }

  /** `s.startswith(p)` */
  predicate StartsWith(s: string, p: string)
  {
    |p| <= |s| && s[..|p|] == p
  }

  /** `s.endswith(p)` */
  predicate EndsWith(s: string, p: string)
  {
    |p| <= |s| && s[|s| - |p|..] == p
  }

  /** The keyword test of graph.py:194-196, as written, on the lower-cased query q. */
  predicate KeywordTest(q: string, kw: string)
  {
    || Contains(" " + q + " ", " " + kw + " ")
    || StartsWith(q, kw + " ")
    || EndsWith(q, " " + kw)
  }

  /** kw occurs in q at position i with a space or an end of q on each side. */
  predicate WordAt(q: string, kw: string, i: int)
  {
    && OccursAt(q, kw, i)
    && (i == 0 || q[i - 1] == ' ')
    && (i + |kw| == |q| || q[i + |kw|] == ' ')
  }

  predicate IsSpaceBoundedWord(q: string, kw: string)
  {
    exists i | 0 <= i <= |q| - |kw| :: WordAt(q, kw, i)
  }

  lemma PaddedOccurrence(q: string, kw: string, p: int)
    ensures OccursAt(" " + q + " ", " " + kw + " ", p) <==> WordAt(q, kw, p)
  {
    var padded, word := " " + q + " ", " " + kw + " ";
    assert forall x :: 1 <= x <= |q| ==> padded[x] == q[x - 1];
    if OccursAt(padded, word, p) {
      assert padded[p] == ' ' && padded[p + |kw| + 1] == ' ';
      assert forall x :: 0 <= x < |kw| ==> padded[p + 1 + x] == word[1 + x] == kw[x];
      assert q[p..p + |kw|] == kw;
    }
    if WordAt(q, kw, p) {
      assert forall x :: 0 <= x < |word| ==> padded[p + x] == word[x];
      assert padded[p..p + |word|] == word;
    }
  }

  /**
   * The startswith and endswith disjuncts of the keyword test add nothing:
   * the test holds exactly when the keyword is a space-bounded word of the query.
   */
  lemma KeywordTestIsSpaceBoundedWord(q: string, kw: string)
    ensures KeywordTest(q, kw) <==> IsSpaceBoundedWord(q, kw)
  {
    var padded, word := " " + q + " ", " " + kw + " ";
    if Contains(padded, word) {
      var p :| 0 <= p <= |padded| - |word| && OccursAt(padded, word, p);
      PaddedOccurrence(q, kw, p);
    }
    if StartsWith(q, kw + " ") {
      assert q[..|kw| + 1] == kw + " ";
      assert q[0..|kw|] == kw;
      assert WordAt(q, kw, 0);
    }
    if EndsWith(q, " " + kw) {
      var i := |q| - |kw|;
      assert q[i - 1..] == " " + kw;
      assert q[i..i + |kw|] == kw;
      assert WordAt(q, kw, i);
    }
    if IsSpaceBoundedWord(q, kw) {
      var i :| 0 <= i <= |q| - |kw| && WordAt(q, kw, i);
      PaddedOccurrence(q, kw, i);
    }
  }

  /** The position of the first c in s. */
  function FirstIndexOf(s: string, c: char): (r: Option<nat>)
    ensures r.Some? ==> r.value < |s| && s[r.value] == c
    ensures r.Some? ==> forall k :: 0 <= k < r.value ==> s[k] != c
    ensures r.None? ==> forall k :: 0 <= k < |s| ==> s[k] != c
  {
    if s == [] then None
    else if s[0] == c then Some(0)
    else
      match FirstIndexOf(s[1..], c)
      case None =>
        assert forall k :: 1 <= k < |s| ==> s[k] == s[1..][k - 1];
        None
      case Some(i) =>
        assert forall k :: 1 <= k < |s| ==> s[k] == s[1..][k - 1];
        Some(i + 1)
  }

  /** The position of the last c in s. */
  function LastIndexOf(s: string, c: char): (r: Option<nat>)
    ensures r.Some? ==> r.value < |s| && s[r.value] == c
    ensures r.Some? ==> forall k :: r.value < k < |s| ==> s[k] != c
    ensures r.None? ==> forall k :: 0 <= k < |s| ==> s[k] != c
  {
    if s == [] then None
    else if s[|s| - 1] == c then Some(|s| - 1)
    else LastIndexOf(s[..|s| - 1], c)
  }

  /** An opening brace at i and a closing brace at j after it. */
  predicate BraceSpan(s: string, i: int, j: int)
  {
    0 <= i < j < |s| && s[i] == '{' && s[j] == '}'
  }

  /**
   * `re.search(r'\{.*\}', s, re.DOTALL).group()`: the text from the first `{`
   * to the last `}`, or None when no `}` follows a `{`.
   */
  function SearchJsonObject(s: string): (r: Option<string>)
    ensures r.Some? <==> exists i, j :: BraceSpan(s, i, j)
    ensures r.Some? ==> exists i, j :: && BraceSpan(s, i, j) && r.value == s[i..j + 1]
                                        && (forall k :: 0 <= k < i ==> s[k] != '{')
                                        && (forall k :: j < k < |s| ==> s[k] != '}')
  {
    var first, last := FirstIndexOf(s, '{'), LastIndexOf(s, '}');
    if first.Some? && last.Some? && first.value < last.value then
      assert BraceSpan(s, first.value, last.value);
      Some(s[first.value..last.value + 1])
    else
      assert forall i, j :: !BraceSpan(s, i, j) by {
        forall i, j ensures BraceSpan(s, i, j) ==> first.Some? && first.value <= i && last.Some? && j <= last.value {
        }
      }
      None
  }
}
