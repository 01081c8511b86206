/**
 * Words of a text: the maximal runs of non-whitespace characters, which is
 * what both `str.split()` without arguments and `re.findall(r"\S+", text)`
 * return.  The three document generators count and clamp words with these.
 */
module TextWords {
  import opened Common

  predicate NoSpace(w: string)
  {
    forall i :: 0 <= i < |w| ==> !IsSpace(w[i])
  }

  /** A word as `split()` produces it: non-empty, without whitespace. */
  predicate IsWord(w: string)
  {
    w != [] && NoSpace(w)
  }

  /** Length of the run of non-whitespace characters at the start of `s`. */
  function WordLength(s: string): (n: nat)
    ensures n <= |s|
    ensures s != [] && !IsSpace(s[0]) ==> n >= 1
  {
    if s != [] && !IsSpace(s[0]) then 1 + WordLength(s[1..]) else 0
  }

  /** `WordLength` measures exactly the non-whitespace run at the front. */
  lemma {:induction false} WordLengthSpec(s: string)
    ensures forall i :: 0 <= i < WordLength(s) ==> !IsSpace(s[i])
    ensures WordLength(s) < |s| ==> IsSpace(s[WordLength(s)])
  {
    if s != [] && !IsSpace(s[0]) {
      WordLengthSpec(s[1..]);
    }
  }

  /** `s.split()`: the maximal non-whitespace runs of `s`, in order. */
  function Words(s: string): seq<string>
    decreases |s|
  {
    var t := LStrip(s);
    if t == [] then []
    else
      var n := WordLength(t);
      [t[..n]] + Words(t[n..])
  }

  /** Every element of `Words(s)` is a word. */
  lemma {:induction false} WordsAreWords(s: string)
    ensures forall i :: 0 <= i < |Words(s)| ==> IsWord(Words(s)[i])
    decreases |s|
  {
    var t := LStrip(s);
    if t != [] {
      var n := WordLength(t);
      LeadingSpacesSpec(s);
      WordLengthSpec(t);
      WordsAreWords(t[n..]);
    }
  }

  /** `len(re.findall(r"\S+", text))`. */
  function WordCount(s: string): nat
  {
    |Words(s)|
  }

  lemma {:induction false} LeadingSpacesConcat(a: string, b: string)
    ensures LeadingSpaces(a) < |a| ==> LeadingSpaces(a + b) == LeadingSpaces(a)
    ensures LeadingSpaces(a) == |a| ==> LeadingSpaces(a + b) == |a| + LeadingSpaces(b)
    decreases |a|
  {
    if a != [] && IsSpace(a[0]) {
      LeadingSpacesConcat(a[1..], b);
      assert (a + b)[1..] == a[1..] + b;
    } else if a == [] {
      assert a + b == b;
    }
  }

  lemma {:induction false} WordLengthConcat(a: string, b: string)
    ensures WordLength(a) < |a| ==> WordLength(a + b) == WordLength(a)
    ensures WordLength(a) == |a| ==> WordLength(a + b) == |a| + WordLength(b)
    decreases |a|
  {
    if a != [] && !IsSpace(a[0]) {
      WordLengthConcat(a[1..], b);
      assert (a + b)[1..] == a[1..] + b;
    } else if a == [] {
      assert a + b == b;
    }
  }

  /** A blank text has no words. */
  lemma {:induction false} BlankHasNoWords(s: string)
    requires IsBlank(s)
    ensures Words(s) == []
  {
    LeadingSpacesSpec(s);
    assert LeadingSpaces(s) == |s|;
  }

  /** One unfolding of `Words`. */
  lemma {:induction false} WordsStep(s: string)
    ensures LStrip(s) == [] ==> Words(s) == []
    ensures LStrip(s) != [] ==>
      Words(s) == [LStrip(s)[..WordLength(LStrip(s))]] + Words(LStrip(s)[WordLength(LStrip(s))..])
  {
  }

  /** One unfolding of `Words`, with the stripped text and its first word's length named. */
  lemma {:induction false} WordsUnfold(s: string, u: string, n: nat)
    requires u == LStrip(s) && u != [] && n == WordLength(u)
    ensures Words(s) == [u[..n]] + Words(u[n..])
  {
  }

  /** Cutting `t + b` inside `t`. */
  lemma {:induction false} SliceAppend(t: string, b: string, n: nat)
    requires n <= |t|
    ensures (t + b)[..n] == t[..n]
    ensures (t + b)[n..] == t[n..] + b
  {
    assert (t + b)[..n] == t[..n];
    assert (t + b)[n..] == t[n..] + b;
  }

  /** Leading whitespace contributes no words. */
  lemma {:induction false} WordsBlankPrefix(a: string, b: string)
    requires IsBlank(a)
    ensures Words(a + b) == Words(b)
  {
    LeadingSpacesSpec(a);
    LeadingSpacesConcat(a, b);
    var x := a + b;
    assert LeadingSpaces(x) == |a| + LeadingSpaces(b);
    assert x[|a| + LeadingSpaces(b)..] == b[LeadingSpaces(b)..];
    assert LStrip(x) == LStrip(b);
    WordsStep(x);
    WordsStep(b);
  }

  /** The first word of `t + b` is the first word of `t`, when `t` starts with one. */
  lemma {:induction false} FirstWordConcat(a: string, b: string)
    requires a == [] || b == [] || IsSpace(a[|a| - 1]) || IsSpace(b[0])
    requires LeadingSpaces(a) < |a|
    ensures LStrip(a + b) == LStrip(a) + b
    ensures WordLength(LStrip(a) + b) == WordLength(LStrip(a))
  {
    var k := LeadingSpaces(a);
    LeadingSpacesConcat(a, b);
    var t := a[k..];
    assert (a + b)[k..] == t + b;
    var n := WordLength(t);
    LeadingSpacesSpec(a);
    WordLengthSpec(t);
    WordLengthConcat(t, b);
    if n == |t| && b != [] {
      assert a[|a| - 1] == t[n - 1];
    }
  }

  /** `WordsConcat` when `a` is blank. */
  lemma {:induction false} WordsConcatBlank(a: string, b: string)
    requires LeadingSpaces(a) == |a|
    ensures Words(a + b) == Words(a) + Words(b)
  {
    LeadingSpacesSpec(a);
    WordsBlankPrefix(a, b);
    WordsStep(a);
  }

  /** Peeling the first word off `a + b` leaves the rest of `a`, followed by `b`. */
  lemma {:induction false} FirstWordPeel(a: string, b: string, t: string, n: nat)
    requires a == [] || b == [] || IsSpace(a[|a| - 1]) || IsSpace(b[0])
    requires LeadingSpaces(a) < |a|
    requires t == LStrip(a) && n == WordLength(t)
    ensures Words(a + b) == [t[..n]] + Words(t[n..] + b)
  {
    FirstWordConcat(a, b);
    WordsUnfold(a + b, t + b, n);
    SliceAppend(t, b, n);
  }

  /** `WordsConcat` when `a` holds a word: peel that word off and recurse. */
  lemma {:induction false} WordsConcatWord(a: string, b: string)
    requires a == [] || b == [] || IsSpace(a[|a| - 1]) || IsSpace(b[0])
    requires LeadingSpaces(a) < |a|
    ensures Words(a + b) == Words(a) + Words(b)
    decreases |a|, 0
  {
    var t := LStrip(a);
    var n := WordLength(t);
    var rest := t[n..];
    FirstWordPeel(a, b, t, n);
    WordsUnfold(a, t, n);
    if rest != [] {
      assert rest[|rest| - 1] == a[|a| - 1];
    }
    WordsConcat(rest, b);
    ConcatAssoc([t[..n]], Words(rest), Words(b));
  }

  /**
   * Words of a concatenation are the words of each part, provided the two
   * parts are separated by whitespace (so no word straddles the seam).
   */
  lemma {:induction false} WordsConcat(a: string, b: string)
    requires a == [] || b == [] || IsSpace(a[|a| - 1]) || IsSpace(b[0])
    ensures Words(a + b) == Words(a) + Words(b)
    decreases |a|, 1
  {
    if LeadingSpaces(a) == |a| {
      WordsConcatBlank(a, b);
    } else {
      WordsConcatWord(a, b);
    }
  }

  /** Two texts joined by a non-empty run of whitespace: the word counts add up. */
  lemma {:induction false} WordCountSeparated(a: string, sep: string, b: string)
    requires sep != [] && IsBlank(sep)
    ensures Words(a + sep + b) == Words(a) + Words(b)
    ensures WordCount(a + sep + b) == WordCount(a) + WordCount(b)
  {
    BlankHasNoWords(sep);
    WordsConcat(a, sep);
    assert Words(a + sep) == Words(a);
    var x := a + sep;
    assert x[|x| - 1] == sep[|sep| - 1];
    WordsConcat(x, b);
    assert Words(x + b) == Words(a) + Words(b);
  }

  /** A single word splits into itself. */
  lemma {:induction false} WordsOfWord(w: string)
    requires IsWord(w)
    ensures Words(w) == [w]
  {
    assert LeadingSpaces(w) == 0;
    assert LStrip(w) == w;
    WordLengthSpec(w);
    assert WordLength(w) == |w|;
    WordsStep(w);
    assert w[..|w|] == w;
    WordsStep(w[|w|..]);
  }

  /** `" ".join(words)` splits back into the same words. */
  lemma {:induction false} WordsOfJoin(ws: seq<string>)
    requires forall i :: 0 <= i < |ws| ==> IsWord(ws[i])
    ensures Words(Join(ws, " ")) == ws
  {
    if ws == [] {
      assert Join(ws, " ") == [];
    } else if |ws| == 1 {
      WordsOfWord(ws[0]);
    } else {
      WordsOfWord(ws[0]);
      WordsOfJoin(ws[1..]);
      WordCountSeparated(ws[0], " ", Join(ws[1..], " "));
    }
  }

  /** Python's `[x] * m`. */
  function Repeat<T>(x: T, m: nat): (r: seq<T>)
    ensures |r| == m
  {
    if m == 0 then [] else [x] + Repeat(x, m - 1)
  }

  lemma {:induction false} MulStep(m: int, c: int)
    ensures c + (m - 1) * c == m * c
  {
  }

  /** `" ".join([text] * m)` has `m` times as many words as `text`. */
  lemma {:induction false} WordCountRepeat(text: string, m: nat)
    requires m >= 1
    ensures WordCount(Join(Repeat(text, m), " ")) == m * WordCount(text)
  {
    if m > 1 {
      var parts := Repeat(text, m);
      var rest := Join(Repeat(text, m - 1), " ");
      assert parts[1..] == Repeat(text, m - 1);
      assert Join(parts, " ") == text + " " + rest;
      WordCountRepeat(text, m - 1);
      WordCountSeparated(text, " ", rest);
      MulStep(m, WordCount(text));
    }
  }
  // ---------------------------------------------------------------------------
  // Word counts of joined parts

  /** `sep.join(parts + [s])` in terms of `sep.join(parts)`. */
  lemma {:induction false} JoinSnoc(parts: seq<string>, s: string, sep: string)
    requires parts != []
    ensures Join(parts + [s], sep) == Join(parts, sep) + sep + s
  {
    if |parts| > 1 {
      assert (parts + [s])[1..] == parts[1..] + [s];
      JoinSnoc(parts[1..], s, sep);
    }
  }

  /** Total number of words in the parts. */
  function SumWords(parts: seq<string>): nat
  {
    if parts == [] then 0 else SumWords(parts[..|parts| - 1]) + WordCount(parts[|parts| - 1])
  }

  /** Parts joined by any whitespace separator have exactly their words, counted together. */
  lemma {:induction false} WordCountJoin(parts: seq<string>, sep: string)
    requires sep != [] && IsBlank(sep)
    ensures WordCount(Join(parts, sep)) == SumWords(parts)
  {
    if |parts| > 1 {
      var front := parts[..|parts| - 1];
      var last := parts[|parts| - 1];
      assert front + [last] == parts;
      JoinSnoc(front, last, sep);
      WordCountJoin(front, sep);
      WordCountSeparated(Join(front, sep), sep, last);
    } else if |parts| == 1 {
      assert parts[..0] == [];
    }
  }

  /** The first `n` words joined by single spaces split back into those words. */
  lemma {:induction false} WordsOfPrefix(s: string, n: nat)
    requires n <= WordCount(s)
    ensures Words(Join(Words(s)[..n], " ")) == Words(s)[..n]
  {
    WordsAreWords(s);
    WordsOfJoin(Words(s)[..n]);
  }

  // ---------------------------------------------------------------------------
  // _ensure_word_count of the dataset generators

  /** `(min_w // n + 1) * n` exceeds `min_w`. */
  lemma {:induction false} PadExceeds(minW: nat, n: nat)
    requires n > 0
    ensures (minW / n + 1) * n > minW
  {
    var q := minW / n;
    assert minW == q * n + minW % n;
    assert (q + 1) * n == q * n + n;
  }

  /**
   * `_ensure_word_count(text, min_w, max_w)`: a text with too few words is
   * repeated `min_w // n + 1` times (n its word count), joined by spaces; a
   * text with too many is cut to its first `max_w` words.  With no words at
   * all and `min_w > 0` the division by `n` fails.
   */
  function EnsureWordCount(text: string, minW: nat, maxW: nat): (r: Result<string, string>)
    ensures r.Err? <==> WordCount(text) == 0 && minW > 0
    ensures minW <= WordCount(text) <= maxW ==> r == Ok(text)
  {
    var words := Words(text);
    if |words| < minW then
      if |words| == 0 then Err("ZeroDivisionError")
      else
        var padded := Join(Repeat(text, minW / |words| + 1), " ");
        var paddedWords := Words(padded);
        if |paddedWords| > maxW then Ok(Join(paddedWords[..maxW], " ")) else Ok(padded)
    else if |words| > maxW then Ok(Join(words[..maxW], " "))
    else Ok(text)
  }

  /** Too many words: the result is exactly the first `max_w` words. */
  lemma {:induction false} EnsureWordCountTruncates(text: string, minW: nat, maxW: nat)
    requires minW <= maxW < WordCount(text)
    ensures EnsureWordCount(text, minW, maxW).Ok?
    ensures Words(EnsureWordCount(text, minW, maxW).value) == Words(text)[..maxW]
  {
    WordsOfPrefix(text, maxW);
  }

  /** Too few words: the result has `min(m * n, max_w)` words, `m * n` being more than `min_w`. */
  lemma {:induction false} EnsureWordCountPads(text: string, minW: nat, maxW: nat)
    requires 0 < WordCount(text) < minW
    ensures EnsureWordCount(text, minW, maxW).Ok?
    ensures var m := minW / WordCount(text) + 1;
      m * WordCount(text) > minW &&
      WordCount(EnsureWordCount(text, minW, maxW).value) == if m * WordCount(text) > maxW then maxW else m * WordCount(text)
  {
    var n := WordCount(text);
    var m := minW / n + 1;
    var padded := Join(Repeat(text, m), " ");
    WordCountRepeat(text, m);
    PadExceeds(minW, n);
    if WordCount(padded) > maxW {
      WordsOfPrefix(padded, maxW);
    }
  }

  /** For a text with words and `min_w <= max_w`, the result lies within the bounds. */
  lemma {:induction false} EnsureWordCountBounds(text: string, minW: nat, maxW: nat)
    requires minW <= maxW
    requires WordCount(text) > 0 || minW == 0
    ensures EnsureWordCount(text, minW, maxW).Ok?
    ensures minW <= WordCount(EnsureWordCount(text, minW, maxW).value) <= maxW
  {
    var n := WordCount(text);
    if n < minW {
      EnsureWordCountPads(text, minW, maxW);
    } else if n > maxW {
      EnsureWordCountTruncates(text, minW, maxW);
    }
  }

  /** Clamping an already clamped text changes nothing. */
  lemma {:induction false} EnsureWordCountIdempotent(text: string, minW: nat, maxW: nat)
    requires minW <= maxW
    requires WordCount(text) > 0 || minW == 0
    ensures var r := EnsureWordCount(text, minW, maxW);
      r.Ok? && EnsureWordCount(r.value, minW, maxW) == r
  {
    EnsureWordCountBounds(text, minW, maxW);
  }
}
