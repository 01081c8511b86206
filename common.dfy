/**
 * Shared vocabulary for the model: optional values and results, and the
 * handful of Python string operations the pipeline relies on
 * (`str.isspace`, `strip`, `lower`, slicing, `join`, `split`, `in`).
 */
module Common {

  datatype Option<T> = None | Some(value: T)

  lemma {:induction false} ConcatAssoc<T>(x: seq<T>, y: seq<T>, z: seq<T>)
    ensures x + (y + z) == (x + y) + z
  {
  }

  /** A text framed by a head and a tail starts with the head and ends with the tail. */
  lemma {:induction false} Framed<T>(head: seq<T>, mid: seq<T>, tail: seq<T>)
    ensures |head + mid + tail| >= |head| + |tail|
    ensures (head + mid + tail)[..|head|] == head
    ensures (head + mid + tail)[|head + mid + tail| - |tail|..] == tail
  {
  }

  /** `value if value is not None else default`, the lookup-with-default of dicts and metadata. */
  function UnwrapOr<T>(v: Option<T>, default: T): (r: T)
    ensures v.Some? ==> r == v.value
    ensures v.None? ==> r == default
  {
    if v.Some? then v.value else default
  }

  datatype Result<T, E> = Ok(value: T) | Err(error: E)

  // ---------------------------------------------------------------------------
  // Characters

  /** Python's `str.isspace` (the full set of characters CPython treats as whitespace). */
  predicate IsSpace(c: char)
  {
    c == ' ' || ('\t' <= c <= '\r') || ('\U{1c}' <= c <= '\U{1f}')
    || c == '\U{85}' || c == '\U{a0}' || c == '\U{1680}'
    || ('\U{2000}' <= c <= '\U{200a}') || c == '\U{2028}' || c == '\U{2029}'
    || c == '\U{202f}' || c == '\U{205f}' || c == '\U{3000}'
  }

  /** True when every character of `s` is whitespace (this includes the empty string). */
  predicate IsBlank(s: string)
  {
    forall i :: 0 <= i < |s| ==> IsSpace(s[i])
  }

  /** ASCII case folding; `str.lower` on other characters is not modelled. */
  function LowerChar(c: char): char
  {
    if 'A' <= c <= 'Z' then (c as int + 32) as char else c
  }

  function Lower(s: string): (r: string)
    ensures |r| == |s|
    ensures forall i :: 0 <= i < |s| ==> r[i] == LowerChar(s[i])
  {
    seq(|s|, i requires 0 <= i < |s| => LowerChar(s[i]))
  }

  predicate IsDigit(c: char)
  {
    '0' <= c <= '9'
  }

  // ---------------------------------------------------------------------------
  // strip / rstrip

  /** Number of whitespace characters at the start of `s`. */
  function LeadingSpaces(s: string): (n: nat)
    ensures n <= |s|
  {
    if s != [] && IsSpace(s[0]) then 1 + LeadingSpaces(s[1..]) else 0
  }

  /** `LeadingSpaces` counts exactly the whitespace run at the front. */
  lemma {:induction false} LeadingSpacesSpec(s: string)
    ensures forall i :: 0 <= i < LeadingSpaces(s) ==> IsSpace(s[i])
    ensures LeadingSpaces(s) < |s| ==> !IsSpace(s[LeadingSpaces(s)])
  {
    if s != [] && IsSpace(s[0]) {
      LeadingSpacesSpec(s[1..]);
    }
  }

  /** Number of whitespace characters at the end of `s`. */
  function TrailingSpaces(s: string): (n: nat)
    ensures n <= |s|
  {
    if s != [] && IsSpace(s[|s| - 1]) then 1 + TrailingSpaces(s[..|s| - 1]) else 0
  }

  /** `TrailingSpaces` counts exactly the whitespace run at the end. */
  lemma {:induction false} TrailingSpacesSpec(s: string)
    ensures forall i :: |s| - TrailingSpaces(s) <= i < |s| ==> IsSpace(s[i])
    ensures TrailingSpaces(s) < |s| ==> !IsSpace(s[|s| - TrailingSpaces(s) - 1])
  {
    if s != [] && IsSpace(s[|s| - 1]) {
      var p := s[..|s| - 1];
      TrailingSpacesSpec(p);
      assert forall i :: 0 <= i < |p| ==> p[i] == s[i];
    }
  }

  /** Python's `s.lstrip()`. */
  function LStrip(s: string): string
  {
    s[LeadingSpaces(s)..]
  }

  /** Python's `s.rstrip()`. */
  function RStrip(s: string): string
  {
    s[..|s| - TrailingSpaces(s)]
  }

  /** Python's `s.strip()`. */
  function Strip(s: string): string
  {
    RStrip(LStrip(s))
  }

  /** Stripping leaves an empty string exactly when the input was blank. */
  lemma {:induction false} StripEmptyIffBlank(s: string)
    ensures Strip(s) == [] <==> IsBlank(s)
  {
    var t := LStrip(s);
    var k := LeadingSpaces(s);
    LeadingSpacesSpec(s);
    TrailingSpacesSpec(t);
    if !IsBlank(s) {
      var j :| 0 <= j < |s| && !IsSpace(s[j]);
      assert k <= j;
      assert t[j - k] == s[j];
      assert |Strip(s)| > 0;
    }
  }

  /** A non-empty stripped string starts and ends with a non-whitespace character. */
  lemma {:induction false} StripEnds(s: string)
    ensures Strip(s) != [] ==> !IsSpace(Strip(s)[0]) && !IsSpace(Strip(s)[|Strip(s)| - 1])
  {
    var t := LStrip(s);
    LeadingSpacesSpec(s);
    TrailingSpacesSpec(t);
    if Strip(s) != [] {
      assert Strip(s)[0] == s[LeadingSpaces(s)];
    }
  }

  /** Stripping never lengthens a string. */
  lemma {:induction false} StripLength(s: string)
    ensures |Strip(s)| <= |s|
  {
  }

  // ---------------------------------------------------------------------------
  // Slicing, prefixes and substrings

  /** Python's `s[:n]` for a non-negative `n`. */
  function Take<T>(s: seq<T>, n: nat): (r: seq<T>)
    ensures |r| <= n && |r| <= |s|
    ensures |s| <= n ==> r == s
  {
    if n < |s| then s[..n] else s
  }

  /** Python's `s[n:]` for a non-negative `n`. */
  function Drop<T>(s: seq<T>, n: nat): (r: seq<T>)
    ensures |r| == |s| - n || (|s| <= n && r == [])
  {
    if n < |s| then s[n..] else []
  }

  predicate StartsWith(s: string, p: string)
  {
    |p| <= |s| && s[..|p|] == p
  }

  /** Python's `sub in s`. */
  predicate Contains(s: string, sub: string)
    decreases |s|
  {
    StartsWith(s, sub) || (s != [] && Contains(s[1..], sub))
  }

  /** Python's `s.find(sub)`: the first position where `sub` occurs. */
  function FindSub(s: string, sub: string): (r: Option<nat>)
    ensures r.Some? ==> r.value + |sub| <= |s| && StartsWith(s[r.value..], sub)
    ensures r.None? <==> !Contains(s, sub)
    decreases |s|
  {
    if StartsWith(s, sub) then Some(0)
    else if s == [] then None
    else match FindSub(s[1..], sub)
      case None => None
      case Some(i) => assert s[i + 1..] == s[1..][i..]; Some(i + 1)
  }

  /** Python's `s.replace(pat, rep)` for a non-empty `pat`: occurrences replaced left to right. */
  function Replace(s: string, pat: string, rep: string): (r: string)
    requires pat != []
    ensures !Contains(s, pat) ==> r == s
    decreases |s|
  {
    if s == [] then []
    else if StartsWith(s, pat) then rep + Replace(s[|pat|..], pat, rep)
    else [s[0]] + Replace(s[1..], pat, rep)
  }

  /** Replacing an occurrence by a longer text lengthens the string. */
  lemma {:induction false} ReplaceLengthens(s: string, pat: string, rep: string)
    requires pat != [] && |rep| > |pat| && Contains(s, pat)
    ensures |Replace(s, pat, rep)| > |s|
    decreases |s|
  {
    ReplaceNotShorter(s, pat, rep);
    if StartsWith(s, pat) {
      ReplaceNotShorter(s[|pat|..], pat, rep);
    } else {
      ReplaceLengthens(s[1..], pat, rep);
    }
  }

  lemma {:induction false} ReplaceNotShorter(s: string, pat: string, rep: string)
    requires pat != [] && |rep| >= |pat|
    ensures |Replace(s, pat, rep)| >= |s|
    decreases |s|
  {
    if s != [] {
      if StartsWith(s, pat) {
        ReplaceNotShorter(s[|pat|..], pat, rep);
      } else {
        ReplaceNotShorter(s[1..], pat, rep);
      }
    }
  }

  // ---------------------------------------------------------------------------
  // join / split

  /** Python's `sep.join(parts)`. */
  function Join(parts: seq<string>, sep: string): (r: string)
    ensures parts == [] ==> r == []
    ensures |parts| == 1 ==> r == parts[0]
  {
    if parts == [] then []
    else if |parts| == 1 then parts[0]
    else parts[0] + sep + Join(parts[1..], sep)
  }

  function IndexOf(s: string, c: char): (r: Option<nat>)
    ensures r.Some? ==> r.value < |s| && s[r.value] == c && c !in s[..r.value]
    ensures r.None? ==> c !in s
  {
    if s == [] then None
    else if s[0] == c then Some(0)
    else match IndexOf(s[1..], c)
      case None => None
      case Some(i) => Some(i + 1)
  }

  /** Python's `s.split(c)` for a one-character separator. */
  function Split(s: string, c: char): (r: seq<string>)
    ensures |r| >= 1
    ensures forall i :: 0 <= i < |r| ==> c !in r[i]
    decreases |s|
  {
    match IndexOf(s, c)
      case None => [s]
      case Some(i) => [s[..i]] + Split(s[i + 1..], c)
  }

  /** Splitting on `c` and joining with `c` gives back the original string. */
  lemma {:induction false} JoinSplit(s: string, c: char)
    ensures Join(Split(s, c), [c]) == s
    decreases |s|
  {
    match IndexOf(s, c)
      case None =>
      case Some(i) =>
        var rest := Split(s[i + 1..], c);
        JoinSplit(s[i + 1..], c);
        assert Split(s, c) == [s[..i]] + rest;
        assert Join(Split(s, c), [c]) == s[..i] + [c] + Join(rest, [c]);
        assert s == s[..i] + [c] + s[i + 1..];
  }

  // ---------------------------------------------------------------------------
  // Decimal rendering of naturals (`str(n)` and `f"{n:03d}"`)

  function DigitChar(d: nat): char
    requires d < 10
  {
    ('0' as int + d) as char
  }

  function NatToString(n: nat): (r: string)
    ensures |r| >= 1
    ensures forall i :: 0 <= i < |r| ==> IsDigit(r[i])
    ensures n >= 10 ==> |r| >= 2
    ensures n < 10 ==> |r| == 1
  {
    if n < 10 then [DigitChar(n)] else NatToString(n / 10) + [DigitChar(n % 10)]
  }

  /** Distinct naturals have distinct decimal renderings. */
  lemma {:induction false} NatToStringInjective(a: nat, b: nat)
    requires NatToString(a) == NatToString(b)
    ensures a == b
  {
    var sa, sb := NatToString(a), NatToString(b);
    if a >= 10 && b >= 10 {
      assert sa[|sa| - 1] == DigitChar(a % 10) && sb[|sb| - 1] == DigitChar(b % 10);
      assert NatToString(a / 10) == sa[..|sa| - 1] == sb[..|sb| - 1] == NatToString(b / 10);
      NatToStringInjective(a / 10, b / 10);
    }
  }

  /** `f"{n:03d}"`: zero-padded to at least three digits. */
  function Pad3(n: nat): (r: string)
    ensures |r| >= 3
    ensures forall i :: 0 <= i < |r| ==> IsDigit(r[i])
  {
    var d := NatToString(n);
    if |d| >= 3 then d else seq(3 - |d|, _ => '0') + d
  }

  /** The three-digit indices used by the generators render as exactly three digits. */
  lemma {:induction false} Pad3Small(n: nat)
    requires n < 1000
    ensures |Pad3(n)| == 3
  {
    if n >= 10 {
      assert |NatToString(n / 10)| <= 2 by {
        if n / 10 >= 10 { assert |NatToString(n / 100)| == 1; }
      }
    }
  }
  /** The number a string of decimal digits denotes (`int(s)` on digit strings). */
  function ParseDecimal(s: string): nat
  {
    if s == [] then 0
    else
      var c := s[|s| - 1];
      10 * ParseDecimal(s[..|s| - 1]) + (if IsDigit(c) then c as int - '0' as int else 0)
  }

  /** Reading back a rendered natural gives the natural. */
  lemma {:induction false} ParseNatToString(n: nat)
    ensures ParseDecimal(NatToString(n)) == n
  {
    var d := NatToString(n);
    if n >= 10 {
      ParseNatToString(n / 10);
      assert d[..|d| - 1] == NatToString(n / 10);
    }
  }

  /** Leading zeros do not change the number a digit string denotes. */
  lemma {:induction false} ParseLeadingZeros(k: nat, d: string)
    ensures ParseDecimal(seq(k, _ => '0') + d) == ParseDecimal(d)
    decreases |d|, k
  {
    var z := seq(k, _ => '0');
    if d == [] {
      assert z + d == z;
      if k > 0 {
        assert z[..k - 1] == seq(k - 1, _ => '0');
        assert z[k - 1] == '0';
        ParseLeadingZeros(k - 1, []);
        assert seq(k - 1, _ => '0') + [] == z[..k - 1];
      }
    } else {
      var front := d[..|d| - 1];
      assert (z + d)[..|z + d| - 1] == z + front;
      ParseLeadingZeros(k, front);
    }
  }

  /** `int(f"{n:03d}") == n`: the zero-padded index reads back as the index. */
  lemma {:induction false} Pad3RoundTrip(n: nat)
    ensures ParseDecimal(Pad3(n)) == n
  {
    var d := NatToString(n);
    ParseNatToString(n);
    if |d| < 3 {
      ParseLeadingZeros(3 - |d|, d);
    }
  }

  /** Two names ending in a three-digit index and the same extension differ when the indices do. */
  lemma {:induction false} IndexedNamesDiffer(p: string, q: string, i: nat, j: nat, ext: string)
    requires i < 1000 && j < 1000 && i != j
    ensures p + Pad3(i) + ext != q + Pad3(j) + ext
  {
    Pad3Small(i);
    Pad3Small(j);
    if p + Pad3(i) + ext == q + Pad3(j) + ext {
      var a, b := p + Pad3(i) + ext, q + Pad3(j) + ext;
      assert a[|a| - |ext| - 3..|a| - |ext|] == Pad3(i);
      assert b[|b| - |ext| - 3..|b| - |ext|] == Pad3(j);
      Pad3RoundTrip(i);
      Pad3RoundTrip(j);
    }
  }

  // ---------------------------------------------------------------------------
  // str.format

  /**
   * The placeholder `str.format` fails on: the first one, in template order,
   * that the call supplies no value for (Python raises `KeyError` naming it).
   */
  function FirstMissing<T>(placeholders: seq<T>, supplied: set<T>): (r: Option<T>)
    ensures r.None? <==> forall i :: 0 <= i < |placeholders| ==> placeholders[i] in supplied
    ensures r.Some? ==> r.value in placeholders && r.value !in supplied
  {
    if placeholders == [] then None
    else if placeholders[0] !in supplied then Some(placeholders[0])
    else FirstMissing(placeholders[1..], supplied)
  }

  /** The first placeholder not supplied, after supplied ones only, is the one reported. */
  lemma {:induction false} FirstMissingIs<T>(filled: seq<T>, missing: T, rest: seq<T>, supplied: set<T>)
    requires forall i :: 0 <= i < |filled| ==> filled[i] in supplied
    requires missing !in supplied
    ensures FirstMissing(filled + [missing] + rest, supplied) == Some(missing)
  {
    assert filled + [missing] + rest == filled + ([missing] + rest);
    FirstMissingAfter(filled, [missing] + rest, supplied);
  }

  /** Placeholders that are all supplied can be skipped when looking for the missing one. */
  lemma {:induction false} FirstMissingAfter<T>(filled: seq<T>, rest: seq<T>, supplied: set<T>)
    requires forall i :: 0 <= i < |filled| ==> filled[i] in supplied
    ensures FirstMissing(filled + rest, supplied) == FirstMissing(rest, supplied)
  {
    if filled == [] {
      assert filled + rest == rest;
    } else {
      assert (filled + rest)[0] == filled[0] && filled[0] in supplied;
      assert (filled + rest)[1..] == filled[1..] + rest;
      FirstMissingAfter(filled[1..], rest, supplied);
    }
  }

  /** `f(0) + f(1) + ... + f(n - 1)`: what a loop appending `f(i)` at step `i` builds. */
  function Concat<T>(f: nat -> seq<T>, n: nat): seq<T>
  {
    if n == 0 then [] else Concat(f, n - 1) + f(n - 1)
  }

  /** When every `f(i)` is a pair, the i-th pair sits at positions 2i and 2i+1. */
  lemma {:induction false} ConcatPairsAt<T>(f: nat -> seq<T>, n: nat, i: nat)
    requires forall k :: |f(k)| == 2
    requires i < n
    ensures |Concat(f, n)| == 2 * n
    ensures Concat(f, n)[2 * i] == f(i)[0] && Concat(f, n)[2 * i + 1] == f(i)[1]
  {
    ConcatPairsLength(f, n - 1);
    if i < n - 1 {
      ConcatPairsAt(f, n - 1, i);
    }
  }

  lemma {:induction false} ConcatPairsLength<T>(f: nat -> seq<T>, n: nat)
    requires forall k :: |f(k)| == 2
    ensures |Concat(f, n)| == 2 * n
  {
    if n > 0 {
      ConcatPairsLength(f, n - 1);
    }
  }

  // ---------------------------------------------------------------------------
  // Random choices

  /** `rng.choice(options)` when the generator's draw is `d`. */
  function Choice(options: seq<string>, d: nat): string
    requires options != []
  {
    options[d % |options|]
  }
}
