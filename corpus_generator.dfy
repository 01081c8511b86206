/**
 * The corpus script: runbooks, FAQs, incident summaries and product pages
 * of about 5 to 6 pages (1500 to 1800 words).  Section texts are grown until
 * the document has 1500 words and then clamped.  What the random generator
 * picks and formats is an oracle: `section(k)` is the k-th formatted
 * section, `pick(j)` the FAQ template drawn on the j-th pass.
 */
module CorpusGenerator {
  import opened Common
  import opened TextWords

  const WordsPerPage := 300
  const MinWordsPerDoc := WordsPerPage * 5
  const MaxWordsPerDoc := WordsPerPage * 6

  // ---------------------------------------------------------------------------
  // _ensure_word_count

  /** The clamp as written: a text over `max_w` words keeps its first `max_w + 1` words. */
  function ClampAsWritten(text: string, minW: nat, maxW: nat): (r: string)
    ensures WordCount(text) <= maxW ==> r == text
  {
    var words := Words(text);
    if |words| <= maxW then text else Join(words[..maxW + 1], " ")
  }

  /** As written, a clamped text can hold one word more than the maximum. */
  lemma {:induction false} ClampAsWrittenOverflows(text: string, minW: nat, maxW: nat)
    requires WordCount(text) > maxW
    ensures Words(ClampAsWritten(text, minW, maxW)) == Words(text)[..maxW + 1]
    ensures WordCount(ClampAsWritten(text, minW, maxW)) == maxW + 1
  {
    WordsOfPrefix(text, maxW + 1);
  }

  /** The clamp as intended: a text over `max_w` words keeps its first `max_w` words. */
  function Clamp(text: string, minW: nat, maxW: nat): (r: string)
    ensures WordCount(text) <= maxW ==> r == text
  {
    var words := Words(text);
    if |words| <= maxW then text else Join(words[..maxW], " ")
  }

  /** The corrected clamp keeps the first `min(n, max_w)` words and never exceeds the maximum. */
  lemma {:induction false} ClampWithinMax(text: string, minW: nat, maxW: nat)
    ensures WordCount(text) > maxW ==> Words(Clamp(text, minW, maxW)) == Words(text)[..maxW]
    ensures WordCount(Clamp(text, minW, maxW)) == if WordCount(text) <= maxW then WordCount(text) else maxW
  {
    if WordCount(text) > maxW {
      WordsOfPrefix(text, maxW);
    }
  }

  // ---------------------------------------------------------------------------
  // Growing a document section by section

  /** The first `n` sections the generator formats. */
  function Sections(section: nat -> string, n: nat): (r: seq<string>)
    ensures |r| == n && forall k :: 0 <= k < n ==> r[k] == section(k)
  {
    seq(n, k requires 0 <= k < n => section(k))
  }

  lemma {:induction false} SectionsSnoc(initial: seq<string>, section: nat -> string, n: nat)
    ensures initial + Sections(section, n + 1) == (initial + Sections(section, n)) + [section(n)]
  {
    assert Sections(section, n + 1) == Sections(section, n) + [section(n)];
  }

  /** Appending a part adds its words. */
  lemma {:induction false} SumWordsSnoc(parts: seq<string>, s: string)
    ensures SumWords(parts + [s]) == SumWords(parts) + WordCount(s)
  {
    assert (parts + [s])[..|parts|] == parts;
  }

  /**
   * The growth loop of `_runbook_content`: append sections while the parts,
   * joined by spaces, have fewer than 1500 words.  It stops at the first
   * section that reaches the minimum.
   */
  method GrowParts(initial: seq<string>, section: nat -> string) returns (parts: seq<string>, added: nat)
    requires forall k: nat :: WordCount(section(k)) > 0
    ensures parts == initial + Sections(section, added)
    ensures SumWords(parts) >= MinWordsPerDoc
    ensures added > 0 ==> SumWords(parts[..|parts| - 1]) < MinWordsPerDoc
  {
    parts := initial;
    added := 0;
    assert initial + Sections(section, 0) == initial;
    WordCountJoin(parts, " ");
    ghost var before := [];
    while WordCount(Join(parts, " ")) < MinWordsPerDoc
      invariant parts == initial + Sections(section, added)
      invariant WordCount(Join(parts, " ")) == SumWords(parts)
      invariant added > 0 ==> parts == before + [section(added - 1)] && SumWords(before) < MinWordsPerDoc
      decreases MinWordsPerDoc - SumWords(parts)
    {
      before := parts;
      SectionsSnoc(initial, section, added);
      SumWordsSnoc(parts, section(added));
      parts := parts + [section(added)];
      added := added + 1;
      WordCountJoin(parts, " ");
    }
    if added > 0 {
      assert parts[..|parts| - 1] == before;
    }
  }

  /**
   * `_runbook_content`, `_incident_content` and `_product_content`: grow
   * from the introduction (none for incidents), join the parts by blank
   * lines and clamp with `_ensure_word_count` as written.  The result has at
   * least 1500 words and at most 1801.  When the introduction has at most
   * 1800 words and no section has more than 300, the growth loop never
   * overshoots 1800 words, so the clamp leaves the text alone and its extra
   * word never shows.
   */
  method SectionedDocument(initial: seq<string>, section: nat -> string) returns (content: string, parts: seq<string>)
    requires forall k: nat :: WordCount(section(k)) > 0
    ensures |parts| >= |initial| && parts == initial + Sections(section, |parts| - |initial|)
    ensures content == ClampAsWritten(Join(parts, "\n\n"), MinWordsPerDoc, MaxWordsPerDoc)
    ensures MinWordsPerDoc <= WordCount(content) <= MaxWordsPerDoc + 1
    ensures SumWords(initial) <= MaxWordsPerDoc
            && (forall k: nat :: WordCount(section(k)) <= MaxWordsPerDoc - MinWordsPerDoc)
            ==> content == Join(parts, "\n\n") && WordCount(content) <= MaxWordsPerDoc
  {
    var added;
    parts, added := GrowParts(initial, section);
    WordCountJoin(parts, "\n\n");
    content := ClampAsWritten(Join(parts, "\n\n"), MinWordsPerDoc, MaxWordsPerDoc);
    if WordCount(Join(parts, "\n\n")) > MaxWordsPerDoc {
      ClampAsWrittenOverflows(Join(parts, "\n\n"), MinWordsPerDoc, MaxWordsPerDoc);
    }
    GrowthStaysUnder(initial, section, parts, added);
  }

  /**
   * The growth loop overshoots the minimum by at most its last section: with
   * an introduction of at most 1800 words and sections of at most 300, the
   * parts never exceed 1800 words.
   */
  lemma {:induction false} GrowthStaysUnder(initial: seq<string>, section: nat -> string, parts: seq<string>, added: nat)
    requires parts == initial + Sections(section, added)
    requires added > 0 ==> SumWords(parts[..|parts| - 1]) < MinWordsPerDoc
    ensures SumWords(initial) <= MaxWordsPerDoc
            && (forall k: nat :: WordCount(section(k)) <= MaxWordsPerDoc - MinWordsPerDoc)
            ==> SumWords(parts) <= MaxWordsPerDoc
  {
    if added > 0 {
      var last := parts[|parts| - 1];
      assert last == section(added - 1);
      assert parts == parts[..|parts| - 1] + [last];
      SumWordsSnoc(parts[..|parts| - 1], last);
    } else {
      assert parts == initial;
    }
  }

  // ---------------------------------------------------------------------------
  // _faq_content

  const FaqItemCount := 5

  /** A set of naturals below `n` has at most `n` elements. */
  lemma {:induction false} BoundedCard(s: set<nat>, n: nat)
    requires forall k :: k in s ==> k < n
    ensures |s| <= n
  {
    if n == 0 {
      assert s == {};
    } else {
      BoundedCard(s - {n - 1}, n - 1);
    }
  }

  /** `n * w`, by repeated addition. */
  function Times(n: nat, w: nat): nat
  {
    if n == 0 then 0 else Times(n - 1, w) + w
  }

  lemma {:induction false} TimesMono(a: nat, b: nat, w: nat)
    requires a <= b
    ensures Times(a, w) <= Times(b, w)
    decreases b
  {
    if a < b {
      TimesMono(a, b - 1, w);
    }
  }

  lemma {:induction false} TimesIsProduct(n: nat, w: nat)
    ensures Times(n, w) == n * w
  {
    if n > 0 {
      TimesIsProduct(n - 1, w);
      assert (n - 1) * w + w == n * w;
    }
  }

  /**
   * The loop of `_faq_content` as written, cut off after `fuel` passes: a
   * template drawn again is skipped, so at most five answers are ever added.
   */
  method CollectFaqItems(header: string, pick: nat -> nat, item: nat -> string, fuel: nat, ghost itemWords: nat)
    returns (parts: seq<string>, used: set<nat>)
    requires forall j: nat :: pick(j) < FaqItemCount
    requires forall j: nat :: WordCount(item(j)) <= itemWords
    ensures |parts| == 1 + |used| && parts[0] == header
    ensures forall k :: k in used ==> k < FaqItemCount
    ensures SumWords(parts) <= WordCount(header) + Times(|used|, itemWords)
  {
    parts := [header];
    used := {};
    assert parts[..0] == [];
    assert SumWords(parts) == WordCount(header);
    WordCountJoin(parts, " ");
    var j := 0;
    while WordCount(Join(parts, " ")) < MinWordsPerDoc && j < fuel
      invariant |parts| == 1 + |used| && parts[0] == header
      invariant forall k :: k in used ==> k < FaqItemCount
      invariant WordCount(Join(parts, " ")) == SumWords(parts)
      invariant SumWords(parts) <= WordCount(header) + Times(|used|, itemWords)
      decreases fuel - j
    {
      var key := pick(j);
      if key !in used {
        FaqStep(header, parts, used, key, item(j), itemWords);
        used := used + {key};
        parts := parts + [item(j)];
      }
      j := j + 1;
    }
  }

  /** Adding an unseen template's answer keeps the loop's invariant. */
  lemma {:induction false} FaqStep(header: string, parts: seq<string>, used: set<nat>, key: nat, s: string, itemWords: nat)
    requires |parts| == 1 + |used| && parts[0] == header
    requires SumWords(parts) <= WordCount(header) + Times(|used|, itemWords)
    requires key !in used && WordCount(s) <= itemWords
    ensures |parts + [s]| == 1 + |used + {key}| && (parts + [s])[0] == header
    ensures SumWords(parts + [s]) <= WordCount(header) + Times(|used + {key}|, itemWords)
    ensures WordCount(Join(parts + [s], " ")) == SumWords(parts + [s])
  {
    SumWordsSnoc(parts, s);
    WordCountJoin(parts + [s], " ");
  }

  /**
   * `_faq_content` as written, cut off after `fuel` passes.  If the header
   * and five answers stay under 1500 words the loop never ends: no amount
   * of fuel yields a document.
   */
  method FaqContent(header: string, pick: nat -> nat, item: nat -> string, fuel: nat, ghost itemWords: nat)
    returns (content: Option<string>, parts: seq<string>, used: set<nat>)
    requires forall j: nat :: pick(j) < FaqItemCount
    requires forall j: nat :: WordCount(item(j)) <= itemWords
    ensures |parts| == 1 + |used| && parts[0] == header && |used| <= FaqItemCount
    ensures content.Some? <==> SumWords(parts) >= MinWordsPerDoc
    ensures content.Some? ==> content.value == ClampAsWritten(Join(parts, "\n"), MinWordsPerDoc, MaxWordsPerDoc)
    ensures WordCount(header) + FaqItemCount * itemWords < MinWordsPerDoc ==> content == None
  {
    parts, used := CollectFaqItems(header, pick, item, fuel, itemWords);
    BoundedCard(used, FaqItemCount);
    TimesMono(|used|, FaqItemCount, itemWords);
    TimesIsProduct(FaqItemCount, itemWords);
    if SumWords(parts) >= MinWordsPerDoc {
      content := Some(ClampAsWritten(Join(parts, "\n"), MinWordsPerDoc, MaxWordsPerDoc));
    } else {
      content := None;
    }
  }

  /**
   * `_faq_content` as intended: each template at most once, in the drawn
   * `order`, stopping at 1500 words or when the templates run out.
   */
  method FaqContentFixed(header: string, order: seq<nat>, item: nat -> string) returns (content: string, parts: seq<string>)
    ensures 1 <= |parts| <= 1 + |order|
    ensures parts == [header] + Answers(item, order[..|parts| - 1])
    ensures SumWords(parts) >= MinWordsPerDoc || |parts| == 1 + |order|
    ensures content == Clamp(Join(parts, "\n"), MinWordsPerDoc, MaxWordsPerDoc)
    ensures WordCount(content) <= MaxWordsPerDoc
  {
    parts := CollectAnswers(header, order, item);
    content := Clamp(Join(parts, "\n"), MinWordsPerDoc, MaxWordsPerDoc);
    ClampWithinMax(Join(parts, "\n"), MinWordsPerDoc, MaxWordsPerDoc);
  }

  /** The loop of the intended `_faq_content`: answers in `order` until 1500 words or the end of `order`. */
  method CollectAnswers(header: string, order: seq<nat>, item: nat -> string) returns (parts: seq<string>)
    ensures 1 <= |parts| <= 1 + |order|
    ensures parts == [header] + Answers(item, order[..|parts| - 1])
    ensures SumWords(parts) >= MinWordsPerDoc || |parts| == 1 + |order|
  {
    parts := [header];
    assert order[..0] == [];
    WordCountJoin(parts, " ");
    var k := 0;
    while k < |order| && WordCount(Join(parts, " ")) < MinWordsPerDoc
      invariant k <= |order| && parts == [header] + Answers(item, order[..k])
      invariant WordCount(Join(parts, " ")) == SumWords(parts)
    {
      AnswerStep(header, item, order, k, parts);
      parts := parts + [item(order[k])];
      k := k + 1;
    }
  }

  /** The formatted answers of the templates in `order`, in that order. */
  function Answers(item: nat -> string, order: seq<nat>): (r: seq<string>)
    ensures |r| == |order|
  {
    if order == [] then [] else Answers(item, order[..|order| - 1]) + [item(order[|order| - 1])]
  }

  /** One more answer keeps the loop's invariants. */
  lemma {:induction false} AnswerStep(header: string, item: nat -> string, order: seq<nat>, k: nat, parts: seq<string>)
    requires k < |order| && parts == [header] + Answers(item, order[..k])
    ensures parts + [item(order[k])] == [header] + Answers(item, order[..k + 1])
    ensures WordCount(Join(parts + [item(order[k])], " ")) == SumWords(parts + [item(order[k])])
  {
    assert order[..k + 1][..k] == order[..k];
    WordCountJoin(parts + [item(order[k])], " ");
  }

  /** The i-th answer is that of the i-th template drawn. */
  lemma {:induction false} AnswersAt(item: nat -> string, order: seq<nat>, i: nat)
    requires i < |order|
    ensures Answers(item, order)[i] == item(order[i])
  {
    var n := |order| - 1;
    if i < n {
      AnswersAt(item, order[..n], i);
    }
  }

  // ---------------------------------------------------------------------------
  // _generate_documents

  datatype DocType = Runbook | Faq | Incident | Product

  function TypeName(t: DocType): string
  {
    match t
      case Runbook => "runbook"
      case Faq => "faq"
      case Incident => "incident"
      case Product => "product"
  }

  /** `f"{doc_type}_{idx:03d}"`. */
  function Stem(t: DocType, index: nat): string
  {
    TypeName(t) + "_" + Pad3(index)
  }

  /** `_generate_documents(count, seed)`: exactly `count` items, the i-th stem numbered `i + 1`. */
  method GenerateDocuments(count: nat, choose: nat -> DocType) returns (docs: seq<(DocType, string)>)
    ensures |docs| == count
    ensures forall i :: 0 <= i < count ==> docs[i] == (choose(i), Stem(choose(i), i + 1))
  {
    docs := [];
    for i := 0 to count
      invariant |docs| == i
      invariant forall k :: 0 <= k < i ==> docs[k] == (choose(k), Stem(choose(k), k + 1))
    {
      var docType := choose(i);
      docs := docs + [(docType, Stem(docType, i + 1))];
    }
  }

  /** The last three characters of a stem read back as its index. */
  lemma {:induction false} StemIndex(t: DocType, index: nat)
    requires index < 1000
    ensures var s := Stem(t, index); |s| >= 3 && ParseDecimal(s[|s| - 3..]) == index
  {
    Pad3Small(index);
    var s := Stem(t, index);
    assert s[|s| - 3..] == Pad3(index);
    Pad3RoundTrip(index);
  }

  /** Below a thousand documents no two stems coincide. */
  lemma {:induction false} StemsDistinct(t1: DocType, t2: DocType, i: nat, j: nat)
    requires i < 1000 && j < 1000 && i != j
    ensures Stem(t1, i) != Stem(t2, j)
  {
    IndexedNamesDiffer(TypeName(t1) + "_", TypeName(t2) + "_", i, j, "");
    assert Stem(t1, i) == TypeName(t1) + "_" + Pad3(i) + "";
    assert Stem(t2, j) == TypeName(t2) + "_" + Pad3(j) + "";
  }
}
