/**
 * The synthetic knowledge-base generator for the e-commerce services:
 * documents of 5 to 6 pages (2250 to 2700 words), FAQ documents grown by
 * repeating their template, and the fixed list of 120 file names.  The
 * random generator is an oracle: `draw(k)` is the k-th `rng.choice`.
 */
module DatasetGenerator {
  import opened Common
  import opened TextWords

  const WordsPerPage := 450
  const MinWordsPerDoc := WordsPerPage * 5
  const MaxWordsPerDoc := WordsPerPage * 6

  /**
   * The FAQ generators: append `"\n\n" + template` while the text has fewer
   * than 2250 words, then clamp.
   */
  method ExpandFaq(template: string) returns (content: string, copies: nat)
    requires WordCount(template) > 0
    ensures copies >= 1 && copies * WordCount(template) >= MinWordsPerDoc
    ensures copies > 1 ==> (copies - 1) * WordCount(template) < MinWordsPerDoc
    ensures EnsureWordCount(Join(Repeat(template, copies), "\n\n"), MinWordsPerDoc, MaxWordsPerDoc) == Ok(content)
    ensures MinWordsPerDoc <= WordCount(content) <= MaxWordsPerDoc
  {
    var n := WordCount(template);
    var text := template;
    copies := 1;
    assert Repeat(template, 1) == [template];
    while WordCount(text) < MinWordsPerDoc
      invariant copies >= 1 && text == Join(Repeat(template, copies), "\n\n")
      invariant WordCount(text) == copies * n
      invariant copies > 1 ==> (copies - 1) * n < MinWordsPerDoc
      decreases MinWordsPerDoc - WordCount(text)
    {
      ExpandStep(template, text, copies);
      assert (copies + 1) * n == copies * n + n;
      text := text + "\n\n" + template;
      copies := copies + 1;
    }
    EnsureWordCountBounds(text, MinWordsPerDoc, MaxWordsPerDoc);
    content := EnsureWordCount(text, MinWordsPerDoc, MaxWordsPerDoc).value;
  }

  /** One more copy of the template adds its words. */
  lemma {:induction false} ExpandStep(template: string, text: string, copies: nat)
    requires copies >= 1 && text == Join(Repeat(template, copies), "\n\n")
    ensures text + "\n\n" + template == Join(Repeat(template, copies + 1), "\n\n")
    ensures WordCount(text + "\n\n" + template) == WordCount(text) + WordCount(template)
  {
    RepeatSnoc(template, copies);
    JoinSnoc(Repeat(template, copies), template, "\n\n");
    WordCountSeparated(text, "\n\n", template);
  }

  lemma {:induction false} RepeatSnoc<T>(x: T, m: nat)
    ensures Repeat(x, m + 1) == Repeat(x, m) + [x]
  {
    if m > 0 {
      RepeatSnoc(x, m - 1);
    }
  }

  // ---------------------------------------------------------------------------
  // File names

  const Domains := ["payment", "checkout", "auth", "redis", "kafka", "database", "notifications"]
  const Envs := ["prod", "staging", "dev"]

  function PdfName(domain: string, env: string, index: nat): string
  {
    domain + "_runbook_" + Pad3(index) + "_" + env + ".pdf"
  }

  function DocxName(domain: string, index: nat): string
  {
    domain + "_faq_" + Pad3(index) + ".docx"
  }

  function ErrorCodesName(domain: string, index: nat): string
  {
    domain + "_error_codes_" + Pad3(index) + ".txt"
  }

  function ConfigReferenceName(domain: string, index: nat): string
  {
    domain + "_config_reference_" + Pad3(index) + ".txt"
  }

  function ImageName(domain: string, index: nat): string
  {
    domain + "_architecture_diagram_" + Pad3(index) + ".png"
  }

  datatype FileList = FileList(pdf: seq<string>, docx: seq<string>, txt: seq<string>, images: seq<string>)

  /** The i-th runbook name: two draws (domain, environment). */
  function RunbookName(draw: nat -> nat, i: nat): string
  {
    PdfName(Choice(Domains, draw(2 * i)), Choice(Envs, draw(2 * i + 1)), i + 1)
  }

  /** The i-th FAQ name: one draw after the runbooks' 80. */
  function FaqName(draw: nat -> nat, i: nat): string
  {
    DocxName(Choice(Domains, draw(80 + i)), i + 1)
  }

  /** The i-th pair of text references: one draw shared by both names. */
  function TextPair(draw: nat -> nat, i: nat): seq<string>
  {
    var domain := Choice(Domains, draw(110 + i));
    [ErrorCodesName(domain, i + 1), ConfigReferenceName(domain, i + 1)]
  }

  /** The i-th diagram name: one draw. */
  function DiagramName(draw: nat -> nat, i: nat): string
  {
    ImageName(Choice(Domains, draw(130 + i)), i + 1)
  }

  /** The runbook loop. */
  method RunbookNames(draw: nat -> nat) returns (pdf: seq<string>)
    ensures |pdf| == 40
    ensures forall i :: 0 <= i < 40 ==>
      pdf[i] == PdfName(Choice(Domains, draw(2 * i)), Choice(Envs, draw(2 * i + 1)), i + 1)
  {
    pdf := [];
    for i := 0 to 40
      invariant |pdf| == i
      invariant forall k :: 0 <= k < i ==> pdf[k] == RunbookName(draw, k)
    {
      pdf := pdf + [RunbookName(draw, i)];
    }
  }

  /** The FAQ loop. */
  method FaqNames(draw: nat -> nat) returns (docx: seq<string>)
    ensures |docx| == 30
    ensures forall i :: 0 <= i < 30 ==> docx[i] == DocxName(Choice(Domains, draw(80 + i)), i + 1)
  {
    docx := [];
    for i := 0 to 30
      invariant |docx| == i
      invariant forall k :: 0 <= k < i ==> docx[k] == FaqName(draw, k)
    {
      docx := docx + [FaqName(draw, i)];
    }
  }

  /** The text loop: the error-code reference first, then the configuration reference. */
  method TextNames(draw: nat -> nat) returns (txt: seq<string>)
    ensures |txt| == 40
    ensures forall i :: 0 <= i < 20 ==>
      txt[2 * i] == ErrorCodesName(Choice(Domains, draw(110 + i)), i + 1)
      && txt[2 * i + 1] == ConfigReferenceName(Choice(Domains, draw(110 + i)), i + 1)
  {
    ghost var pair: nat -> seq<string> := (k: nat) => TextPair(draw, k);
    assert forall k: nat :: |pair(k)| == 2;
    txt := [];
    for i := 0 to 20
      invariant txt == Concat(pair, i)
    {
      txt := txt + TextPair(draw, i);
    }
    ConcatPairsLength(pair, 20);
    forall i | 0 <= i < 20
      ensures txt[2 * i] == ErrorCodesName(Choice(Domains, draw(110 + i)), i + 1)
      ensures txt[2 * i + 1] == ConfigReferenceName(Choice(Domains, draw(110 + i)), i + 1)
    {
      ConcatPairsAt(pair, 20, i);
    }
  }

  /** The diagram loop. */
  method DiagramNames(draw: nat -> nat) returns (images: seq<string>)
    ensures |images| == 10
    ensures forall i :: 0 <= i < 10 ==> images[i] == ImageName(Choice(Domains, draw(130 + i)), i + 1)
  {
    images := [];
    for i := 0 to 10
      invariant |images| == i
      invariant forall k :: 0 <= k < i ==> images[k] == DiagramName(draw, k)
    {
      images := images + [DiagramName(draw, i)];
    }
  }

  /**
   * `generate_dataset_file_list(count)`: 40 runbooks, 30 FAQs, 20 pairs of
   * text references and 10 diagrams, whatever `count` is.  The draws are
   * consumed in the order of the loops: two per runbook, then one per FAQ,
   * per text pair and per diagram.
   */
  method GenerateDatasetFileList(count: int, draw: nat -> nat) returns (files: FileList)
    ensures |files.pdf| + |files.docx| + |files.txt| + |files.images| == 120
    ensures |files.pdf| == 40 && |files.docx| == 30 && |files.txt| == 40 && |files.images| == 10
  {
    var pdf := RunbookNames(draw);
    var docx := FaqNames(draw);
    var txt := TextNames(draw);
    var images := DiagramNames(draw);
    files := FileList(pdf, docx, txt, images);
  }

  /** No two FAQ, text-reference or diagram names of the list coincide. */
  lemma {:induction false} FileNamesDistinct(d1: string, d2: string, i: nat, j: nat)
    requires 1 <= i < 1000 && 1 <= j < 1000
    ensures i != j ==> DocxName(d1, i) != DocxName(d2, j)
    ensures i != j ==> ImageName(d1, i) != ImageName(d2, j)
    ensures i != j ==> ErrorCodesName(d1, i) != ErrorCodesName(d2, j)
    ensures i != j ==> ConfigReferenceName(d1, i) != ConfigReferenceName(d2, j)
    ensures ErrorCodesName(d1, i) != ConfigReferenceName(d2, j)
  {
    if i != j {
      IndexedNamesDiffer(d1 + "_faq_", d2 + "_faq_", i, j, ".docx");
      IndexedNamesDiffer(d1 + "_architecture_diagram_", d2 + "_architecture_diagram_", i, j, ".png");
      IndexedNamesDiffer(d1 + "_error_codes_", d2 + "_error_codes_", i, j, ".txt");
      IndexedNamesDiffer(d1 + "_config_reference_", d2 + "_config_reference_", i, j, ".txt");
    }
    TxtKindsDiffer(d1, d2, i, j);
  }

  /** An error-code reference is never taken for a configuration reference. */
  lemma {:induction false} TxtKindsDiffer(d1: string, d2: string, i: nat, j: nat)
    requires 1 <= i < 1000 && 1 <= j < 1000
    ensures ErrorCodesName(d1, i) != ConfigReferenceName(d2, j)
  {
    Pad3Small(i);
    Pad3Small(j);
    var a, b := ErrorCodesName(d1, i), ConfigReferenceName(d2, j);
    // Both end in three digits and ".txt", after "_codes_" in one and "_reference_" in the other.
    assert a[|a| - 9] == 's';
    assert b[|b| - 9] == 'e';
  }

  // ---------------------------------------------------------------------------
  // The Kafka runbook sample

  /** The placeholders of the Kafka runbook template, in order of first appearance. */
  datatype KafkaField =
    | Title | Services | Env | BootstrapServers | ConsumerGroup | TopicName | ConsumerService | BrokerHost

  const KafkaRunbookPlaceholders := [Title, Services, Env, BootstrapServers, ConsumerGroup,
                                     TopicName, ConsumerService, BrokerHost]

  /** The keywords `_generate_kafka_runbook` passes to `format`. */
  const KafkaRunbookKeywords := {Title, Services, Env, BootstrapServers, ConsumerGroup, TopicName}

  /** As written, formatting the Kafka runbook raises `KeyError('consumer_service')`. */
  lemma KafkaRunbookKeyError()
    ensures FirstMissing(KafkaRunbookPlaceholders, KafkaRunbookKeywords) == Some(ConsumerService)
  {
    var filled := [Title, Services, Env, BootstrapServers, ConsumerGroup, TopicName];
    assert KafkaRunbookPlaceholders == filled + [ConsumerService] + [BrokerHost];
    FirstMissingIs(filled, ConsumerService, [BrokerHost], KafkaRunbookKeywords);
  }

  /** The keywords the Kafka runbook needs: the ones passed plus the consumer service and broker host. */
  const KafkaRunbookKeywordsFixed := KafkaRunbookKeywords + {ConsumerService, BrokerHost}

  /** With both missing keywords supplied, every placeholder is filled. */
  lemma KafkaRunbookFormats()
    ensures FirstMissing(KafkaRunbookPlaceholders, KafkaRunbookKeywordsFixed) == None
  {
  }
}
