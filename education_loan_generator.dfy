/**
 * The synthetic knowledge-base generator for the education-loan domain:
 * the same word-count clamp as the e-commerce generator (`EnsureWordCount`
 * of `TextWords`), the fixed list of 120 file names, and the sample
 * payment-processing runbook.  `draw(k)` is the k-th `rng.choice`.
 */
module EducationLoanGenerator {
  import opened Common

  const Domains := ["payment_processing", "loan_application", "authentication", "redis_cache",
                    "kafka_queues", "database", "notifications"]
  const RunbookTypes := ["payment_processing", "loan_application", "authentication",
                         "disbursement", "repayment", "document_verification"]
  const Envs := ["prod", "staging", "dev"]
  const Regions := ["us", "uk", "ca", "de", "in"]
  const DocTypes := ["faq", "sla_policy", "escalation_guide", "onboarding"]

  function PdfName(domain: string, index: nat, region: string, env: string): string
  {
    domain + "_runbook_" + Pad3(index) + "_" + region + "_" + env + ".pdf"
  }

  function DocxName(domain: string, docType: string, index: nat): string
  {
    domain + "_" + docType + "_" + Pad3(index) + ".docx"
  }

  function ErrorCodesName(domain: string, index: nat): string
  {
    domain + "_error_codes_" + Pad3(index) + ".txt"
  }

  function ConfigReferenceName(domain: string, index: nat): string
  {
    domain + "_config_reference_" + Pad3(index) + ".txt"
  }

  function ImageName(domain: string, index: nat): string
  {
    domain + "_architecture_diagram_" + Pad3(index) + ".png"
  }

  datatype FileList = FileList(pdf: seq<string>, docx: seq<string>, txt: seq<string>, images: seq<string>)

  /** The i-th runbook name: three draws (type, environment, region). */
  function RunbookName(draw: nat -> nat, i: nat): string
  {
    PdfName(Choice(RunbookTypes, draw(3 * i)), i + 1, Choice(Regions, draw(3 * i + 2)), Choice(Envs, draw(3 * i + 1)))
  }

  /** The i-th document name: two draws (domain, kind) after the runbooks' 120. */
  function DocumentName(draw: nat -> nat, i: nat): string
  {
    DocxName(Choice(Domains, draw(120 + 2 * i)), Choice(DocTypes, draw(121 + 2 * i)), i + 1)
  }

  /** The i-th pair of text references: one draw shared by both names. */
  function TextPair(draw: nat -> nat, i: nat): seq<string>
  {
    var domain := Choice(Domains, draw(180 + i));
    [ErrorCodesName(domain, i + 1), ConfigReferenceName(domain, i + 1)]
  }

  /** The i-th diagram name: one draw. */
  function DiagramName(draw: nat -> nat, i: nat): string
  {
    ImageName(Choice(Domains, draw(200 + i)), i + 1)
  }

  /** The runbook loop. */
  method RunbookNames(draw: nat -> nat) returns (pdf: seq<string>)
    ensures |pdf| == 40
    ensures forall i :: 0 <= i < 40 ==>
      pdf[i] == PdfName(Choice(RunbookTypes, draw(3 * i)), i + 1,
                        Choice(Regions, draw(3 * i + 2)), Choice(Envs, draw(3 * i + 1)))
  {
    pdf := [];
    for i := 0 to 40
      invariant |pdf| == i
      invariant forall k :: 0 <= k < i ==> pdf[k] == RunbookName(draw, k)
    {
      pdf := pdf + [RunbookName(draw, i)];
    }
  }

  /** The document loop. */
  method DocumentNames(draw: nat -> nat) returns (docx: seq<string>)
    ensures |docx| == 30
    ensures forall i :: 0 <= i < 30 ==>
      docx[i] == DocxName(Choice(Domains, draw(120 + 2 * i)), Choice(DocTypes, draw(121 + 2 * i)), i + 1)
  {
    docx := [];
    for i := 0 to 30
      invariant |docx| == i
      invariant forall k :: 0 <= k < i ==> docx[k] == DocumentName(draw, k)
    {
      docx := docx + [DocumentName(draw, i)];
    }
  }

  /** The text loop: the error-code reference first, then the configuration reference. */
  method TextNames(draw: nat -> nat) returns (txt: seq<string>)
    ensures |txt| == 40
    ensures forall i :: 0 <= i < 20 ==>
      txt[2 * i] == ErrorCodesName(Choice(Domains, draw(180 + i)), i + 1)
      && txt[2 * i + 1] == ConfigReferenceName(Choice(Domains, draw(180 + i)), i + 1)
  {
    ghost var pair: nat -> seq<string> := (k: nat) => TextPair(draw, k);
    assert forall k: nat :: |pair(k)| == 2;
    txt := [];
    for i := 0 to 20
      invariant txt == Concat(pair, i)
    {
      txt := txt + TextPair(draw, i);
    }
    ConcatPairsLength(pair, 20);
    forall i | 0 <= i < 20
      ensures txt[2 * i] == ErrorCodesName(Choice(Domains, draw(180 + i)), i + 1)
      ensures txt[2 * i + 1] == ConfigReferenceName(Choice(Domains, draw(180 + i)), i + 1)
    {
      ConcatPairsAt(pair, 20, i);
    }
  }

  /** The diagram loop. */
  method DiagramNames(draw: nat -> nat) returns (images: seq<string>)
    ensures |images| == 10
    ensures forall i :: 0 <= i < 10 ==> images[i] == ImageName(Choice(Domains, draw(200 + i)), i + 1)
  {
    images := [];
    for i := 0 to 10
      invariant |images| == i
      invariant forall k :: 0 <= k < i ==> images[k] == DiagramName(draw, k)
    {
      images := images + [DiagramName(draw, i)];
    }
  }

  /** `generate_filename_list(count)`: 120 names, whatever `count` is. */
  method GenerateFilenameList(count: int, draw: nat -> nat) returns (files: FileList)
    ensures |files.pdf| + |files.docx| + |files.txt| + |files.images| == 120
    ensures |files.pdf| == 40 && |files.docx| == 30 && |files.txt| == 40 && |files.images| == 10
  {
    var pdf := RunbookNames(draw);
    var docx := DocumentNames(draw);
    var txt := TextNames(draw);
    var images := DiagramNames(draw);
    files := FileList(pdf, docx, txt, images);
  }

  /** Text references come in pairs that share the domain and the index, and no two pairs share an index. */
  lemma {:induction false} TxtNamesDistinct(d1: string, d2: string, i: nat, j: nat)
    requires 1 <= i < 1000 && 1 <= j < 1000 && i != j
    ensures ErrorCodesName(d1, i) != ErrorCodesName(d2, j)
    ensures ConfigReferenceName(d1, i) != ConfigReferenceName(d2, j)
  {
    IndexedNamesDiffer(d1 + "_error_codes_", d2 + "_error_codes_", i, j, ".txt");
    IndexedNamesDiffer(d1 + "_config_reference_", d2 + "_config_reference_", i, j, ".txt");
  }

  // ---------------------------------------------------------------------------
  // The payment-processing runbook sample

  /** The placeholders of the payment-processing runbook template, in order of first appearance. */
  datatype RunbookField =
    | Title | Region | PaymentMethods | Countries | Gateway | LoanIds | LoanId | PaymentId

  const PaymentRunbookPlaceholders := [Title, Region, PaymentMethods, Countries, Gateway,
                                       LoanIds, LoanId, PaymentId]

  /** The keywords `generate_sample_documents` passes to `format` for that runbook. */
  const PaymentRunbookKeywords := {Title, Region, PaymentMethods, Countries, Gateway}

  /** As written, formatting the sample runbook raises `KeyError('loan_ids')`. */
  lemma PaymentRunbookKeyError()
    ensures FirstMissing(PaymentRunbookPlaceholders, PaymentRunbookKeywords) == Some(LoanIds)
  {
    var filled := [Title, Region, PaymentMethods, Countries, Gateway];
    assert PaymentRunbookPlaceholders == filled + [LoanIds] + [LoanId, PaymentId];
    FirstMissingIs(filled, LoanIds, [LoanId, PaymentId], PaymentRunbookKeywords);
  }

  /** The keywords the runbook needs: the ones passed plus the three loan and payment identifiers. */
  const PaymentRunbookKeywordsFixed := PaymentRunbookKeywords + {LoanIds, LoanId, PaymentId}

  lemma PaymentRunbookFormats()
    ensures FirstMissing(PaymentRunbookPlaceholders, PaymentRunbookKeywordsFixed) == None
  {
  }
}
