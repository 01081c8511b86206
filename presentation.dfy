/**
 * The slide-body parser of the presentation builder: the markdown of one
 * slide is split into lines, and each line (right-stripped) either closes
 * the open paragraph, toggles code mode, becomes a header, a bullet or a
 * numbered item, or joins the open paragraph.
 */
module Presentation {
  import opened Common

  datatype Element =
    | Paragraph(text: string)
    | Header(text: string)
    | Bullet(text: string, indent: nat)
    | Numbered(text: string)

  /** How a right-stripped line is read, in the order the parser tests it. */
  datatype LineKind = Separator | Fence | HeaderLine | BulletLine | NumberedLine | TextLine

  /** `s.startswith(c * 3)`. */
  predicate Triple(s: string, c: char)
  {
    |s| >= 3 && s[0] == c && s[1] == c && s[2] == c
  }

  /** Number of ASCII digits at the start of `s` (the `\d+` of the numbered-item pattern). */
  function LeadingDigits(s: string): (n: nat)
    ensures n <= |s|
    ensures forall i :: 0 <= i < n ==> IsDigit(s[i])
    ensures n < |s| ==> !IsDigit(s[n])
  {
    if s != [] && IsDigit(s[0]) then 1 + LeadingDigits(s[1..]) else 0
  }

  /** `re.match(r'^\d+\.', line)`. */
  predicate IsNumbered(line: string)
  {
    0 < LeadingDigits(line) < |line| && line[LeadingDigits(line)] == '.'
  }

  function Kind(line: string): LineKind
  {
    if line == [] || Triple(line, '-') then Separator
    else if Triple(line, '`') then Fence
    else if Triple(line, '#') then HeaderLine
    else if |line| >= 2 && (line[0] == '-' || line[0] == '*') && line[1] == ' ' then BulletLine
    else if IsNumbered(line) then NumberedLine
    else TextLine
  }

  // ---------------------------------------------------------------------------
  // Element texts

  /** `re.sub(r'\*\*(.+?)\*\*', r'\1', s)`: each `**x**` (x non-empty, shortest) becomes `x`. */
  function RemoveBold(s: string): (r: string)
    ensures |r| <= |s|
    decreases |s|
  {
    if s == [] then []
    else if |s| >= 3 && s[0] == '*' && s[1] == '*' then
      match FindSub(s[3..], "**")
        case Some(j) => s[2..3 + j] + RemoveBold(s[3 + j + 2..])
        case None => [s[0]] + RemoveBold(s[1..])
    else [s[0]] + RemoveBold(s[1..])
  }

  /** Text without a pair of bold markers comes through unchanged. */
  lemma {:induction false} RemoveBoldPlain(s: string)
    requires forall i :: 0 <= i < |s| ==> s[i] != '*'
    ensures RemoveBold(s) == s
    decreases |s|
  {
    if s != [] {
      RemoveBoldPlain(s[1..]);
    }
  }

  /** A bold word is unwrapped and the rest is processed after it. */
  lemma {:induction false} RemoveBoldWord(w: string, rest: string)
    requires w != [] && forall i :: 0 <= i < |w| ==> w[i] != '*'
    ensures RemoveBold("**" + w + "**" + rest) == w + RemoveBold(rest)
  {
    var s := "**" + w + "**" + rest;
    var k := |w| - 1;
    assert s[3..] == w[1..] + "**" + rest;
    ClosingMarker(w, rest);
    RemoveBoldAt(s, k);
    assert s[2..3 + k] == w;
    assert s[3 + k + 2..] == rest;
  }

  /** The closing marker of a bold word is the first `**` after its first letter. */
  lemma {:induction false} ClosingMarker(w: string, rest: string)
    requires w != [] && forall i :: 0 <= i < |w| ==> w[i] != '*'
    ensures FindSub(w[1..] + "**" + rest, "**") == Some(|w| - 1)
  {
    var t := w[1..] + "**" + rest;
    var k := |w| - 1;
    assert StartsWith(t[k..], "**") by { assert t[k..][..2] == "**"; }
    FindSubFirst(t, "**", k);
    var j := FindSub(t, "**").value;
    assert t[j] == '*' by { assert t[j..][..2] == "**"; }
    assert forall i :: 0 <= i < k ==> t[i] == w[i + 1];
  }

  /** One step of `RemoveBold` at an opening marker whose closing marker is found. */
  lemma {:induction false} RemoveBoldAt(s: string, k: nat)
    requires |s| >= 3 && s[0] == '*' && s[1] == '*'
    requires FindSub(s[3..], "**") == Some(k)
    ensures 3 + k + 2 <= |s|
    ensures RemoveBold(s) == s[2..3 + k] + RemoveBold(s[3 + k + 2..])
  {
  }

  /** `FindSub` finds the first occurrence: one at `k` means the result is no later. */
  lemma {:induction false} FindSubFirst(s: string, sub: string, k: nat)
    requires k + |sub| <= |s| && StartsWith(s[k..], sub)
    ensures FindSub(s, sub).Some? && FindSub(s, sub).value <= k
    decreases k
  {
    if k > 0 && !StartsWith(s, sub) {
      assert s[1..][k - 1..] == s[k..];
      FindSubFirst(s[1..], sub, k - 1);
    }
  }

  /** `line.replace('###', '').strip()`. */
  function HeaderText(line: string): string
  {
    Strip(Replace(line, "###", ""))
  }

  /** `line[2:].strip()` with the bold markers removed. */
  function BulletText(line: string): string
  {
    RemoveBold(Strip(Drop(line, 2)))
  }

  /** The nested-bullet test `line.startswith('  - ') or line.startswith('  * ')`. */
  function BulletIndent(line: string): nat
  {
    if |line| >= 4 && line[0] == ' ' && line[1] == ' ' && (line[2] == '-' || line[2] == '*') && line[3] == ' '
    then 1 else 0
  }

  /** `re.sub(r'^\d+\.\s*', '', line)`. */
  function NumberedText(line: string): string
    requires IsNumbered(line)
  {
    LStrip(line[LeadingDigits(line) + 1..])
  }

  // ---------------------------------------------------------------------------
  // The parser as a fold over the lines

  /** The loop state: elements so far, the open paragraph's lines, code mode. */
  datatype Parser = Parser(elements: seq<Element>, para: seq<string>, inCode: bool)

  /** Close the open paragraph, if any. */
  function Flush(p: Parser): Parser
  {
    if p.para == [] then p
    else Parser(p.elements + [Paragraph(Join(p.para, "\n"))], [], p.inCode)
  }

  /** One iteration of the loop on a raw line. */
  function Step(p: Parser, raw: string): Parser
  {
    var line := RStrip(raw);
    match Kind(line)
      case Separator => Flush(p)
      case Fence => Flush(p).(inCode := !p.inCode)
      case HeaderLine =>
        if p.inCode then p.(para := p.para + [line])
        else Flush(p).(elements := Flush(p).elements + [Header(HeaderText(line))])
      case BulletLine =>
        if p.inCode then p.(para := p.para + [line])
        else
          var indent := BulletIndent(line);
          var text := if indent == 0 then Strip(Drop(line, 2)) else Strip(Drop(line, 4));
          Flush(p).(elements := Flush(p).elements + [Bullet(RemoveBold(text), indent)])
      case NumberedLine =>
        if p.inCode then p.(para := p.para + [line])
        else Flush(p).(elements := Flush(p).elements + [Numbered(NumberedText(line))])
      case TextLine => p.(para := p.para + [line])
  }

  const Start := Parser([], [], false)

  function Run(lines: seq<string>): Parser
  {
    if lines == [] then Start
    else Step(Run(lines[..|lines| - 1]), lines[|lines| - 1])
  }

  /** `parse_content_lines` on an already split list of lines. */
  function ParseLines(lines: seq<string>): seq<Element>
  {
    Flush(Run(lines)).elements
  }

  /** `parse_content_lines(content)`. */
  method ParseContentLines(content: string) returns (elements: seq<Element>)
    ensures elements == ParseLines(Split(content, '\n'))
  {
    var lines := Split(content, '\n');
    elements := [];
    var currentPara: seq<string> := [];
    var inCodeBlock := false;
    for i := 0 to |lines|
      invariant Parser(elements, currentPara, inCodeBlock) == Run(lines[..i])
    {
      assert lines[..i + 1][..i] == lines[..i];
      ghost var next := Step(Parser(elements, currentPara, inCodeBlock), lines[i]);
      assert Run(lines[..i + 1]) == next;
      var line := RStrip(lines[i]);
      var kind := Kind(line);
      if kind == Separator {
        if currentPara != [] {
          elements := elements + [Paragraph(Join(currentPara, "\n"))];
          currentPara := [];
        }
      } else if kind == Fence {
        if currentPara != [] {
          elements := elements + [Paragraph(Join(currentPara, "\n"))];
          currentPara := [];
        }
        inCodeBlock := !inCodeBlock;
      } else if inCodeBlock {
        currentPara := currentPara + [line];
      } else if kind == HeaderLine {
        if currentPara != [] {
          elements := elements + [Paragraph(Join(currentPara, "\n"))];
          currentPara := [];
        }
        elements := elements + [Header(HeaderText(line))];
      } else if kind == BulletLine {
        if currentPara != [] {
          elements := elements + [Paragraph(Join(currentPara, "\n"))];
          currentPara := [];
        }
        var indent := BulletIndent(line);
        var text := if indent == 0 then Strip(Drop(line, 2)) else Strip(Drop(line, 4));
        elements := elements + [Bullet(RemoveBold(text), indent)];
      } else if kind == NumberedLine {
        if currentPara != [] {
          elements := elements + [Paragraph(Join(currentPara, "\n"))];
          currentPara := [];
        }
        elements := elements + [Numbered(NumberedText(line))];
      } else {
        currentPara := currentPara + [line];
      }
    }
    assert lines[..|lines|] == lines;
    if currentPara != [] {
      elements := elements + [Paragraph(Join(currentPara, "\n"))];
    }
  }

  // ---------------------------------------------------------------------------
  // What one more line does to the output

  lemma {:induction false} RunSnoc(pre: seq<string>, l: string)
    ensures Run(pre + [l]) == Step(Run(pre), l)
  {
    assert (pre + [l])[..|pre|] == pre;
  }

  /** A blank or `---` line adds nothing and keeps the mode, inside code blocks too. */
  lemma {:induction false} SeparatorLine(pre: seq<string>, l: string)
    requires Kind(RStrip(l)) == Separator
    ensures ParseLines(pre + [l]) == ParseLines(pre)
    ensures Run(pre + [l]).inCode == Run(pre).inCode
    ensures Run(pre + [l]).para == []
  {
    RunSnoc(pre, l);
  }

  /** A fence adds nothing, closes the paragraph and toggles code mode. */
  lemma {:induction false} FenceLine(pre: seq<string>, l: string)
    requires Kind(RStrip(l)) == Fence
    ensures ParseLines(pre + [l]) == ParseLines(pre)
    ensures Run(pre + [l]).inCode == !Run(pre).inCode
    ensures Run(pre + [l]).para == []
  {
    RunSnoc(pre, l);
  }

  /** Inside a code block every other line joins the paragraph as it is (right-stripped). */
  lemma {:induction false} CodeLine(pre: seq<string>, l: string)
    requires Run(pre).inCode && Kind(RStrip(l)) != Separator && Kind(RStrip(l)) != Fence
    ensures Run(pre + [l]) == Run(pre).(para := Run(pre).para + [RStrip(l)])
  {
    RunSnoc(pre, l);
  }

  /** Outside code, ordinary text joins the open paragraph. */
  lemma {:induction false} TextLineJoins(pre: seq<string>, l: string)
    requires Kind(RStrip(l)) == TextLine
    ensures Run(pre + [l]) == Run(pre).(para := Run(pre).para + [RStrip(l)])
  {
    RunSnoc(pre, l);
  }

  /** Outside code, a header, bullet or numbered line appends exactly its own element. */
  lemma {:induction false} ItemLine(pre: seq<string>, l: string)
    requires !Run(pre).inCode
    ensures var line := RStrip(l);
      Kind(line) == HeaderLine ==> ParseLines(pre + [l]) == ParseLines(pre) + [Header(HeaderText(line))]
    ensures var line := RStrip(l);
      Kind(line) == BulletLine ==> ParseLines(pre + [l]) == ParseLines(pre) + [Bullet(BulletText(line), 0)]
    ensures var line := RStrip(l);
      Kind(line) == NumberedLine ==> ParseLines(pre + [l]) == ParseLines(pre) + [Numbered(NumberedText(line))]
  {
    RunSnoc(pre, l);
    BulletNotNested(RStrip(l));
  }

  /** A line read as a bullet never passes the nested-bullet test. */
  lemma {:induction false} BulletNotNested(line: string)
    ensures Kind(line) == BulletLine ==> BulletIndent(line) == 0
  {
  }

  // ---------------------------------------------------------------------------
  // Whole-input properties

  /** Number of fence lines among `lines`. */
  function Fences(lines: seq<string>): (n: nat)
    ensures n <= |lines|
  {
    if lines == [] then 0
    else Fences(lines[..|lines| - 1]) + (if Kind(RStrip(lines[|lines| - 1])) == Fence then 1 else 0)
  }

  /** The parser is in code mode exactly after an odd number of fences. */
  lemma {:induction false} CodeModeParity(lines: seq<string>)
    ensures Run(lines).inCode <==> Fences(lines) % 2 == 1
  {
    if lines != [] {
      CodeModeParity(lines[..|lines| - 1]);
      StepInCode(Run(lines[..|lines| - 1]), lines[|lines| - 1]);
    }
  }

  /** Only a fence line switches code mode. */
  lemma {:induction false} StepInCode(p: Parser, raw: string)
    ensures Step(p, raw).inCode == (if Kind(RStrip(raw)) == Fence then !p.inCode else p.inCode)
  {
  }

  /** Every accumulated line and every emitted paragraph is non-empty. */
  predicate NoEmpty(p: Parser)
  {
    (forall k :: 0 <= k < |p.elements| && p.elements[k].Paragraph? ==> p.elements[k].text != [])
    && (forall k :: 0 <= k < |p.para| ==> p.para[k] != [])
  }

  lemma {:induction false} JoinNonEmpty(parts: seq<string>, sep: string)
    requires parts != [] && parts[0] != []
    ensures Join(parts, sep) != []
  {
  }

  lemma {:induction false} FlushNoEmpty(p: Parser)
    requires NoEmpty(p)
    ensures NoEmpty(Flush(p))
  {
    if p.para != [] {
      JoinNonEmpty(p.para, "\n");
    }
  }

  lemma {:induction false} RunNoEmpty(lines: seq<string>)
    ensures NoEmpty(Run(lines))
  {
    if lines != [] {
      RunNoEmpty(lines[..|lines| - 1]);
      StepNoEmpty(Run(lines[..|lines| - 1]), lines[|lines| - 1]);
    }
  }

  lemma {:induction false} StepNoEmpty(p: Parser, raw: string)
    requires NoEmpty(p)
    ensures NoEmpty(Step(p, raw))
  {
    FlushNoEmpty(p);
    var line := RStrip(raw);
    assert Kind(line) != Separator ==> line != [];
  }

  /** No paragraph the parser emits is empty. */
  lemma {:induction false} ParagraphsNonEmpty(lines: seq<string>)
    ensures forall e :: e in ParseLines(lines) && e.Paragraph? ==> e.text != []
  {
    RunNoEmpty(lines);
    FlushNoEmpty(Run(lines));
  }

  /** Elements plus the open paragraph never outnumber the lines read. */
  function Pending(p: Parser): nat
  {
    |p.elements| + (if p.para == [] then 0 else 1)
  }

  lemma {:induction false} RunPending(lines: seq<string>)
    ensures Pending(Run(lines)) <= |lines|
  {
    if lines != [] {
      RunPending(lines[..|lines| - 1]);
    }
  }

  /** Each line yields at most one element. */
  lemma {:induction false} ElementsAtMostLines(lines: seq<string>)
    ensures |ParseLines(lines)| <= |lines|
  {
    RunPending(lines);
  }

  function RStripAll(lines: seq<string>): (r: seq<string>)
    ensures |r| == |lines|
  {
    seq(|lines|, i requires 0 <= i < |lines| => RStrip(lines[i]))
  }

  lemma {:induction false} RunPlain(lines: seq<string>)
    requires forall i :: 0 <= i < |lines| ==> Kind(RStrip(lines[i])) == TextLine
    ensures Run(lines) == Parser([], RStripAll(lines), false)
  {
    if lines != [] {
      var front := lines[..|lines| - 1];
      RunPlain(front);
      assert RStripAll(front) + [RStrip(lines[|lines| - 1])] == RStripAll(lines);
    }
  }

  /** Plain lines (no separators, fences or list items) form one paragraph joined by newlines. */
  lemma {:induction false} PlainTextIsOneParagraph(lines: seq<string>)
    requires lines != []
    requires forall i :: 0 <= i < |lines| ==> Kind(RStrip(lines[i])) == TextLine
    ensures ParseLines(lines) == [Paragraph(Join(RStripAll(lines), "\n"))]
  {
    RunPlain(lines);
  }
}
