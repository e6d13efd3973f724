/**
 * The two requests sent to the text generator: a fixed instruction followed
 * by two labelled sections.  Each is a pure function of its two inputs, and
 * `Split` reads the two sections back out of a request.
 */
module Prompts {
  import opened Options

  const GenerationInstruction := "You are a radiologist assistant. Insert the following findings into the report template below. Remove any conflicting normal lines. Tidy the result. Always include structured impression."
  const TemplateLabel := "\n\nTEMPLATE:\n"
  const FindingsLabel := "\n\nFINDINGS:\n"

  const ComparisonInstruction := "You are a radiologist. Compare the current report below to the prior ones and summarize only significant changes. Ignore irrelevant findings like osteophytes or vascular calcification."
  const CurrentLabel := "\n\nCURRENT REPORT:\n"
  const PriorLabel := "\n\nPRIOR REPORTS:\n"

  /** An instruction, then `first` under `label1`, then `second` under `label2`. */
  function Compose(instruction: string, label1: string, first: string, label2: string, second: string): string
  {
    instruction + label1 + first + label2 + second
  }

  /**
   * Read the two sections back out of `prompt`, given the length of the
   * first: the instruction and `label1` must open the prompt and `label2`
   * must follow the first section; otherwise there is nothing to read.
   */
  function Split(instruction: string, label1: string, label2: string, prompt: string, firstLength: nat): Option<(string, string)>
  {
    var start := |instruction| + |label1|;
    var end := start + firstLength;
    if end + |label2| <= |prompt| && prompt[..start] == instruction + label1 && prompt[end..end + |label2|] == label2
    then Some((prompt[start..end], prompt[end + |label2|..]))
    else None
  }

  /** Splitting a composed prompt at its first section's length gives back both sections. */
  lemma SplitCompose(instruction: string, label1: string, first: string, label2: string, second: string)
    ensures Split(instruction, label1, label2, Compose(instruction, label1, first, label2, second), |first|) == Some((first, second))
  {
    var p := Compose(instruction, label1, first, label2, second);
    var start := |instruction| + |label1|;
    var end := start + |first|;
    assert p == (instruction + label1) + first + label2 + second;
    assert p[..start] == instruction + label1;
    assert p[start..end] == first;
    assert p[end..end + |label2|] == label2;
    assert p[end + |label2|..] == second;
  }

  /** Whatever `Split` reads out composes back to the prompt it was read from. */
  lemma ComposeSplit(instruction: string, label1: string, label2: string, prompt: string, firstLength: nat)
    requires Split(instruction, label1, label2, prompt, firstLength).Some?
    ensures var sections := Split(instruction, label1, label2, prompt, firstLength).value;
            Compose(instruction, label1, sections.0, label2, sections.1) == prompt
  {
    var start := |instruction| + |label1|;
    var end := start + firstLength;
    assert prompt == prompt[..start] + prompt[start..end] + prompt[end..end + |label2|] + prompt[end + |label2|..];
  }

  /**
   * The report-generation request: the fixed instruction, then the template
   * verbatim under its TEMPLATE label, then the findings verbatim under the
   * FINDINGS label.  Reading it back gives exactly the two inputs.
   */
  function GenerationPrompt(template: string, findings: string): (r: string)
    ensures |GenerationInstruction| <= |r| && r[..|GenerationInstruction|] == GenerationInstruction
    ensures Split(GenerationInstruction, TemplateLabel, FindingsLabel, r, |template|) == Some((template, findings))
  {
    SplitCompose(GenerationInstruction, TemplateLabel, template, FindingsLabel, findings);
    Compose(GenerationInstruction, TemplateLabel, template, FindingsLabel, findings)
  }

  /**
   * The comparison request: the fixed instruction, then the current report
   * verbatim under its CURRENT REPORT label, then the prior reports verbatim
   * under the PRIOR REPORTS label.  Reading it back gives exactly the two
   * inputs.
   */
  function ComparisonPrompt(current: string, prior: string): (r: string)
    ensures |ComparisonInstruction| <= |r| && r[..|ComparisonInstruction|] == ComparisonInstruction
    ensures Split(ComparisonInstruction, CurrentLabel, PriorLabel, r, |current|) == Some((current, prior))
  {
    SplitCompose(ComparisonInstruction, CurrentLabel, current, PriorLabel, prior);
    Compose(ComparisonInstruction, CurrentLabel, current, PriorLabel, prior)
  }

  /** Two generation requests with equally long templates are equal only for equal inputs. */
  lemma GenerationPromptInjective(t1: string, f1: string, t2: string, f2: string)
    requires |t1| == |t2|
    requires GenerationPrompt(t1, f1) == GenerationPrompt(t2, f2)
    ensures t1 == t2 && f1 == f2
  {
  }

  /** Two comparison requests with equally long current reports are equal only for equal inputs. */
  lemma ComparisonPromptInjective(c1: string, p1: string, c2: string, p2: string)
    requires |c1| == |c2|
    requires ComparisonPrompt(c1, p1) == ComparisonPrompt(c2, p2)
    ensures c1 == c2 && p1 == p2
  {
  }
}
