/**
 * The "Generate Report" workflow of the main page, up to the request handed
 * to the text generator: pick a template (auto-detected from the findings
 * or chosen by hand), load it, stop with a warning when nothing usable was
 * loaded, and otherwise build the generation request.
 */
module Pipeline {
  import opened Options
  import opened Text
  import opened Templates
  import opened Classifier
  import opened Prompts

  /** Where "Generate Report" ends: the not-found warning, or a request for the generator. */
  datatype Outcome = TemplateNotFound(selected: Option<string>) | Request(prompt: string)

  /**
   * The template the page selects: the detected one when auto-detection is
   * on, which is nothing exactly when no keyword occurs and otherwise the
   * template of the earliest occurring keyword, a baseline name; the one
   * chosen by hand when it is off.
   */
  function SelectTemplate(findings: string, autoDetect: bool, manual: Option<string>): (r: Option<string>)
    ensures autoDetect ==> (r.None? <==> NoneOccurs(Keywords, Lower(findings)))
    ensures autoDetect ==>
              forall i :: IsFirstMatch(Keywords, Lower(findings), i) ==> r == Some(Keywords[i].1)
    ensures autoDetect && r.Some? ==> r.value in Baseline
    ensures !autoDetect ==> r == manual
  {
    FirstMatchSpec(Keywords, Lower(findings));
    if autoDetect then Detect(findings) else manual
  }

  /**
   * "Generate Report": load the selected template; a missing template and an
   * empty one (both falsy in `if not template`) give the warning naming the
   * selection.  Otherwise the request is built, and it carries the loaded
   * template and the findings verbatim.
   */
  function GenerateReport(dir: map<string, string>, findings: string, autoDetect: bool, manual: Option<string>): (outcome: Outcome)
    ensures var template := LoadTemplate(dir, SelectTemplate(findings, autoDetect, manual));
            && (outcome.Request? <==> template.Some? && template.value != "")
            && (outcome.TemplateNotFound? ==> outcome.selected == SelectTemplate(findings, autoDetect, manual))
            && (outcome.Request? ==>
                  Split(GenerationInstruction, TemplateLabel, FindingsLabel, outcome.prompt, |template.value|)
                    == Some((template.value, findings)))
  {
    var selected := SelectTemplate(findings, autoDetect, manual);
    var template := LoadTemplate(dir, selected);
    if template.None? || template.value == "" then TemplateNotFound(selected)
    else Request(GenerationPrompt(template.value, findings))
  }

  /**
   * With auto-detection on, a detected template always yields a request,
   * unless a stored file of that name overrides the baseline with empty
   * content.
   */
  lemma DetectedTemplateYieldsRequest(dir: map<string, string>, findings: string, manual: Option<string>)
    requires Detect(findings).Some?
    requires FileName(Detect(findings)) in dir ==> dir[FileName(Detect(findings))] != ""
    ensures GenerateReport(dir, findings, true, manual).Request?
  {
    BaselineBodiesNonEmpty(Detect(findings).value);
  }

  /**
   * With auto-detection on and no keyword found, the page looks up the file
   * "None.txt": without it, the outcome is the not-found warning.  Empty
   * findings take this path.
   */
  lemma NothingDetectedIsNotFound(dir: map<string, string>, findings: string, manual: Option<string>)
    requires NoneOccurs(Keywords, Lower(findings))
    requires "None.txt" !in dir
    ensures GenerateReport(dir, findings, true, manual) == TemplateNotFound(None)
  {
    MissingNameLooksUpNoneFile(dir);
  }

  /**
   * With auto-detection on, empty findings never reach the generator unless
   * a file "None.txt" is stored.  (With a template chosen by hand, empty
   * findings are merged like any others.)
   */
  lemma EmptyFindingsIsNotFound(dir: map<string, string>, manual: Option<string>)
    requires "None.txt" !in dir
    ensures GenerateReport(dir, "", true, manual) == TemplateNotFound(None)
  {
    DetectEmpty();
    MissingNameLooksUpNoneFile(dir);
  }

  /**
   * A template chosen by hand from the listing gives the warning unless a
   * second file "<chosen>.txt" exists, because the listed name already ends
   * in ".txt" and loading appends it again.
   */
  lemma ListedChoiceIsNotFound(dir: map<string, string>, findings: string, chosen: string)
    requires chosen in ListTemplates(dir)
    requires chosen + Extension !in dir
    ensures GenerateReport(dir, findings, false, Some(chosen)) == TemplateNotFound(Some(chosen))
  {
    ListedNameLooksUpDoubleExtension(dir, chosen);
  }

  /**
   * A stored template with empty content counts as not found, however it was
   * selected, even when it is a detected baseline name.
   */
  lemma EmptyStoredTemplateIsNotFound(dir: map<string, string>, findings: string, autoDetect: bool, manual: Option<string>, name: string)
    requires SelectTemplate(findings, autoDetect, manual) == Some(name)
    requires FileName(Some(name)) in dir && dir[FileName(Some(name))] == ""
    ensures GenerateReport(dir, findings, autoDetect, manual) == TemplateNotFound(Some(name))
  {
  }
}
