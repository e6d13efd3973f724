/**
 * The template store: the process-wide `templates` directory, the built-in
 * baseline table, and the tiered lookup `load_template`.
 *
 * The directory is a flat map from file name (such as "CT Chest.txt") to
 * file content.  The sidebar's Add, Edit and Delete blocks change it in
 * place, so it is the one field of the class `TemplateDirectory`; the
 * read-only `load_template` and `list_templates` are functions of its
 * contents.
 */
module Templates {
  import opened Options
  import opened Text

  /** The extension every stored template carries. */
  const Extension := ".txt"

  /** `BASELINE_TEMPLATES`: the built-in templates, by name. */
  const Baseline: map<string, string> := map[
    "CT Abdomen" := "Type of Study: CT Abdomen and Pelvis\nHistory:\nFindings:\nImpression:",
    "CT Chest" := "Type of Study: CT Chest\nHistory:\nFindings:\nImpression:",
    "MRI Brain" := "Type of Study: MRI Brain\nHistory:\nFindings:\nImpression:",
    "Ultrasound Abdomen" := "Type of Study: Ultrasound Abdomen\nHistory:\nFindings:\nImpression:",
    "Ultrasound Pelvis" := "Type of Study: Ultrasound Pelvis (Female)\nHistory:\nFindings:\nImpression:",
    "MRCP" := "Type of Study: MRCP\nHistory:\nFindings:\nImpression:",
    "Thyroid Ultrasound (TI-RADS)" := "Type of Study: Ultrasound Thyroid (TI-RADS)\nHistory:\nFindings:\nImpression:",
    "Breast Ultrasound (BI-RADS)" := "Type of Study: Ultrasound Breast (BI-RADS)\nHistory:\nFindings:\nImpression:",
    "Liver CT (LI-RADS)" := "Type of Study: CT Liver (LI-RADS)\nHistory:\nFindings:\nImpression:",
    "Prostate MRI (PI-RADS)" := "Type of Study: MRI Prostate (PI-RADS)\nHistory:\nFindings:\nImpression:"
  ]

  /**
   * The file a template name is stored under: the f-string `f"{name}.txt"`.
   * A missing name (Python's `None`) formats as the text "None".  The file
   * name always carries the extension, and the name is what precedes it.
   */
  function FileName(name: Option<string>): (r: string)
    ensures EndsWith(r, Extension)
    ensures r[..|r| - |Extension|] == if name.Some? then name.value else "None"
  {
    match name
    case None => "None" + Extension
    case Some(n) => n + Extension
  }

  /** The baseline tier on its own: `BASELINE_TEMPLATES[name]` when the name is a key. */
  function BaselineLookup(name: Option<string>): Option<string>
  {
    if name.Some? && name.value in Baseline then Some(Baseline[name.value]) else None
  }

  /**
   * `load_template(name)`: the local file `<name>.txt` first, read in text
   * mode, then the baseline table, otherwise nothing.  A stored file always
   * gives a template; any template comes from one of the two tiers.
   */
  function LoadTemplate(dir: map<string, string>, name: Option<string>): (r: Option<string>)
    ensures FileName(name) in dir ==> r.Some?
    ensures r.Some? ==> FileName(name) in dir || (name.Some? && name.value in Baseline)
  {
    var path := FileName(name);
    if path in dir then Some(ReadText(dir[path])) else BaselineLookup(name)
  }

  /**
   * `list_templates()`: the stored file names that end in ".txt".  Only
   * stored files with that extension are listed, and every file a template
   * name is saved under is.
   */
  function ListTemplates(dir: map<string, string>): (r: set<string>)
    ensures r <= dir.Keys
    ensures forall f :: f in r ==> EndsWith(f, Extension)
    ensures forall n :: FileName(Some(n)) in dir ==> FileName(Some(n)) in r
  {
    set f | f in dir && EndsWith(f, Extension)
  }

  /**
   * The three tiers of `load_template`, in order: a stored file wins even
   * over a baseline template of the same name, and gives its text as read in
   * text mode; the baseline body is used only when no file is stored; a name
   * in neither tier resolves to nothing.
   */
  lemma LoadTiers(dir: map<string, string>, name: Option<string>)
    ensures FileName(name) in dir ==> LoadTemplate(dir, name) == Some(ReadText(dir[FileName(name)]))
    ensures FileName(name) !in dir && name.Some? && name.value in Baseline ==>
              LoadTemplate(dir, name) == Some(Baseline[name.value])
    ensures LoadTemplate(dir, name).None? <==>
              FileName(name) !in dir && (name.None? || name.value !in Baseline)
  {
  }

  /** No baseline template name ends in ".txt". */
  lemma BaselineNamesHaveNoExtension(f: string)
    requires EndsWith(f, Extension)
    ensures f !in Baseline
  {
  }

  /** Every built-in body is a non-empty text. */
  lemma BaselineBodiesNonEmpty(n: string)
    requires n in Baseline
    ensures |Baseline[n]| > 0
  {
  }

  /**
   * A file name picked from `list_templates()` and handed to `load_template`
   * gets ".txt" appended a second time, and is never a baseline name: it
   * resolves only when a file named "<f>.txt" is also stored.
   */
  lemma ListedNameLooksUpDoubleExtension(dir: map<string, string>, f: string)
    requires f in ListTemplates(dir)
    ensures LoadTemplate(dir, Some(f)) ==
              if f + Extension in dir then Some(ReadText(dir[f + Extension])) else None
  {
    BaselineNamesHaveNoExtension(f);
  }

  /** A missing name looks up the file "None.txt" and nothing else. */
  lemma MissingNameLooksUpNoneFile(dir: map<string, string>)
    ensures LoadTemplate(dir, None) ==
              if "None.txt" in dir then Some(ReadText(dir["None.txt"])) else None
    ensures FileName(None) == FileName(Some("None"))
  {
    assert FileName(None) == "None.txt";
  }

  /** The `templates` directory, updated in place by the sidebar actions. */
  class TemplateDirectory {
    var files: map<string, string>

    /** The directory as found at start-up (`os.makedirs(..., exist_ok=True)` keeps any content). */
    constructor (initial: map<string, string>)
      ensures files == initial
    {
      files := initial;
    }

    /**
     * Add Template: write `content` to "<name>.txt", creating or
     * overwriting it.  Afterwards the name loads that content as read back
     * in text mode (exactly the content when it holds no carriage return)
     * and the file is listed; every other file is untouched.
     */
    method Save(name: string, content: string)
      modifies this
      ensures files == old(files)[FileName(Some(name)) := content]
      ensures LoadTemplate(files, Some(name)) == Some(ReadText(content))
      ensures (forall i :: 0 <= i < |content| ==> content[i] != '\r') ==>
                LoadTemplate(files, Some(name)) == Some(content)
      ensures FileName(Some(name)) in ListTemplates(files)
      ensures forall f :: f != FileName(Some(name)) ==>
                (f in files <==> f in old(files)) && (f in files ==> files[f] == old(files)[f])
    {
      files := files[FileName(Some(name)) := content];
      if forall i :: 0 <= i < |content| ==> content[i] != '\r' {
        ReadTextKeepsPlainText(content);
      }
    }

    /**
     * Edit Template, first step: read the selected file, in text mode, to
     * show it for editing.
     */
    method Read(file: string) returns (content: string)
      requires file in ListTemplates(files)
      ensures file in files && content == ReadText(files[file])
      ensures forall i :: 0 <= i < |content| ==> content[i] != '\r'
    {
      content := ReadText(files[file]);
    }

    /**
     * Edit Template: overwrite the selected listed file with the edited text.
     * The listing is unchanged and no other file changes.
     */
    method Update(file: string, edited: string)
      requires file in ListTemplates(files)
      modifies this
      ensures files == old(files)[file := edited]
      ensures files.Keys == old(files).Keys
      ensures ListTemplates(files) == old(ListTemplates(files))
      ensures forall f :: f != file && f in files ==> files[f] == old(files)[f]
    {
      files := files[file := edited];
    }

    /**
     * Delete Template: remove the selected listed file.  It leaves the
     * listing and the lookup of its name falls back to the baseline tier;
     * every other file is untouched.
     */
    method Delete(file: string)
      requires file in ListTemplates(files)
      modifies this
      ensures files == old(files) - {file}
      ensures ListTemplates(files) == old(ListTemplates(files)) - {file}
      ensures forall n :: FileName(Some(n)) == file ==> LoadTemplate(files, Some(n)) == BaselineLookup(Some(n))
      ensures forall f :: f != file ==>
                (f in files <==> f in old(files)) && (f in files ==> files[f] == old(files)[f])
    {
      files := files - {file};
    }
  }
}
