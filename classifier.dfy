/**
 * `detect_template_from_findings`: an ordered keyword table scanned against
 * the lower-cased findings; the first keyword that occurs decides the
 * template, and no occurrence gives no template.
 */
module Classifier {
  import opened Options
  import opened Text
  import opened Templates

  /** The keyword table, in its fixed (insertion) order: keyword, template name. */
  const Keywords: seq<(string, string)> := [
    ("liver", "CT Abdomen"),
    ("thyroid", "Thyroid Ultrasound (TI-RADS)"),
    ("breast", "Breast Ultrasound (BI-RADS)"),
    ("lung nodule", "CT Chest"),
    ("prostate", "Prostate MRI (PI-RADS)"),
    ("biliary", "MRCP"),
    ("brain", "MRI Brain"),
    ("pelvis", "Ultrasound Pelvis")
  ]

  /** Entry `i` is the earliest entry of `table` whose keyword occurs in `s`. */
  predicate IsFirstMatch(table: seq<(string, string)>, s: string, i: int)
  {
    0 <= i < |table| && Contains(s, table[i].0) &&
    forall j :: 0 <= j < i ==> !Contains(s, table[j].0)
  }

  /** No keyword of `table` occurs in `s`. */
  predicate NoneOccurs(table: seq<(string, string)>, s: string)
  {
    forall i :: 0 <= i < |table| ==> !Contains(s, table[i].0)
  }

  /**
   * Ordered first-match over a keyword table.  Whatever it returns is one of
   * the table's template names.
   */
  function FirstMatch(table: seq<(string, string)>, s: string): (r: Option<string>)
    ensures r.Some? ==> exists i :: 0 <= i < |table| && r.value == table[i].1
  {
    if table == [] then None
    else if Contains(s, table[0].0) then Some(table[0].1)
    else
      var r := FirstMatch(table[1..], s);
      assert r.Some? ==> exists i :: 1 <= i < |table| && r.value == table[i].1 by {
        if r.Some? {
          var i :| 0 <= i < |table[1..]| && r.value == table[1..][i].1;
          assert table[1..][i] == table[i + 1];
        }
      }
      r
  }

  /**
   * The classifier as a function of the findings text: first-match over the
   * keyword table and the lower-cased text.  Every name it detects is a key
   * of the baseline table.
   */
  function Detect(text: string): (r: Option<string>)
    ensures r.Some? ==> r.value in Baseline
  {
    FirstMatch(Keywords, Lower(text))
  }

  /**
   * First-match is exactly what `FirstMatch` computes: it finds nothing
   * precisely when no keyword occurs, and otherwise it returns the template
   * of the earliest occurring keyword.
   */
  lemma {:induction false} FirstMatchSpec(table: seq<(string, string)>, s: string)
    ensures FirstMatch(table, s).None? <==> NoneOccurs(table, s)
    ensures forall i :: IsFirstMatch(table, s, i) ==> FirstMatch(table, s) == Some(table[i].1)
    ensures FirstMatch(table, s).Some? ==>
              exists i :: IsFirstMatch(table, s, i) && FirstMatch(table, s).value == table[i].1
  {
    if table != [] {
      FirstMatchSpec(table[1..], s);
      if !Contains(s, table[0].0) {
        forall i | IsFirstMatch(table, s, i)
          ensures FirstMatch(table, s) == Some(table[i].1)
        {
          assert IsFirstMatch(table[1..], s, i - 1);
        }
        if FirstMatch(table, s).Some? {
          var i :| IsFirstMatch(table[1..], s, i) && FirstMatch(table[1..], s).value == table[1..][i].1;
          assert IsFirstMatch(table, s, i + 1);
        }
      } else {
        assert IsFirstMatch(table, s, 0);
      }
    }
  }

  /**
   * `detect_template_from_findings(text)`: walk the table in order and
   * return the template of the first keyword found in `text.lower()`.
   */
  method DetectTemplateFromFindings(text: string) returns (r: Option<string>)
    ensures r.None? <==> NoneOccurs(Keywords, Lower(text))
    ensures forall i :: IsFirstMatch(Keywords, Lower(text), i) ==> r == Some(Keywords[i].1)
    ensures r == Detect(text)
  {
    var lowered := Lower(text);
    var i := 0;
    while i < |Keywords|
      invariant 0 <= i <= |Keywords|
      invariant forall j :: 0 <= j < i ==> !Contains(lowered, Keywords[j].0)
      invariant FirstMatch(Keywords[i..], lowered) == FirstMatch(Keywords, lowered)
    {
      if Contains(lowered, Keywords[i].0) {
        assert IsFirstMatch(Keywords, lowered, i);
        return Some(Keywords[i].1);
      }
      assert Keywords[i..][1..] == Keywords[i + 1..];
      i := i + 1;
    }
    return None;
  }

  /** Matching ignores case: the findings and their lower-cased form classify alike. */
  lemma DetectIgnoresCase(text: string)
    ensures Detect(text) == Detect(Lower(text))
  {
    LowerIdempotent(text);
  }

  /** Empty findings classify as no template. */
  lemma DetectEmpty()
    ensures Detect("") == None
  {
    FirstMatchSpec(Keywords, "");
    forall i | 0 <= i < |Keywords|
      ensures !Contains("", Keywords[i].0)
    {
      EmptyContainsNothing(Keywords[i].0);
    }
  }

  /** Hence `load_template` of a detected name always finds a template. */
  lemma DetectedAlwaysLoads(dir: map<string, string>, text: string)
    ensures Detect(text).Some? ==> LoadTemplate(dir, Detect(text)).Some?
  {
  }

  /**
   * Priority, not position in the text, decides: once keyword `i` occurs,
   * the result is a template and is never that of a later keyword `j`.
   */
  lemma HigherPriorityWins(text: string, i: nat, j: nat)
    requires i < j < |Keywords|
    requires Contains(Lower(text), Keywords[i].0)
    ensures Detect(text).Some?
    ensures Detect(text) != Some(Keywords[j].1)
  {
    var s := Lower(text);
    FirstMatchSpec(Keywords, s);
    assert !NoneOccurs(Keywords, s);
    var k :| IsFirstMatch(Keywords, s, k) && Detect(text).value == Keywords[k].1;
    assert k <= i;
    TemplatesDistinct(k, j);
  }

  /** The table's template names are pairwise different. */
  lemma TemplatesDistinct(a: nat, b: nat)
    requires a < b < |Keywords|
    ensures Keywords[a].1 != Keywords[b].1
  {
  }

  /**
   * Findings that mention both the brain and the liver, in whatever order,
   * are classified by "liver", which the table lists before "brain".
   */
  lemma LiverOutranksBrain(text: string)
    requires Contains(Lower(text), "brain") && Contains(Lower(text), "liver")
    ensures Detect(text) == Some("CT Abdomen")
    ensures Detect(text) != Some("MRI Brain")
  {
    HigherPriorityWins(text, 0, 6);
  }
}
