/** The export text offered for download after a run: the six artifacts, each
    under its header, in a fixed order. */
module Report {
  import opened ArtifactState

  /** One section of the export: the text that leads into it (its header
      and a newline and a space, preceded by a blank line for every section
      but the first) and the key whose artifact follows. */
  datatype Section = Section(lead: string, key: Key)

  /** The sections of the export, in the order they appear. */
  const Sections: seq<Section> := [
    Section("User_Stories\n ", UserStories),
    Section("\n\nDesign Document\n ", DesignDocument),
    Section("\n\nGenerated Code\n ", Code),
    Section("\n\nTest Cases\n ", TestCase),
    Section("\n\nQA Testing\n ", QuestionAnswerTesting),
    Section("\n\nSecurity Review\n ", SecurityReview)
  ]

  /** The export text as the session builds it. */
  function Report(s: State): string
  {
    "User_Stories\n " + Get(s, UserStories) +
    "\n\nDesign Document\n " + Get(s, DesignDocument) +
    "\n\nGenerated Code\n " + Get(s, Code) +
    "\n\nTest Cases\n " + Get(s, TestCase) +
    "\n\nQA Testing\n " + Get(s, QuestionAnswerTesting) +
    "\n\nSecurity Review\n " + Get(s, SecurityReview)
  }

  // A reference layout built section by section, against which the export
  // text is checked. The layout is defined for any list of sections, so that
  // its properties are proved without unfolding the export's own list.

  /** The first `n` of `secs`, each lead followed by its artifact. */
  function Layout(s: State, secs: seq<Section>, n: nat): string
    requires n <= |secs|
  {
    if n == 0 then "" else Layout(s, secs, n - 1) + secs[n - 1].lead + Get(s, secs[n - 1].key)
  }

  /** The export text is the layout of all six sections. */
  lemma ReportIsLayout(s: State)
    ensures Report(s) == Layout(s, Sections, |Sections|)
  {
    assert Layout(s, Sections, 1) == "User_Stories\n " + Get(s, UserStories);
    assert Layout(s, Sections, 3) == Layout(s, Sections, 1) + "\n\nDesign Document\n " + Get(s, DesignDocument) +
      "\n\nGenerated Code\n " + Get(s, Code);
    assert Layout(s, Sections, 5) == Layout(s, Sections, 3) + "\n\nTest Cases\n " + Get(s, TestCase) +
      "\n\nQA Testing\n " + Get(s, QuestionAnswerTesting);
  }

  /** A shorter layout is a prefix of a longer one. */
  lemma {:induction false} LayoutPrefix(s: State, secs: seq<Section>, m: nat, n: nat)
    requires m <= n <= |secs|
    ensures Layout(s, secs, m) <= Layout(s, secs, n)
    decreases n
  {
    if m < n {
      LayoutPrefix(s, secs, m, n - 1);
    }
  }

  /** Where section `i` starts in the export text. */
  function Offset(s: State, i: nat): nat
    requires i < |Sections|
  {
    |Layout(s, Sections, i)|
  }

  /** The two parts of `p + lead + v` sit where their lengths put them, in
      any text that the whole is a prefix of. */
  lemma PartsAt(r: string, p: string, lead: string, v: string)
    requires p + lead + v <= r
    ensures |p| + |lead| + |v| <= |r|
    ensures r[|p|..|p| + |lead|] == lead && r[|p| + |lead|..|p| + |lead| + |v|] == v
  {
    var w := p + lead + v;
    assert r[|p|..|p| + |lead|] == w[|p|..|p| + |lead|];
    assert r[|p| + |lead|..|p| + |lead| + |v|] == w[|p| + |lead|..];
  }

  /** The export text begins with the sections before `i` laid out, then
      section `i`'s lead, then its artifact; by PartsAt the lead sits at
      section `i`'s offset and the artifact right after it. */
  lemma ReportSection(s: State, i: nat)
    requires i < |Sections|
    ensures Layout(s, Sections, i) + Sections[i].lead + Get(s, Sections[i].key) <= Report(s)
  {
    ReportIsLayout(s);
    LayoutPrefix(s, Sections, i + 1, |Sections|);
  }

  /** Two sections of a layout, the second after the first: everything of
      the first, its artifact included, ends no later than where the second
      starts, and exactly there when they are neighbours. */
  lemma {:induction false} LayoutInOrder(s: State, secs: seq<Section>, i: nat, j: nat)
    requires i < j <= |secs|
    ensures |Layout(s, secs, i)| + |secs[i].lead| + |Get(s, secs[i].key)| <= |Layout(s, secs, j)|
    ensures j == i + 1 ==> |Layout(s, secs, i)| + |secs[i].lead| + |Get(s, secs[i].key)| == |Layout(s, secs, j)|
    decreases j
  {
    if j > i + 1 {
      LayoutInOrder(s, secs, i, j - 1);
    }
  }

  /** Sections appear in their order: everything of section `i`, its
      artifact included, ends where section `i + 1` starts, and a later
      section starts no earlier. */
  lemma SectionsInOrder(s: State, i: nat, j: nat)
    requires i < j < |Sections|
    ensures Offset(s, i) + |Sections[i].lead| + |Get(s, Sections[i].key)| <= Offset(s, j)
    ensures j == i + 1 ==> Offset(s, i) + |Sections[i].lead| + |Get(s, Sections[i].key)| == Offset(s, j)
  {
    LayoutInOrder(s, Sections, i, j);
  }

  /** The layout reads the sections' artifacts and nothing else. */
  lemma {:induction false} LayoutReadsOnlySections(s: State, t: State, secs: seq<Section>, n: nat)
    requires n <= |secs|
    requires forall i :: 0 <= i < n ==> Get(s, secs[i].key) == Get(t, secs[i].key)
    ensures Layout(s, secs, n) == Layout(t, secs, n)
    decreases n
  {
    if n > 0 {
      LayoutReadsOnlySections(s, t, secs, n - 1);
    }
  }

  /** The export reads the six artifacts and nothing else: two states that
      agree on them export the same text. */
  lemma ReportReadsOnlySections(s: State, t: State)
    requires forall i :: 0 <= i < |Sections| ==> Get(s, Sections[i].key) == Get(t, Sections[i].key)
    ensures Report(s) == Report(t)
  {
    ReportIsLayout(s);
    ReportIsLayout(t);
    LayoutReadsOnlySections(s, t, Sections, |Sections|);
  }
}
