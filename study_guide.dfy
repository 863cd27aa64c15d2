/** The study-guide viewer: the text its copy button puts on the clipboard,
    the selected section and the bookmark flag. */
module StudyGuideView {
  import opened Text
  import opened Artifacts

  /** `• point` for each key point, one per line. */
  function Bullets(points: seq<string>): seq<string>
  {
    seq(|points|, i requires 0 <= i < |points| => "• " + points[i])
  }

  /** One section as copied: title, blank line, summary, blank line, bullets. */
  function SectionText(s: Section): string
  {
    s.section + "\n\n" + s.summary + "\n\n" + Join(Bullets(s.keyPoints), "\n")
  }

  function SectionTexts(content: seq<Section>): (r: seq<string>)
    ensures |r| == |content|
    ensures forall i :: 0 <= i < |content| ==> r[i] == SectionText(content[i])
  {
    seq(|content|, i requires 0 <= i < |content| => SectionText(content[i]))
  }

  /** The copy-to-clipboard text: the sections in content order, separated by
      blank lines. */
  function CopyText(content: seq<Section>): string
  {
    Join(SectionTexts(content), "\n\n")
  }

  /** Copying is compositional: the text of two non-empty parts is their texts
      around one blank-line separator; empty content copies nothing, and one
      section copies its own text. */
  lemma CopyTextConcat(a: seq<Section>, b: seq<Section>)
    requires |a| > 0 && |b| > 0
    ensures CopyText(a + b) == CopyText(a) + "\n\n" + CopyText(b)
  {
    assert SectionTexts(a + b) == SectionTexts(a) + SectionTexts(b);
    JoinConcat(SectionTexts(a), SectionTexts(b), "\n\n");
  }

  lemma CopyTextSmall(s: Section)
    ensures CopyText([]) == ""
    ensures CopyText([s]) == SectionText(s)
  {
  }

  /** The text of the whole guide begins with the first section's text. */
  lemma CopyTextStartsWithFirstSection(content: seq<Section>)
    requires |content| > 0
    ensures var t := CopyText(content); var f := SectionText(content[0]);
      |f| <= |t| && t[..|f|] == f
  {
    JoinStartsWithFirst(SectionTexts(content), "\n\n");
  }

  /** Each section's text begins with its title and a blank line. */
  lemma SectionTextStartsWithTitle(s: Section)
    ensures var f := SectionText(s); var h := s.section + "\n\n";
      |h| <= |f| && f[..|h|] == h
  {
    var h := s.section + "\n\n";
    var rest := s.summary + "\n\n" + Join(Bullets(s.keyPoints), "\n");
    assert SectionText(s) == h + rest;
    PrefixOfConcat(h, rest);
  }

  lemma PrefixOfConcat(a: string, b: string)
    ensures (a + b)[..|a|] == a
  {
  }

  class StudyGuidePanel {
    const content: seq<Section>
    var activeSection: nat
    var bookmarked: bool

    /** Only indices of `content` are ever selected. */
    ghost predicate Valid()
      reads this
    {
      activeSection == 0 || activeSection < |content|
    }

    constructor (content: seq<Section>)
      ensures Valid() && this.content == content && activeSection == 0 && !bookmarked
    {
      this.content := content;
      activeSection := 0;
      bookmarked := false;
    }

    /** A click on the `index`-th entry of the contents list. */
    method SelectSection(index: nat)
      requires Valid() && index < |content|
      modifies this`activeSection
      ensures Valid() && activeSection == index
    {
      activeSection := index;
    }

    method ToggleBookmark()
      requires Valid()
      modifies this`bookmarked
      ensures Valid() && bookmarked == !old(bookmarked)
    {
      bookmarked := !bookmarked;
    }

    /** The section on display: the active element of the content. Empty
      content has none, and the render's `content[activeSection].section`
      throws; `None` stands for that crash. */
    method Displayed() returns (s: Option<Section>)
      requires Valid()
      ensures s.None? <==> |content| == 0
      ensures s.Some? ==> s.value in content && s.value == content[activeSection]
    {
      if |content| == 0 {
        return None;
      }
      s := Some(content[activeSection]);
    }
  }
}
