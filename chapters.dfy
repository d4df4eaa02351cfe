/** The Chapter record of the script: a number assigned in discovery order and
    the heading text, with the anchor name derived from the number. */
module Chapters {
  import opened Numerals

  const TagPrefix: string := "chapter-"

  datatype Chapter = Chapter(id: nat, name: string) {

    /** tagName: the anchor name of the chapter. */
    function TagName(): string {
      TagPrefix + Decimal(id)
    }
  }

  /** An anchor name is "chapter-" followed by decimal digits that read back as
      the chapter's id. */
  lemma TagNameDigits(c: Chapter)
    ensures |c.TagName()| > |TagPrefix| && c.TagName()[..|TagPrefix|] == TagPrefix
    ensures AllDigits(c.TagName()[|TagPrefix|..]) && ValueOf(c.TagName()[|TagPrefix|..]) == c.id
  {
    DecimalRoundTrip(c.id);
    assert c.TagName()[|TagPrefix|..] == Decimal(c.id);
  }

  /** Two chapters share an anchor exactly when they share an id. */
  lemma TagNameInjective(c: Chapter, d: Chapter)
    ensures c.TagName() == d.TagName() <==> c.id == d.id
  {
    TagNameDigits(c);
    TagNameDigits(d);
    if c.TagName() == d.TagName() {
      assert c.TagName()[|TagPrefix|..] == d.TagName()[|TagPrefix|..];
    }
  }
}
