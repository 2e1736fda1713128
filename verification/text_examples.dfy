/** Worked cases of the title cleanup. */
module TextExamples {
  import opened Text

  /** The whole title is one group: `"(Live)"` becomes the empty string. */
  lemma LiveOnlyBecomesEmpty()
    ensures StripGroups("(Live)") == ""
  {
    assert "(Live)" == "(" + "Live" + ")" + "";
    GroupDropped("Live", "");
  }

  /** `()` is not a match; the characters stay. */
  lemma EmptyGroupKept()
    ensures StripGroups("a()") == "a()"
  {
    assert !GroupAt("()");
  }

  /**
   * Two groups, each preceded by text without `(`: both groups go and the surrounding
   * text is kept as it is, spaces included.
   */
  lemma TwoGroupsDropped(p: string, c1: string, q: string, c2: string)
    requires '(' !in p && '(' !in q
    requires c1 != [] && ')' !in c1 && c2 != [] && ')' !in c2
    ensures StripGroups(p + "(" + c1 + ")" + q + "(" + c2 + ")") == p + q
  {
    var g1 := "(" + c1 + ")";
    var g2 := "(" + c2 + ")";
    var tail := q + g2;
    assert p + "(" + c1 + ")" + q + "(" + c2 + ")" == p + (g1 + tail);
    assert g2 == g2 + [];
    GroupDropped(c2, []);
    assert StripGroups(g2) == [];
    PlainPrefix(q, g2);
    assert StripGroups(tail) == q;
    GroupDropped(c1, tail);
    assert StripGroups(g1 + tail) == q;
    PlainPrefix(p, g1 + tail);
  }

  /**
   * `"Song (Live) (Remastered)"` becomes `"Song  "`: nothing is trimmed, so the space
   * before each group stays.
   */
  lemma TwoGroupsStripped()
    ensures StripGroups("Song (Live) (Remastered)") == "Song  "
  {
    assert "Song " + "(" + "Live" + ")" + " " + "(" + "Remastered" + ")" == "Song (Live) (Remastered)";
    assert "Song " + " " == "Song  ";
    TwoGroupsDropped("Song ", "Live", " ", "Remastered");
  }
}
