/**
  The reconciled AGENTS.md (ManagedBlock) as text: what stands before and after the block,
  what the block says, and that the instructions read back from it.
*/
module ManagedBlockFile {
  import opened Common
  import opened Text
  import opened ManagedBlock

  /**
    The agent's own text: before the first start marker, and after the first end marker
    from there on. Without a start marker it is the whole file, without an end marker
    nothing comes after.
  */
  ghost predicate Surrounds(current: string, pre: string, post: string) {
    match Index(current, START)
    case None => pre == current && post == ""
    case Some(i) =>
      pre == current[..i] &&
      match Index(current[i..], END)
      case None => post == ""
      case Some(j) => current[i..] == current[i..][..j] + END + post
  }

  lemma SurroundsIsTheRest(current: string, pre: string, post: string)
    requires Surrounds(current, pre, post)
    ensures pre == ManagedBlock.Before(current) && post == After(current)
  {
    if Index(current, START).Some? {
      var rest := current[Index(current, START).value..];
      if Index(rest, END).Some? {
        var j := Index(rest, END).value;
        assert rest == (rest[..j] + END) + post;
        assert ((rest[..j] + END) + post)[j + |END|..] == post;
      }
    }
  }

  /** What stands in front of a section, and what follows one. */
  function Leading(pre: string): string {
    if Trim(pre) == "" then "" else Trim(pre) + "\n\n"
  }

  function Trailing(post: string): string {
    if Trim(post) == "" then "\n" else "\n\n" + Trim(post) + "\n"
  }

  /** The reconciled file: the agent's text before, the marked body, the agent's text after, set apart by blank lines. */
  lemma ReconciledReads(current: string, desired: string, pre: string, post: string)
    requires Surrounds(current, pre, post) && Trim(desired) != ""
    ensures Reconciled(current, desired) ==
      Leading(pre) + (START + "\n" + Trim(desired) + "\n" + END) + Trailing(post)
  {
    SurroundsIsTheRest(current, pre, post);
    ReconciledShape(current, desired);
    ShapeReads(pre, Trim(desired), post);
  }

  lemma ShapeReads(pre: string, body: string, post: string)
    ensures Shape(Trim(pre), body, Trim(post)) == Leading(pre) + (START + "\n" + body + "\n" + END) + Trailing(post)
  {
    assert Leading(pre) == LeadIn(Trim(pre)) && Trailing(post) == Rest(Trim(post));
    var marked := START + "\n" + body + "\n" + END;
    assert Leading(pre) + (marked + Trailing(post)) == (Leading(pre) + marked) + Trailing(post);
  }

  /** With nothing to say the block goes, and the agent's text stays. */
  lemma RemovalReads(current: string, desired: string, pre: string, post: string)
    requires Surrounds(current, pre, post) && Trim(desired) == ""
    ensures Reconciled(current, desired) ==
      if Trim(pre) == "" && Trim(post) == "" then ""
      else if Trim(pre) == "" then Trim(post) + "\n"
      else Trim(pre) + Trailing(post)
  {
    SurroundsIsTheRest(current, pre, post);
    SpliceWithoutBlock(pre, post);
  }

  lemma SpliceWithoutBlock(pre: string, post: string)
    ensures Splice(pre, "", post) ==
      if Trim(pre) == "" && Trim(post) == "" then ""
      else if Trim(pre) == "" then Trim(post) + "\n"
      else Trim(pre) + Trailing(post)
  {
    TrimmedBlank();
    var first := Section("", pre);
    assert first == Trim(pre) && Section(first, "") == first;
    if Trim(pre) != "" && Trim(post) != "" {
      assert (Trim(pre) + "\n\n" + Trim(post)) + "\n" == Trim(pre) + ("\n\n" + Trim(post) + "\n");
    }
  }

  lemma TrimmedBlank()
    ensures Trim("") == ""
  {
  }

  // ---- what the block says -------------------------------------------------------------

  /** The body: the persona, and under its heading the instructions, when there are any. */
  lemma BodySays(persona: string, text: string)
    ensures ManagedBlockBody(persona, text) ==
      if Trim(text) == "" then Trim(persona) else Trim(persona) + "\n\n" + HEADER + "\n\n" + Trim(text)
  {
  }

  /** Trimming reaches into the front of a text that ends trimmed, never into that end. */
  lemma TrimKeepsATrimmedEnd(x: string, t: string) returns (y: string)
    requires Trimmed(t) && t != ""
    ensures Trim(x + t) == y + t
  {
    var s := x + t;
    var i, j := TrimSplits(s);
    assert s[|x|] == t[0] && s[|s| - 1] == t[|t| - 1];
    BlankEnds(s, i, j, |x|);
    BlankEnds(s, i, j, |s| - 1);
    y := x[i..];
    assert s[i..j] == x[i..] + t;
  }

  lemma BodyEndsWithTheText(persona: string, text: string) returns (y: string)
    requires Trim(text) != ""
    ensures Trim(ManagedBlockBody(persona, text)) == y + Trim(text)
  {
    BodySays(persona, text);
    TrimIdempotent(text);
    y := TrimKeepsATrimmedEnd(Trim(persona) + "\n\n" + HEADER + "\n\n", Trim(text));
  }

  lemma Regrouped(a: string, b: string, y: string, t: string, z: string, c: string)
    ensures a + (b + (y + t) + "\n" + z) + c == (a + b + y) + t + ("\n" + z + c)
  {
    assert b + (y + t) + "\n" + z == (b + y) + t + ("\n" + z);
    assert a + ((b + y) + t + ("\n" + z)) + c == (a + (b + y)) + t + (("\n" + z) + c);
    assert a + (b + y) == a + b + y && ("\n" + z) + c == "\n" + z + c;
  }

  /** Whatever the file held, after the sync the instructions stand at the end of the block, word for word. */
  lemma InstructionsReadBack(current: string, persona: string, text: string) returns (lead: string, rest: string)
    requires Trim(text) != ""
    ensures Reconciled(current, ManagedBlockBody(persona, text)) == lead + Trim(text) + ("\n" + END + rest)
  {
    var body := ManagedBlockBody(persona, text);
    var y := BodyEndsWithTheText(persona, text);
    var pre, post := ManagedBlock.Before(current), After(current);
    ReconciledShape(current, body);
    ShapeReads(pre, Trim(body), post);
    Regrouped(Leading(pre), START + "\n", y, Trim(text), END, Trailing(post));
    lead, rest := Leading(pre) + (START + "\n") + y, Trailing(post);
  }
}
