/** How the HideThinkingPipe rewraps a thought section: its opener becomes
  * a collapsed `<details>` header and its closing fence the end of the
  * section. */
module HideRewrap {

  import opened Text
  import opened Thoughts

  const DetailsOpen: string := "\n\n<details>\n<summary>Reasonning</summary>\n\n"
  const DetailsClose: string := "\n\n</details>\n"

  /** `start_thought.sub(rep, s)`: every opener, scanning from the left,
    * replaced by `rep`. */
  function SubOpeners(s: string, rep: string): (r: string)
    decreases |s|
  {
    if s == "" then ""
    else if OpenerLen(s, 0) > 0 then rep + SubOpeners(s[OpenerLen(s, 0)..], rep)
    else [s[0]] + SubOpeners(s[1..], rep)
  }

  /** Text without a backtick holds no opener and is copied. */
  lemma {:induction false} SubOpenersSkip(a: string, b: string, rep: string)
    requires '`' !in a
    ensures SubOpeners(a + b, rep) == a + SubOpeners(b, rep)
    decreases |a|
  {
    if a != "" {
      assert (a + b)[0] == a[0];
      assert OpenerLen(a + b, 0) == 0;
      assert (a + b)[1..] == a[1..] + b;
      SubOpenersSkip(a[1..], b, rep);
    } else {
      assert a + b == b;
    }
  }

  /** A section as the stream yields it: the opener becomes the
    * `<details>` header, then every remaining fence a `</details>`. */
  function Rewrap(section: string): (r: string)
  {
    Replace(SubOpeners(section, DetailsOpen), Fence, DetailsClose)
  }

  /** A section that starts with an opener is yielded as a `<details>`. */
  lemma RewrapOpens(section: string)
    requires OpenerLen(section, 0) > 0
    ensures DetailsOpen <= Rewrap(section)
  {
    var rest := SubOpeners(section[OpenerLen(section, 0)..], DetailsOpen);
    assert SubOpeners(section, DetailsOpen) == DetailsOpen + rest;
    ReplaceSkip(DetailsOpen, rest, Fence, DetailsClose);
  }

  /** A thought without backticks inside is yielded as exactly one
    * `<details>` section holding it. */
  lemma RewrapBlock(opener: string, inner: string)
    requires opener == OpenerSpaced || opener == OpenerTight
    requires '`' !in inner
    ensures Rewrap(opener + inner + Fence) == DetailsOpen + inner + DetailsClose
  {
    SubOpenersOfBlock(opener, inner);
    var head := DetailsOpen + inner;
    NoBacktickInHeader();
    NotInConcat('`', DetailsOpen, inner);
    ReplaceSkip(head, Fence, Fence, DetailsClose);
    assert Replace(Fence, Fence, DetailsClose) == DetailsClose + Replace("", Fence, DetailsClose);
  }

  lemma NoBacktickInHeader()
    ensures Fence[0] == '`' && '`' !in DetailsOpen
  {
  }

  lemma SubOpenersOfBlock(opener: string, inner: string)
    requires opener == OpenerSpaced || opener == OpenerTight
    requires '`' !in inner
    ensures SubOpeners(opener + inner + Fence, DetailsOpen) == DetailsOpen + inner + Fence
  {
    var s := opener + inner + Fence;
    assert OccursAt(s, 0, opener) by { assert s[..|opener|] == opener; }
    assert OpenerLen(s, 0) == |opener|;
    assert s[|opener|..] == inner + Fence;
    SubOpenersSkip(inner, Fence, DetailsOpen);
    SubOpenersOfFence();
  }

  lemma SubOpenersOfFence()
    ensures SubOpeners(Fence, DetailsOpen) == Fence
  {
    assert OpenerLen(Fence, 0) == 0;
    assert OpenerLen(Fence[1..], 0) == 0;
    assert OpenerLen(Fence[2..], 0) == 0;
    assert Fence[1..][1..] == Fence[2..];
  }
}
