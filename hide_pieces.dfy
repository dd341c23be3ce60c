/** What the HideThinkingPipe's stream loop has yielded, piece by piece,
  * and how it accounts for the upstream text. Kept apart from the pipe so
  * that the account is one fact there. */
module HidePieces {

  import opened Thoughts
  import opened HideRewrap

  /** A piece of the yielded stream: text passed through, or a thought
    * section yielded rewrapped. */
  datatype Piece = Kept(text: string) | Hidden(section: string)

  function KeptText(p: Piece): string
  {
    if p.Kept? then p.text else ""
  }

  /** The text passed through by `ps`, in order. */
  function KeptTexts(ps: seq<Piece>): string
    decreases |ps|
  {
    if ps == [] then "" else KeptTexts(ps[..|ps| - 1]) + KeptText(ps[|ps| - 1])
  }

  /** The number of sections among `ps`. */
  function SectionCount(ps: seq<Piece>): nat
    decreases |ps|
  {
    if ps == [] then 0 else SectionCount(ps[..|ps| - 1]) + (if ps[|ps| - 1].Hidden? then 1 else 0)
  }

  /** The sections among `ps`, in order. */
  function Sections(ps: seq<Piece>): (r: seq<string>)
    ensures |r| == SectionCount(ps)
    decreases |ps|
  {
    if ps == [] then []
    else Sections(ps[..|ps| - 1]) + (if ps[|ps| - 1].Hidden? then [ps[|ps| - 1].section] else [])
  }

  lemma PiecesAppend(ps: seq<Piece>, p: Piece)
    ensures KeptTexts(ps + [p]) == KeptTexts(ps) + KeptText(p)
    ensures SectionCount(ps + [p]) == SectionCount(ps) + (if p.Hidden? then 1 else 0)
    ensures Sections(ps + [p]) == Sections(ps) + (if p.Hidden? then [p.section] else [])
  {
    assert (ps + [p])[..|ps|] == ps;
  }


  /** The account of the loop: `removed` counts the sections of `ps`;
    * putting the `cuts` back into the kept text followed by the buffer gives
    * the upstream text `raw`, and the blocks cut are the sections yielded,
    * in order. */
  ghost predicate Accounted(ps: seq<Piece>, buffer: string, raw: string, removed: nat, cuts: seq<Cut>)
  {
    && removed == SectionCount(ps)
    && Ledger(KeptTexts(ps) + buffer, raw, cuts, removed)
    && CutBlocks(cuts) == Sections(ps)
  }

  /** Yielding a prefix of the buffer as kept text keeps the account. */
  lemma AccountedFlush(ps: seq<Piece>, buffer: string, raw: string, removed: nat, cuts: seq<Cut>, k: nat)
    requires Accounted(ps, buffer, raw, removed, cuts) && k <= |buffer|
    ensures Accounted(ps + [Kept(buffer[..k])], buffer[k..], raw, removed, cuts)
  {
    KeptFlush(ps, buffer, k);
  }

  lemma KeptFlush(ps: seq<Piece>, buffer: string, k: nat)
    requires k <= |buffer|
    ensures KeptTexts(ps + [Kept(buffer[..k])]) + buffer[k..] == KeptTexts(ps) + buffer
    ensures Sections(ps + [Kept(buffer[..k])]) == Sections(ps)
    ensures SectionCount(ps + [Kept(buffer[..k])]) == SectionCount(ps)
  {
    PiecesAppend(ps, Kept(buffer[..k]));
    SplitRejoin(KeptTexts(ps), buffer, k);
    assert Sections(ps) + [] == Sections(ps);
  }

  /** Two single appends are one append of a pair. */
  lemma SnocTwice<T>(a: seq<T>, x: T, y: T)
    ensures a + [x] + [y] == a + [x, y]
  {
  }

  lemma SplitRejoin(a: string, b: string, k: nat)
    requires k <= |b|
    ensures a + b[..k] + b[k..] == a + b
  {
    assert b[..k] + b[k..] == b;
  }

  /** Text appended to the buffer is appended to the upstream text. */
  lemma AccountedHold(ps: seq<Piece>, buffer: string, delta: string, raw: string, removed: nat, cuts: seq<Cut>)
    requires Accounted(ps, buffer, raw, removed, cuts)
    ensures Accounted(ps, buffer + delta, raw + delta, removed, cuts)
  {
    LedgerExtend(KeptTexts(ps), buffer, delta, raw, cuts, removed);
  }

  /** What the stream yields for a piece. */
  function Show(p: Piece): string
  {
    match p
    case Kept(t) => t
    case Hidden(sec) => Rewrap(sec)
  }

  /** What the stream yields for `ps`, piece by piece. */
  function Shows(ps: seq<Piece>): (r: seq<string>)
    ensures |r| == |ps|
    decreases |ps|
  {
    if ps == [] then [] else Shows(ps[..|ps| - 1]) + [Show(ps[|ps| - 1])]
  }

  lemma {:induction false} ShowsEach(ps: seq<Piece>)
    ensures forall i :: 0 <= i < |ps| ==> Shows(ps)[i] == Show(ps[i])
    decreases |ps|
  {
    if ps != [] {
      ShowsEach(ps[..|ps| - 1]);
    }
  }

  /** Every section among `ps` starts with an opener. */
  predicate Opened(ps: seq<Piece>)
    decreases |ps|
  {
    ps == [] || (Opened(ps[..|ps| - 1]) && (ps[|ps| - 1].Hidden? ==> OpenerLen(ps[|ps| - 1].section, 0) > 0))
  }

  lemma {:induction false} OpenedEach(ps: seq<Piece>)
    requires Opened(ps)
    ensures forall i :: 0 <= i < |ps| && ps[i].Hidden? ==> OpenerLen(ps[i].section, 0) > 0
    decreases |ps|
  {
    if ps != [] {
      OpenedEach(ps[..|ps| - 1]);
    }
  }

  /** The stream half of the loop's invariant: each section yielded
    * starts with an opener, and the upstream text is accounted for. */
  ghost predicate StreamInv(ps: seq<Piece>, buffer: string, raw: string, removed: nat, cuts: seq<Cut>)
  {
    Opened(ps) && Accounted(ps, buffer, raw, removed, cuts)
  }

  lemma PiecesGrow(ps: seq<Piece>, p: Piece)
    requires Opened(ps)
    requires p.Hidden? ==> OpenerLen(p.section, 0) > 0
    ensures Opened(ps + [p])
  {
    assert (ps + [p])[..|ps|] == ps;
  }

  /** One more piece yields one more fragment. */
  lemma ShowsAppend(ps: seq<Piece>, p: Piece)
    ensures Shows(ps + [p]) == Shows(ps) + [Show(p)]
  {
    assert (ps + [p])[..|ps|] == ps;
  }
}
