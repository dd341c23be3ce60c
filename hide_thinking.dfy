/** The HideThinkingPipe: like the RemoveThinkingPipe it forwards a chat to
  * LiteLLM, but instead of deleting the thought blocks of the streamed
  * answer it rewraps each one as a collapsed `<details>` section. It also
  * caches Claude system prompts and sends every distinct status message
  * only once in a row.
  *
  * The payload munging is the same code as in the RemoveThinkingPipe and
  * is modelled there (`RemoveThinkingPipe.BuildPayload`).
  */
module HideThinkingPipe {

  import opened Wrappers
  import opened Text
  import opened Json
  import opened Thoughts
  import opened HideRewrap
  import opened HidePieces
  import opened HideStatus
  import opened ChunkParsing
  import opened Status
  import opened ClaudeCaching
  import RemoveThinkingPipe


  const ValveKeyEmptyMsg: string := "Valve api_key is empty"
  const ParsingChunkMsg: string := "Error when parsing chunk: "
  const NoTextMsg: string := "No text to show"

  /** What the pipe yields when the valves are refused, before its status
    * closures exist. */
  function KeyErrorReport(msg: string): string
  {
    "An error has occured:\n---\n" + msg + "\n---"
  }

  /** The greedy match of the buffer, as a string. */
  function Section(t: string): (r: Option<string>)
    ensures r.Some? <==> GreedyBlock(t).Some?
    ensures r.Some? ==> r.value == t[GreedyBlock(t).value.0..GreedyBlock(t).value.1]
  {
    match GreedyBlock(t)
    case None => None
    case Some((i, j)) => Some(t[i..j])
  }

  /** `buffer.replace(section, "")` deletes exactly the matched span: no
    * copy of it starts before the match, since it would start with an
    * earlier opener, and none follows it, since the match runs to the last
    * fence. */
  lemma ReplaceCutsGreedy(t: string)
    requires GreedyBlock(t).Some?
    ensures Replace(t, Section(t).value, "") == RemoveThinkingPipe.CutGreedy(t)
  {
    var (i, j) := GreedyBlock(t).value;
    var sec := t[i..j];
    var n := OpenerLen(t, i);
    assert sec != "";
    forall p | 0 <= p < i ensures !OccursAt(t, p, sec) {
      if OccursAt(t, p, sec) {
        CopyIsBlock(t, i, j, p);
      }
    }
    ReplaceFrom(t, sec, "", i);
    assert t[i..][..|sec|] == sec;
    assert t[i..][|sec|..] == t[j..];
    assert !IsInfix(sec, t[j..]) by {
      if IsInfix(sec, t[j..]) {
        var q :| 0 <= q <= |t[j..]| && OccursAt(t[j..], q, sec);
        LaterCopyExtends(t, i, j, q);
      }
    }
    ReplaceAbsent(t[j..], sec, "");
  }

  /** A copy of a block is a block. */
  lemma CopyIsBlock(t: string, i: nat, j: nat, p: nat)
    requires BlockAt(t, i, j, false) && j <= |t|
    requires OccursAt(t, p, t[i..j])
    ensures BlockAt(t, p, p + (j - i), false)
  {
    var n := OpenerLen(t, i);
    CopySlice(t, i, j, p, 0, n);
    CopySlice(t, i, j, p, j - i - 3, j - i);
    if n == 12 {
      assert OccursAt(t, p, OpenerSpaced);
    } else {
      assert OccursAt(t, p, OpenerTight);
    }
  }

  /** Within a copy of `t[i..j]` at `p`, every slice repeats the original. */
  lemma CopySlice(t: string, i: nat, j: nat, p: nat, a: nat, b: nat)
    requires i <= j <= |t| && OccursAt(t, p, t[i..j]) && a <= b <= j - i
    ensures t[p + a..p + b] == t[i + a..i + b]
  {
    var x, y := t[p + a..p + b], t[i + a..i + b];
    forall k | 0 <= k < |x|
      ensures x[k] == y[k]
    {
      assert t[p + a + k] == t[p..p + (j - i)][a + k];
    }
  }

  /** A copy of a block after it ends a longer block. */
  lemma LaterCopyExtends(t: string, i: nat, j: nat, q: nat)
    requires BlockAt(t, i, j, false) && j <= |t|
    requires OccursAt(t[j..], q, t[i..j])
    ensures BlockAt(t, i, j + q + (j - i), false)
  {
    var sec := t[i..j];
    var e := j + q + |sec|;
    assert t[j..][q + |sec| - 3..q + |sec|] == t[e - 3..e];
    assert t[j..][q..q + |sec|] == sec;
    assert t[e - 3..e] == sec[|sec| - 3..] == t[j - 3..j];
  }

  /** Every match of the pipe's pattern starts with an opener. */
  lemma SectionOpens(t: string)
    requires GreedyBlock(t).Some?
    ensures OpenerLen(Section(t).value, 0) > 0
  {
    var (i, j) := GreedyBlock(t).value;
    var n := OpenerLen(t, i);
    assert t[i..j][..n] == t[i..i + n];
    if n == 12 {
      assert OccursAt(t[i..j], 0, OpenerSpaced);
    } else {
      assert OccursAt(t[i..j], 0, OpenerTight);
    }
  }

  /** A delta after which the pattern matches: the section is yielded and
    * the buffer loses it. */
  lemma StreamHide(ps: seq<Piece>, buffer: string, delta: string, raw: string, removed: nat, cuts: seq<Cut>)
    requires StreamInv(ps, buffer, raw, removed, cuts)
    requires GreedyBlock(buffer + delta).Some?
    ensures var t := buffer + delta;
            var sec := Section(t).value;
            StreamInv(ps + [Hidden(sec)], RemoveThinkingPipe.CutGreedy(t), raw + delta, removed + 1,
                      cuts + RemoveThinkingPipe.CutOf(KeptTexts(ps), t))
  {
    var t := buffer + delta;
    var sec := Section(t).value;
    RemoveThinkingPipe.AbsorbCuts(KeptTexts(ps), buffer, delta, raw, cuts, removed);
    SectionCut(KeptTexts(ps), t, cuts);
    SectionOpens(t);
    PiecesAppend(ps, Hidden(sec));
    PiecesGrow(ps, Hidden(sec));
    assert KeptTexts(ps + [Hidden(sec)]) == KeptTexts(ps) + "" == KeptTexts(ps);
  }

  /** The block cut when the pattern matches is the section yielded. */
  lemma SectionCut(done: string, t: string, cuts: seq<Cut>)
    requires GreedyBlock(t).Some?
    ensures CutBlocks(cuts + RemoveThinkingPipe.CutOf(done, t)) == CutBlocks(cuts) + [Section(t).value]
  {
    var i, j := RemoveThinkingPipe.GreedyCut(done, t);
    CutBlocksAppend(cuts, Cut(|done| + i, t[i..j]));
  }

  /** A delta after which the pattern does not match is only appended. */
  lemma StreamHold(ps: seq<Piece>, buffer: string, delta: string, raw: string, removed: nat, cuts: seq<Cut>)
    requires StreamInv(ps, buffer, raw, removed, cuts)
    requires GreedyBlock(buffer + delta).None?
    ensures StreamInv(ps, buffer + delta, raw + delta, removed, cuts)
  {
    AccountedHold(ps, buffer, delta, raw, removed, cuts);
  }

  /** Yielding a prefix of the buffer as kept text. */
  lemma StreamFlush(ps: seq<Piece>, buffer: string, raw: string, removed: nat, cuts: seq<Cut>, k: nat)
    requires StreamInv(ps, buffer, raw, removed, cuts) && k <= |buffer|
    ensures StreamInv(ps + [Kept(buffer[..k])], buffer[k..], raw, removed, cuts)
  {
    AccountedFlush(ps, buffer, raw, removed, cuts, k);
    PiecesGrow(ps, Kept(buffer[..k]));
  }

  /** The last buffer yielded as its section, rewrapped, then the rest. */
  lemma StreamDrainHide(ps: seq<Piece>, buffer: string, raw: string, removed: nat, cuts: seq<Cut>)
    requires StreamInv(ps, buffer, raw, removed, cuts)
    requires GreedyBlock(buffer).Some?
    ensures var sec := Section(buffer).value;
            var rest := RemoveThinkingPipe.CutGreedy(buffer);
            StreamInv(ps + [Hidden(sec), Kept(rest)], "", raw, removed + 1,
                      cuts + RemoveThinkingPipe.CutOf(KeptTexts(ps), buffer))
  {
    assert buffer + "" == buffer && raw + "" == raw;
    StreamHide(ps, buffer, "", raw, removed, cuts);
    var sec := Section(buffer).value;
    var rest := RemoveThinkingPipe.CutGreedy(buffer);
    var cuts' := cuts + RemoveThinkingPipe.CutOf(KeptTexts(ps), buffer);
    StreamFlush(ps + [Hidden(sec)], rest, raw, removed + 1, cuts', |rest|);
    assert rest[..|rest|] == rest && rest[|rest|..] == "";
    SnocTwice(ps, Hidden(sec), Kept(rest));
  }

  /** The state of one call of `pipe` once its status closures exist: the
    * last status message sent, whether the status is cleared at the end,
    * the statuses sent, and the stream loop's `buffer`, count of sections and
    * yielded fragments. Each fragment is recorded as a piece, kept text or a
    * section, whose yielded text is `Show` of it, so what the generator has
    * yielded so far is `Shows(pieces)`. `raw` is everything upstream sent so
    * far. */
  class PipeCall {
    const holdBack: nat
    /** `not debug`: the initial value of `clear_emitter`. */
    const clearAtStart: bool
    var latest: Msg
    var clearEmitter: bool
    var events: seq<Event>
    var buffer: string
    var thoughtRemoved: nat
    ghost var raw: string
    var pieces: seq<Piece>
    /** Where the sections were cut out of the upstream text. */
    ghost var cuts: seq<Cut>
    /** The statuses asked of the closures, sent or not. */
    ghost var requested: seq<Event>

    ghost predicate Stream()
      reads this`pieces, this`buffer, this`raw, this`thoughtRemoved, this`cuts
    {
      StreamInv(pieces, buffer, raw, thoughtRemoved, cuts)
    }

    ghost predicate Status()
      reads this`events, this`requested, this`latest, this`clearEmitter
    {
      StatusInv(events, requested, latest, clearEmitter, clearAtStart)
    }

    ghost predicate Valid()
      reads this
    {
      Stream() && Status()
    }

    constructor (holdBack: nat, clearAtStart: bool)
      ensures Valid() && this.holdBack == holdBack && this.clearAtStart == clearAtStart
      ensures events == [] && requested == [] && latest == Cleared && clearEmitter == clearAtStart
      ensures buffer == "" && thoughtRemoved == 0 && raw == "" && pieces == [] && cuts == []
    {
      this.holdBack := holdBack;
      this.clearAtStart := clearAtStart;
      latest := Cleared;
      clearEmitter := clearAtStart;
      events := [];
      requested := [];
      buffer := "";
      thoughtRemoved := 0;
      raw := "";
      pieces := [];
      cuts := [];
      SubsequenceRefl("");
    }

    /** `prog`, `succ` and `err`: nothing happens when `msg` is the last
      * message sent; otherwise it is sent, and an error keeps the status
      * from being cleared at the end. */
    method Send(level: Level, msg: Msg)
      requires Status() && msg != Cleared && !msg.ErrorWas?
      modifies this`events, this`requested, this`latest, this`clearEmitter
      ensures Status()
      ensures requested == old(requested) + [Event(level, msg)]
      ensures events == old(events) + Sent(old(latest), Event(level, msg))
      ensures latest == msg
    {
      StatusRequest(events, requested, latest, clearEmitter, clearAtStart, Event(level, msg));
      requested := requested + [Event(level, msg)];
      if msg != latest {
        events := events + [Event(level, msg)];
        latest := msg;
        if level == Failure {
          clearEmitter := false;
        }
      } else {
        assert events + [] == events;
      }
    }

    /** `err(f"Error: {e}")` in the handler: the error is always new. */
    method Fail(e: Exc)
      requires Status()
      modifies this`events, this`requested, this`latest, this`clearEmitter
      ensures requested == old(requested) + [Event(Failure, ErrorWas(e))]
      ensures events == old(events) + [Event(Failure, ErrorWas(e))] && events == Dedup(Cleared, requested)
      ensures NoRepeats(Cleared, events) && !clearEmitter
    {
      StatusLast(events, requested, latest, clearEmitter, clearAtStart, Event(Failure, ErrorWas(e)));
      requested := requested + [Event(Failure, ErrorWas(e))];
      events := events + [Event(Failure, ErrorWas(e))];
      latest := ErrorWas(e);
      clearEmitter := false;
    }

    /** `succ("")` when the status is to be cleared; like any message it is
      * dropped when it equals the last one, which only happens before
      * anything was sent. */
    method ClearStatus()
      requires Status()
      modifies this`events, this`requested, this`latest
      ensures requested == old(requested) + (if clearEmitter then [Event(Success, Cleared)] else [])
      ensures events == old(events) + (if clearEmitter && old(events) != [] then [Event(Success, Cleared)] else [])
      ensures events == Dedup(Cleared, requested) && NoRepeats(Cleared, events)
      ensures Event(Success, Cleared) in events <==>
                clearAtStart && !RemoveThinkingPipe.HasFailure(old(events)) && old(events) != []
    {
      DedupSpec(Cleared, requested);
      if clearEmitter {
        if latest != Cleared {
          StatusLast(events, requested, latest, clearEmitter, clearAtStart, Event(Success, Cleared));
          events := events + [Event(Success, Cleared)];
          latest := Cleared;
        } else {
          DedupAppend(Cleared, requested, [Event(Success, Cleared)]);
          DedupOne(latest, Event(Success, Cleared));
          assert events + [] == events;
        }
        requested := requested + [Event(Success, Cleared)];
      } else {
        assert requested + [] == requested;
      }
    }

    /** One non-empty content delta: append it, yield the rewrapped section
      * if the pattern matches, then wait for an open thought or flush all
      * but the last `holdBack` characters. */
    method Feed(delta: string)
      requires Valid()
      modifies this
      ensures Valid()
      ensures raw == old(raw) + delta
      ensures cuts == old(cuts) + RemoveThinkingPipe.CutOf(KeptTexts(old(pieces)), old(buffer) + delta)
      ensures var t := old(buffer) + delta;
              var c := RemoveThinkingPipe.CutGreedy(t);
              && thoughtRemoved == old(thoughtRemoved) + (if GreedyBlock(t).Some? then 1 else 0)
              && Flushed(c, holdBack, old(pieces) + SectionPieces(t), pieces, buffer)
              && requested == old(requested) + RemovedEvents(t, thoughtRemoved)
                                            + RemoveThinkingPipe.WaitEvents(c, thoughtRemoved)
      ensures (HasOpener(buffer) && |pieces| <= |old(pieces)| + 1) || |buffer| <= holdBack
    {
      Absorb(delta);
      Flush();
    }

    /** Append a delta; on a match, delete the matched text from the buffer
      * and yield it rewrapped. */
    method Absorb(delta: string)
      requires Valid()
      modifies this
      ensures Valid()
      ensures raw == old(raw) + delta
      ensures cuts == old(cuts) + RemoveThinkingPipe.CutOf(KeptTexts(old(pieces)), old(buffer) + delta)
      ensures var t := old(buffer) + delta;
              && buffer == RemoveThinkingPipe.CutGreedy(t)
              && pieces == old(pieces) + SectionPieces(t)
              && thoughtRemoved == old(thoughtRemoved) + (if GreedyBlock(t).Some? then 1 else 0)
              && requested == old(requested) + RemovedEvents(t, thoughtRemoved)
    {
      if Section(buffer + delta).Some? {
        AbsorbHide(delta);
        Send(Success, RemovedBlocks(thoughtRemoved));
      } else {
        AbsorbHold(delta);
        assert requested + [] == requested;
      }
    }

    /** The appended buffer matches: its section is cut out and yielded. */
    method AbsorbHide(delta: string)
      requires Stream() && GreedyBlock(buffer + delta).Some?
      modifies this`pieces, this`buffer, this`thoughtRemoved, this`raw, this`cuts
      ensures Stream()
      ensures raw == old(raw) + delta
      ensures cuts == old(cuts) + RemoveThinkingPipe.CutOf(KeptTexts(old(pieces)), old(buffer) + delta)
      ensures var t := old(buffer) + delta;
              && buffer == RemoveThinkingPipe.CutGreedy(t)
              && pieces == old(pieces) + [Hidden(Section(t).value)]
              && thoughtRemoved == old(thoughtRemoved) + 1
    {
      var t := buffer + delta;
      var sec := Section(t).value;
      var rest := Replace(t, sec, "");
      ghost var cuts' := cuts + RemoveThinkingPipe.CutOf(KeptTexts(pieces), t);
      StreamHide(pieces, buffer, delta, raw, thoughtRemoved, cuts);
      ReplaceCutsGreedy(t);
      pieces, buffer, thoughtRemoved := pieces + [Hidden(sec)], rest, thoughtRemoved + 1;
      raw, cuts := raw + delta, cuts';
    }

    /** The appended buffer does not match: it is kept whole. */
    method AbsorbHold(delta: string)
      requires Stream() && GreedyBlock(buffer + delta).None?
      modifies this`buffer, this`raw
      ensures Stream()
      ensures raw == old(raw) + delta && buffer == old(buffer) + delta
    {
      StreamHold(pieces, buffer, delta, raw, thoughtRemoved, cuts);
      buffer := buffer + delta;
      raw := raw + delta;
    }

    /** Wait while a thought is open, otherwise yield all but the last
      * `holdBack` characters of the buffer. */
    method Flush()
      requires Valid()
      modifies this`pieces, this`buffer
      modifies this`events, this`requested, this`latest, this`clearEmitter
      ensures Valid()
      ensures Flushed(old(buffer), holdBack, old(pieces), pieces, buffer)
      ensures requested == old(requested) + RemoveThinkingPipe.WaitEvents(old(buffer), thoughtRemoved)
      ensures (HasOpener(buffer) && pieces == old(pieces)) || |buffer| <= holdBack
    {
      RemoveThinkingPipe.WaitEventsSpec(buffer, thoughtRemoved);
      if buffer != "" && RemoveThinkingPipe.HasOpenerNow(buffer) {
        Send(InProgress, WaitingForThought(thoughtRemoved + 1));
      } else {
        Release();
        assert requested + [] == requested;
      }
    }

    /** No thought is open: yield all but the last `holdBack` characters. */
    method Release()
      requires Stream() && (buffer == "" || !HasOpener(buffer))
      modifies this`pieces, this`buffer
      ensures Stream()
      ensures Flushed(old(buffer), holdBack, old(pieces), pieces, buffer)
      ensures |buffer| <= holdBack
    {
      if buffer != "" && |buffer| > holdBack {
        Cut(|buffer| - holdBack);
      } else {
        assert pieces + [] == pieces;
      }
    }

    /** Yield the first `k` characters of the buffer. */
    method Cut(k: nat)
      requires Stream() && k <= |buffer|
      modifies this`pieces, this`buffer
      ensures Stream()
      ensures pieces == old(pieces) + [Kept(old(buffer)[..k])] && buffer == old(buffer)[k..]
    {
      StreamFlush(pieces, buffer, raw, thoughtRemoved, cuts, k);
      pieces := pieces + [Kept(buffer[..k])];
      buffer := buffer[k..];
    }

    /** One classified line of the loop: `[DONE]` stops it, an exception
      * leaves it, a string delta is fed. */
    method Take(chunk: Chunk) returns (stop: bool, error: Option<Exc>)
      requires Valid()
      modifies this
      ensures Valid()
      ensures stop <==> chunk == Done
      ensures error == RemoveThinkingPipe.ChunkError(chunk)
      ensures raw == old(raw) + RemoveThinkingPipe.DeltaText(chunk)
      ensures cuts == old(cuts) + (if chunk.Delta? && chunk.content.Str?
                                   then RemoveThinkingPipe.CutOf(KeptTexts(old(pieces)), old(buffer) + chunk.content.s) else [])
      ensures old(requested) <= requested
    {
      stop := false;
      error := None;
      match chunk {
        case Done => stop := true;
        case Skip =>
        case Failed(e) => error := Some(e);
        case Delta(c) =>
          if c.Str? {
            Feed(c.s);
          } else {
            error := Some(TypeError);
          }
      }
    }

    /** End of stream: the remaining buffer is yielded, its matched section
      * rewrapped first; the status tells whether a thought was left open
      * and whether any section was found at all. */
    method Finish()
      requires Valid()
      modifies this`pieces, this`buffer, this`thoughtRemoved, this`cuts
      modifies this`events, this`requested, this`latest, this`clearEmitter
      ensures Valid() && buffer == ""
      ensures cuts == old(cuts) + (if old(buffer) != "" then RemoveThinkingPipe.CutOf(KeptTexts(old(pieces)), old(buffer)) else [])
      ensures pieces == old(pieces) + FinishPieces(old(buffer))
      ensures thoughtRemoved == old(thoughtRemoved)
                + (if old(buffer) != "" && GreedyBlock(old(buffer)).Some? then 1 else 0)
      ensures requested == old(requested) + RemoveThinkingPipe.FinishEvents(old(buffer), thoughtRemoved)
    {
      ghost var b := buffer;
      ghost var r0 := requested;
      if buffer != "" {
        Drain();
      } else {
        assert pieces + [] == pieces && requested + [] == requested && cuts + [] == cuts;
      }
      ghost var r1 := requested;
      Conclude();
      assert requested == r1 + (if thoughtRemoved == 0 then [Event(Failure, NeverFound)] else []);
      assert r1 == r0 + (if b != "" then RemoveThinkingPipe.DrainEvents(b, thoughtRemoved) else []);
      RemoveThinkingPipe.EventsAfterFinish(r0, b, thoughtRemoved);
    }

    /** A stream in which no section was found ends with an error status. */
    method Conclude()
      requires Valid()
      modifies this`events, this`requested, this`latest, this`clearEmitter
      ensures Valid()
      ensures requested == old(requested) + (if thoughtRemoved == 0 then [Event(Failure, NeverFound)] else [])
    {
      if thoughtRemoved == 0 {
        Send(Failure, NeverFound);
      } else {
        assert requested + [] == requested;
      }
    }

    /** Yield the last buffer: rewrapped section then the rest on a match,
      * otherwise the buffer as it is. */
    method Drain()
      requires Valid() && buffer != ""
      modifies this`pieces, this`buffer, this`thoughtRemoved, this`cuts
      modifies this`events, this`requested, this`latest, this`clearEmitter
      ensures Valid() && buffer == ""
      ensures cuts == old(cuts) + RemoveThinkingPipe.CutOf(KeptTexts(old(pieces)), old(buffer))
      ensures pieces == old(pieces) + FinishPieces(old(buffer))
      ensures thoughtRemoved == old(thoughtRemoved) + (if GreedyBlock(old(buffer)).Some? then 1 else 0)
      ensures requested == old(requested) + RemoveThinkingPipe.DrainEvents(old(buffer), thoughtRemoved)
    {
      var m := Section(buffer);
      if m.Some? {
        HideAll();
        Send(Success, RemovedBlocks(thoughtRemoved));
      } else {
        var open := RemoveThinkingPipe.HasOpenerNow(buffer);
        DrainKeep();
        assert cuts + [] == cuts;
        if open {
          Send(Failure, NeverFinished);
        } else {
          assert requested + [] == requested;
        }
      }
    }

    /** The matched section rewrapped, then the rest of the buffer. */
    method HideAll()
      requires Stream() && GreedyBlock(buffer).Some?
      modifies this`pieces, this`buffer, this`thoughtRemoved, this`cuts
      ensures Stream() && buffer == ""
      ensures cuts == old(cuts) + RemoveThinkingPipe.CutOf(KeptTexts(old(pieces)), old(buffer))
      ensures pieces == old(pieces) + [Hidden(Section(old(buffer)).value), Kept(RemoveThinkingPipe.CutGreedy(old(buffer)))]
      ensures thoughtRemoved == old(thoughtRemoved) + 1
    {
      var t := buffer;
      var sec := Section(t).value;
      ReplaceCutsGreedy(t);
      var rest := Replace(t, sec, "");
      StreamDrainHide(pieces, t, raw, thoughtRemoved, cuts);
      ghost var cuts' := cuts + RemoveThinkingPipe.CutOf(KeptTexts(pieces), t);
      var pieces' := pieces + [Hidden(sec), Kept(rest)];
      assert StreamInv(pieces', "", raw, thoughtRemoved + 1, cuts');
      cuts, pieces, thoughtRemoved, buffer := cuts', pieces', thoughtRemoved + 1, "";
    }

    /** The buffer does not match: it is yielded as it is. */
    method DrainKeep()
      requires Stream()
      modifies this`pieces, this`buffer
      ensures Stream() && buffer == ""
      ensures pieces == old(pieces) + [Kept(old(buffer))]
    {
      var t := buffer;
      StreamFlush(pieces, t, raw, thoughtRemoved, cuts, |t|);
      assert t[..|t|] == t && t[|t|..] == "";
      pieces := pieces + [Kept(t)];
      buffer := "";
    }
  }

  /** What a flush leaves: `c` was the buffer before it. */
  ghost predicate Flushed(c: string, holdBack: nat, ps0: seq<Piece>, ps1: seq<Piece>, b: string)
  {
    if c != "" && !HasOpener(c) && |c| > holdBack
    then ps1 == ps0 + [Kept(c[..|c| - holdBack])] && b == c[|c| - holdBack..]
    else ps1 == ps0 && b == c
  }

  /** The piece yielded when the pattern matches `t`. */
  function SectionPieces(t: string): (ps: seq<Piece>)
    ensures |ps| <= 1
  {
    match Section(t)
    case None => []
    case Some(sec) => [Hidden(sec)]
  }

  /** The status requested when the pattern matches `t`, `removed` being the
    * new count. */
  function RemovedEvents(t: string, removed: nat): (evs: seq<Event>)
  {
    if GreedyBlock(t).Some? then [Event(Success, RemovedBlocks(removed))] else []
  }

  /** The pieces yielded for the buffer `b` left at the end of the stream. */
  function FinishPieces(b: string): (ps: seq<Piece>)
  {
    if b == "" then []
    else match Section(b)
      case None => [Kept(b)]
      case Some(sec) => [Hidden(sec), Kept(RemoveThinkingPipe.CutGreedy(b))]
  }

  /** The yielded fragments of a stream in which no section was found are
    * its kept text. */
  lemma {:induction false} ConcatShows(ps: seq<Piece>)
    requires SectionCount(ps) == 0
    ensures Concat(Shows(ps)) == KeptTexts(ps)
    decreases |ps|
  {
    if ps != [] {
      var n := |ps| - 1;
      assert ps == ps[..n] + [ps[n]];
      PiecesAppend(ps[..n], ps[n]);
      ConcatShows(ps[..n]);
      ConcatAppend(Shows(ps[..n]), Show(ps[n]));
    }
  }

  /** The words of the model names that get prompt caching. */
  const CacheWords: seq<string> := ["anthropic", "claude", "haiku", "sonnet"]

  /** Some word of `words` occurs in `s`. */
  predicate AnyInfix(words: seq<string>, s: string)
    decreases |words|
  {
    words != [] && (IsInfix(words[0], s) || AnyInfix(words[1..], s))
  }

  lemma {:induction false} AnyInfixAt(words: seq<string>, s: string, i: nat)
    requires i < |words| && IsInfix(words[i], s)
    ensures AnyInfix(words, s)
    decreases |words|
  {
    if i > 0 {
      AnyInfixAt(words[1..], s, i - 1);
    }
  }

  /** Some cache word occurs in the lower-cased model name. */
  predicate CanBeCached(model: string)
  {
    AnyInfix(CacheWords, Lower(model))
  }

  /** The loop over the cache words, stopping at the first that occurs. */
  method CanBeCachedNow(model: string) returns (b: bool)
    ensures b == CanBeCached(model)
  {
    var low := Lower(model);
    b := false;
    var i := 0;
    while i < |CacheWords| && !b
      invariant 0 <= i <= |CacheWords|
      invariant AnyInfix(CacheWords, low) <==> b || AnyInfix(CacheWords[i..], low)
    {
      FindInfix(low, CacheWords[i]);
      assert CacheWords[i..][1..] == CacheWords[i + 1..];
      if Find(low, CacheWords[i], 0).Some? {
        b := true;
      }
      i := i + 1;
    }
  }

  /** Case does not matter. */
  lemma CachedIgnoresCase(model: string)
    ensures CanBeCached(Lower(model)) == CanBeCached(model)
  {
    assert Lower(Lower(model)) == Lower(model);
  }

  /** A lower-case cache word occurring in the name as it is. */
  lemma CachedWhenLowerWordOccurs(model: string, i: nat, at: nat)
    requires i < |CacheWords| && OccursAt(model, at, CacheWords[i])
    ensures CanBeCached(model)
  {
    var w := CacheWords[i];
    assert forall k :: 0 <= k < |w| ==> !('A' <= w[k] <= 'Z');
    assert Lower(model)[at..at + |w|] == w;
    assert OccursAt(Lower(model), at, w);
    AnyInfixAt(CacheWords, Lower(model), i);
  }

  /** The raw mode's view of a line: an exception from `parse_chunk` is
    * replaced by a generic one. */
  function RawChunk(line: string, parse: string -> Option<Json>): (r: Chunk)
    ensures r.Failed? <==> ParseChunk(line, parse).Failed?
    ensures r.Failed? ==> r.error == Raised(ParsingChunkMsg)
    ensures !r.Failed? ==> r == ParseChunk(line, parse)
  {
    match ParseChunk(line, parse)
    case Failed(_) => Failed(Raised(ParsingChunkMsg))
    case c => c
  }

  function RawChunks(lines: seq<string>, parse: string -> Option<Json>): (r: seq<Chunk>)
    ensures |r| == |lines|
  {
    seq(|lines|, i requires 0 <= i < |lines| => RawChunk(lines[i], parse))
  }

  /** The loop of the raw mode: every accepted delta is yielded as it is. */
  method PassThrough(cs: seq<Chunk>) returns (out: seq<string>, error: Option<Exc>)
    ensures (out, error) == RemoveThinkingPipe.Accepted(cs, 0)
  {
    var k := 0;
    var stop := false;
    out, error := [], None;
    RemoveThinkingPipe.LoopStart(cs);
    while k < |cs| && !stop && error.None?
      invariant RemoveThinkingPipe.LoopInv(cs, k, out, stop, error)
      decreases |cs| - k
    {
      RemoveThinkingPipe.LoopStep(cs, k, out);
      stop, error := cs[k] == Done, RemoveThinkingPipe.ChunkError(cs[k]);
      if cs[k].Delta? && cs[k].content.Str? {
        out := out + [cs[k].content.s];
      }
      k := k + 1;
    }
    RemoveThinkingPipe.LoopEnd(cs, k, out, stop, error);
  }

  /** The loop of the hiding mode, feeding every accepted delta to `c`. */
  method Consume(c: PipeCall, cs: seq<Chunk>) returns (error: Option<Exc>)
    requires c.Valid() && c.raw == ""
    modifies c
    ensures c.Valid()
    ensures c.raw == Concat(RemoveThinkingPipe.Accepted(cs, 0).0)
    ensures error == RemoveThinkingPipe.Accepted(cs, 0).1
    ensures old(c.requested) <= c.requested
  {
    var k := 0;
    var stop := false;
    error := None;
    ghost var fed: seq<string> := [];
    ghost var r0 := c.requested;
    RemoveThinkingPipe.LoopStart(cs);
    while k < |cs| && !stop && error.None?
      invariant c.Valid() && c.raw == Concat(fed) && r0 <= c.requested
      invariant RemoveThinkingPipe.LoopInv(cs, k, fed, stop, error)
      decreases |cs| - k
    {
      RemoveThinkingPipe.LoopStep(cs, k, fed);
      stop, error := c.Take(cs[k]);
      fed := RemoveThinkingPipe.Accept(fed, cs[k]);
      k := k + 1;
    }
    RemoveThinkingPipe.LoopEnd(cs, k, fed, stop, error);
  }

  /** The messages `ms` as the caching loop leaves them, or its exception. */
  function CacheStep(cached: bool, ms: seq<Json>): (r: Result<seq<Json>>)
  {
    if cached then RewriteAll(ms) else Ok(ms)
  }

  /** The caching loop, when it applies. */
  method CacheIf(cached: bool, messages: array<Json>) returns (error: Option<Exc>)
    modifies messages
    ensures CacheStep(cached, old(messages[..])) == if error.Some? then Err(error.value) else Ok(messages[..])
  {
    error := None;
    if cached {
      error := CacheSystemMessages(messages);
    }
  }

  /** Whether the system messages are rewritten for caching: the valve is on
    * and the model is a Claude one. */
  predicate Caches(v: RemoveThinkingPipe.Valves, cacheSystemPrompt: bool, body: Dict)
  {
    cacheSystemPrompt && CanBeCached(RemoveThinkingPipe.ModelFor(body, v))
  }

  /** The body the payload is copied from: when caching applies, the
    * rewritten messages `ms'` are in its "messages" list. */
  function Outgoing(body: Dict, caches: bool, ms': seq<Json>): (b: Dict)
    ensures Get(b, "messages") == if caches then Some(Arr(ms')) else Get(body, "messages")
    ensures forall k :: k != "messages" ==> Get(b, k) == Get(body, k)
  {
    if caches then Set(body, "messages", Arr(ms')) else body
  }

  /** What a request is turned into before it is posted: the system
    * messages `ms` (the items of the body's "messages" list) rewritten for
    * caching when the model is a Claude one, and the payload copied from the
    * body after that rewrite; or the first exception. */
  function Prepared(v: RemoveThinkingPipe.Valves, cacheSystemPrompt: bool, body: Dict, ms: seq<Json>,
                    name: string, email: string): (r: Result<(seq<Json>, Dict)>)
    ensures !HasKey(body, "stream") ==> r == Err(KeyError("stream"))
    ensures HasKey(body, "stream") && Caches(v, cacheSystemPrompt, body) && !HasKey(body, "messages") ==>
              r == Err(KeyError("messages"))
    ensures r.Ok? ==> CacheStep(Caches(v, cacheSystemPrompt, body), ms) == Ok(r.value.0)
  {
    if !HasKey(body, "stream") then Err(KeyError("stream"))
    else if Caches(v, cacheSystemPrompt, body) && !HasKey(body, "messages") then Err(KeyError("messages"))
    else
      match CacheStep(Caches(v, cacheSystemPrompt, body), ms)
      case Err(e) => Err(e)
      case Ok(ms') =>
        match RemoveThinkingPipe.BuildPayload(Outgoing(body, Caches(v, cacheSystemPrompt, body), ms'), v, name, email)
        case Err(e) => Err(e)
        case Ok(p) => Ok((ms', p))
  }

  /** The payload posts the messages as the caching step left them: the
    * rewritten list when caching applies, the body's own list otherwise. */
  lemma PreparedPosts(v: RemoveThinkingPipe.Valves, cacheSystemPrompt: bool, body: Dict, ms: seq<Json>,
                      name: string, email: string)
    ensures var r := Prepared(v, cacheSystemPrompt, body, ms, name, email);
            r.Ok? ==> Get(r.value.1, "messages") ==
                        (if Caches(v, cacheSystemPrompt, body) then Some(Arr(r.value.0)) else Get(body, "messages"))
  {
    var r := Prepared(v, cacheSystemPrompt, body, ms, name, email);
    if r.Ok? {
      var out := Outgoing(body, Caches(v, cacheSystemPrompt, body), r.value.0);
      assert RemoveThinkingPipe.BuildPayload(out, v, name, email) == Ok(r.value.1);
      RemoveThinkingPipe.BuildPayloadKeeps(out, v, name, email, "messages");
    }
  }

  /** The checks and rewrites before the request is posted; the messages
    * list of the body is rewritten in place. */
  method Prepare(v: RemoveThinkingPipe.Valves, cacheSystemPrompt: bool, body: Dict, messages: array<Json>,
                 name: string, email: string) returns (payload: Result<Dict>)
    modifies messages
    ensures var r := Prepared(v, cacheSystemPrompt, body, old(messages[..]), name, email);
            && (r.Ok? ==> payload == Ok(r.value.1) && messages[..] == r.value.0)
            && (r.Err? ==> payload == Err(r.error))
    ensures payload.Ok? ==> Get(payload.value, "messages") ==
                              (if Caches(v, cacheSystemPrompt, body) then Some(Arr(messages[..])) else Get(body, "messages"))
    ensures !HasKey(body, "stream") ==> messages[..] == old(messages[..])
  {
    if !HasKey(body, "stream") {
      return Err(KeyError("stream"));
    }
    var cached := CanBeCachedNow(RemoveThinkingPipe.ModelFor(body, v));
    if cacheSystemPrompt && cached && !HasKey(body, "messages") {
      return Err(KeyError("messages"));
    }
    var e := CacheIf(cacheSystemPrompt && cached, messages);
    if e.Some? {
      return Err(e.value);
    }
    payload := RemoveThinkingPipe.BuildPayload(Outgoing(body, cacheSystemPrompt && cached, messages[..]), v, name, email);
    PreparedPosts(v, cacheSystemPrompt, body, old(messages[..]), name, email);
  }

  /** What the title branch yields and raises for the whole response: its
    * content, which must be a non-empty string. */
  function TitleAnswer(response: Json): (r: (seq<string>, Option<Exc>))
    ensures r.1.None? <==> RemoveThinkingPipe.TitleContent(response).Ok? && RemoveThinkingPipe.TitleContent(response).value.Str?
                            && RemoveThinkingPipe.TitleContent(response).value.s != ""
    ensures r.1.None? ==> r.0 == [RemoveThinkingPipe.TitleContent(response).value.s]
    ensures RemoveThinkingPipe.TitleContent(response).Err? ==> r == ([], Some(RemoveThinkingPipe.TitleContent(response).error))
    ensures RemoveThinkingPipe.TitleContent(response) == Ok(Str("")) ==> r == ([""], Some(AssertionError(NoTextMsg)))
  {
    match RemoveThinkingPipe.TitleContent(response)
    case Err(e) => ([], Some(e))
    case Ok(content) =>
      if !content.Str? then ([], Some(TypeError))
      else if content.s == "" then ([""], Some(AssertionError(NoTextMsg)))
      else ([content.s], None)
  }

  /** The title branch: the whole response is returned directly. */
  method AnswerTitle(c: PipeCall, response: Json) returns (out: seq<string>, error: Option<Exc>)
    requires c.Valid()
    modifies c`events, c`requested, c`latest, c`clearEmitter
    ensures c.Valid() && old(c.requested) <= c.requested
    ensures (out, error) == TitleAnswer(response)
  {
    c.Send(InProgress, ReturningDirectly);
    out, error := TitleAnswer(response).0, TitleAnswer(response).1;
  }

  /** The streaming branch with thoughts shown as they are. */
  method AnswerRaw(c: PipeCall, lines: seq<string>, parse: string -> Option<Json>)
    returns (out: seq<string>, error: Option<Exc>)
    requires c.Valid()
    modifies c`events, c`requested, c`latest, c`clearEmitter
    ensures c.Valid() && old(c.requested) <= c.requested
    ensures (out, error) == RemoveThinkingPipe.Accepted(RawChunks(lines, parse), 0)
  {
    c.Send(InProgress, ReceivingChunks);
    out, error := PassThrough(RawChunks(lines, parse));
  }

  /** The streaming branch with thoughts rewrapped, ending with the check
    * that something was yielded. */
  method AnswerHidden(c: PipeCall, lines: seq<string>, parse: string -> Option<Json>)
    returns (error: Option<Exc>)
    requires c.Valid() && c.raw == ""
    modifies c
    ensures c.Valid() && old(c.requested) <= c.requested
    ensures Rewrapped(Shows(c.pieces), c.pieces, RemoveThinkingPipe.Accepted(RemoveThinkingPipe.Chunks(lines, parse), 0), error, c.cuts)
  {
    c.Send(InProgress, ReceivingChunks);
    error := HiddenStream(c, RemoveThinkingPipe.Chunks(lines, parse));
  }

  method HiddenStream(c: PipeCall, cs: seq<Chunk>) returns (error: Option<Exc>)
    requires c.Valid() && c.raw == ""
    modifies c
    ensures c.Valid() && old(c.requested) <= c.requested
    ensures Rewrapped(Shows(c.pieces), c.pieces, RemoveThinkingPipe.Accepted(cs, 0), error, c.cuts)
  {
    error := Consume(c, cs);
    if error.None? {
      error := HiddenEnd(c, RemoveThinkingPipe.Accepted(cs, 0));
    } else {
      HiddenFailed(c.pieces, c.buffer, c.raw, c.thoughtRemoved, c.cuts, RemoveThinkingPipe.Accepted(cs, 0), error);
    }
  }

  /** The end of a stream that raised nothing. */
  method HiddenEnd(c: PipeCall, ghost acc: (seq<string>, Option<Exc>)) returns (error: Option<Exc>)
    requires c.Valid() && acc.1.None? && c.raw == Concat(acc.0)
    modifies c
    ensures c.Valid() && old(c.requested) <= c.requested
    ensures Rewrapped(Shows(c.pieces), c.pieces, acc, error, c.cuts)
  {
    c.Finish();
    error := if Concat(Shows(c.pieces)) == "" then Some(AssertionError(NoTextMsg)) else None;
    HiddenDone(c.pieces, c.raw, c.thoughtRemoved, c.cuts, acc, error);
  }

  lemma HiddenDone(ps: seq<Piece>, raw: string, removed: nat, cuts: seq<Cut>,
                   acc: (seq<string>, Option<Exc>), error: Option<Exc>)
    requires StreamInv(ps, "", raw, removed, cuts) && acc.1.None? && raw == Concat(acc.0)
    requires error == if Concat(Shows(ps)) == "" then Some(AssertionError(NoTextMsg)) else None
    ensures Rewrapped(Shows(ps), ps, acc, error, cuts)
  {
    assert KeptTexts(ps) + "" == KeptTexts(ps);
    LedgerSubsequence(KeptTexts(ps), raw, cuts, removed);
    ShowsEach(ps);
    OpenedEach(ps);
    if SectionCount(ps) == 0 {
      ConcatShows(ps);
    }
  }

  lemma HiddenFailed(ps: seq<Piece>, buffer: string, raw: string, removed: nat, cuts: seq<Cut>,
                     acc: (seq<string>, Option<Exc>), error: Option<Exc>)
    requires StreamInv(ps, buffer, raw, removed, cuts) && acc.1.Some? && error == acc.1
    ensures Rewrapped(Shows(ps), ps, acc, error, cuts)
  {
    ShowsEach(ps);
    OpenedEach(ps);
  }

  /** What the hiding mode yields: every fragment is kept text or a
    * rewrapped section that starts with an opener; the kept text is the
    * accepted upstream text with characters deleted, and all of it when no
    * section was found; exactly, the accepted text is the kept text with
    * the sections put back where `cuts` says, each a thought block; an
    * exception of the loop is raised, and otherwise the only exception is
    * the one for an empty answer. */
  ghost predicate Rewrapped(out: seq<string>, ps: seq<Piece>, acc: (seq<string>, Option<Exc>), error: Option<Exc>,
                            cuts: seq<Cut>)
  {
    && |out| == |ps| && (forall i :: 0 <= i < |ps| ==> out[i] == Show(ps[i]))
    && (forall i :: 0 <= i < |ps| && ps[i].Hidden? ==> OpenerLen(ps[i].section, 0) > 0)
    && (acc.1.Some? ==> error == acc.1)
    && (acc.1.None? ==> IsSubsequence(KeptTexts(ps), Concat(acc.0)))
    && (acc.1.None? && SectionCount(ps) == 0 ==> Concat(out) == Concat(acc.0))
    && (acc.1.None? ==> Concat(acc.0) == Uncut(KeptTexts(ps), cuts) && AllBlocks(cuts) && CutBlocks(cuts) == Sections(ps))
    && (acc.1.None? ==> (error.None? <==> Concat(out) != ""))
    && (acc.1.None? && error.Some? ==> error == Some(AssertionError(NoTextMsg)))
  }

  /** `pipe`: the valves are checked, the request is prepared and posted and
    * its response (`lines` when streamed, `response` for a title request)
    * is yielded as `out`, while `events` are the statuses sent; `error` is
    * the exception raised and `posted` the payload sent to LiteLLM. */
  method Pipe(v: RemoveThinkingPipe.Valves, cacheSystemPrompt: bool, body: Dict, messages: array<Json>,
              name: string, email: string, lines: seq<string>, parse: string -> Option<Json>, response: Json)
    returns (out: seq<string>, events: seq<Event>, error: Option<Exc>, posted: Option<Dict>,
             ghost pieces: seq<Piece>, ghost cuts: seq<Cut>)
    modifies messages
    ensures var ke := RemoveThinkingPipe.CheckApiKey(v.apiKey, ValveKeyEmptyMsg);
            ke.Some? ==> && error == ke && out == [KeyErrorReport(ke.value.msg)] && events == []
                         && posted == None && messages[..] == old(messages[..])
    ensures var ke := RemoveThinkingPipe.CheckApiKey(v.apiKey, ValveKeyEmptyMsg);
            var r := Prepared(v, cacheSystemPrompt, body, old(messages[..]), name, email);
            ke.None? ==>
              && NoRepeats(Cleared, events)
              && (error.Some? ==> events != [] && events[|events| - 1] == Event(Failure, ErrorWas(error.value)))
              && (r.Err? ==> error == Some(r.error) && out == [] && events == [Event(Failure, ErrorWas(r.error))])
              && (posted.Some? <==> r.Ok?)
              && (r.Ok? ==> posted == Some(r.value.1) && messages[..] == r.value.0)
    ensures posted.Some? ==> Answered(v, RemoveThinkingPipe.IsTitle(body), lines, parse, response, out, events, error, pieces, cuts)
    ensures error.None? ==> posted.Some?
    ensures posted.Some? ==> Get(posted.value, "messages") ==
                               (if Caches(v, cacheSystemPrompt, body) then Some(Arr(messages[..])) else Get(body, "messages"))
    ensures posted.Some? && Get(body, "messages") == Some(Arr(old(messages[..]))) ==>
              Get(posted.value, "messages") == Some(Arr(messages[..]))
  {
    var ke := RemoveThinkingPipe.CheckApiKey(v.apiKey, ValveKeyEmptyMsg);
    if ke.Some? {
      out, events, error, posted, pieces, cuts := [KeyErrorReport(ke.value.msg)], [], ke, None, [], [];
      return;
    }
    var c := new PipeCall(RemoveThinkingPipe.HoldBack(StartValve), !v.debug);
    var payload := Prepare(v, cacheSystemPrompt, body, messages, name, email);
    if payload.Err? {
      out, posted, error, pieces, cuts := [], None, Some(payload.error), [], [];
      c.Fail(payload.error);
      events := c.events;
      return;
    }
    posted := Some(payload.value);
    out, events, error, pieces, cuts := Answer(c, v, RemoveThinkingPipe.IsTitle(body), lines, parse, response);
  }

  /** What a posted request yields and reports: the statuses start with
    * "Waiting for response" and clear at the end of a successful call
    * unless debugging or an error was reported; the title request returns
    * the content of the whole response; the stream is passed through or
    * has its thoughts rewrapped. */
  ghost predicate Answered(v: RemoveThinkingPipe.Valves, title: bool, lines: seq<string>, parse: string -> Option<Json>,
                           response: Json, out: seq<string>, events: seq<Event>, error: Option<Exc>, pieces: seq<Piece>,
                           cuts: seq<Cut>)
  {
    && events != [] && events[0] == Event(InProgress, WaitingForResponse)
    && (error.None? ==> (Event(Success, Cleared) in events <==> !v.debug && !RemoveThinkingPipe.HasFailure(events)))
    && (title ==> (out, error) == TitleAnswer(response))
    && (!title && !v.removeThoughts ==> (out, error) == RemoveThinkingPipe.Accepted(RawChunks(lines, parse), 0))
    && (!title && v.removeThoughts ==>
          Rewrapped(out, pieces, RemoveThinkingPipe.Accepted(RemoveThinkingPipe.Chunks(lines, parse), 0), error, cuts))
  }

  /** The posted request's part of `pipe`, from "Waiting for response" to
    * the final status. */
  method Answer(c: PipeCall, v: RemoveThinkingPipe.Valves, title: bool, lines: seq<string>,
                parse: string -> Option<Json>, response: Json)
    returns (out: seq<string>, events: seq<Event>, error: Option<Exc>, ghost pieces: seq<Piece>, ghost cuts: seq<Cut>)
    requires c.Valid() && c.raw == "" && c.requested == [] && c.clearAtStart == !v.debug
    modifies c
    ensures NoRepeats(Cleared, events)
    ensures error.Some? ==> events != [] && events[|events| - 1] == Event(Failure, ErrorWas(error.value))
    ensures Answered(v, title, lines, parse, response, out, events, error, pieces, cuts)
  {
    c.Send(InProgress, WaitingForResponse);
    pieces, cuts := [], [];
    if title {
      out, error := AnswerTitle(c, response);
    } else if !v.removeThoughts {
      out, error := AnswerRaw(c, lines, parse);
    } else {
      error := AnswerHidden(c, lines, parse);
      out, pieces, cuts := Shows(c.pieces), c.pieces, c.cuts;
    }
    Close(c, error);
    events := c.events;
  }

  /** `succ("")` at the end of a successful call, `err` of the exception
    * otherwise; the first status requested was "Waiting for response". */
  method Close(c: PipeCall, error: Option<Exc>)
    requires c.Status() && c.requested != [] && c.requested[0] == Event(InProgress, WaitingForResponse)
    modifies c`events, c`requested, c`latest, c`clearEmitter
    ensures NoRepeats(Cleared, c.events)
    ensures c.events != [] && c.events[0] == Event(InProgress, WaitingForResponse)
    ensures error.Some? ==> c.events[|c.events| - 1] == Event(Failure, ErrorWas(error.value))
    ensures error.None? ==> (Event(Success, Cleared) in c.events <==> c.clearAtStart && !RemoveThinkingPipe.HasFailure(c.events))
  {
    DedupFirst(c.requested);
    if error.None? {
      c.ClearStatus();
      RemoveThinkingPipe.HasFailureAppend(old(c.events), c.events[|old(c.events)|..]);
    } else {
      c.Fail(error.value);
    }
    DedupFirst(c.requested);
  }
}
