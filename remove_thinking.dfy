/** The RemoveThinkingPipe: forwards a chat to LiteLLM and removes the
  * model's thought blocks from the streamed answer.
  *
  * The HTTP request itself is not modelled: the pipe's input is the body it
  * would send and the response lines it would receive.
  */
module RemoveThinkingPipe {

  import opened Wrappers
  import opened Text
  import opened Json
  import opened Thoughts
  import opened ChunkParsing
  import opened Status

  /** `int(1.5 * len(start_thought))`: how many trailing characters the
    * stream keeps back when no thought has started. */
  function HoldBack(startValve: string): (n: nat)
    ensures 2 * n <= 3 * |startValve| < 2 * n + 2
  {
    (3 * |startValve|) / 2
  }

  lemma DefaultHoldBack()
    ensures HoldBack(StartValve) == 19
  {
  }

  /** Why the hold-back is long enough: when the buffer holds no opener and
    * more than `holdBack` characters, no opener of the buffer followed by any
    * later text starts in the part that is flushed. */
  lemma FlushNeverSplitsOpener(b: string, later: string, holdBack: nat, p: nat)
    requires !HasOpener(b) && holdBack >= |OpenerSpaced| - 1
    requires p + holdBack < |b|
    ensures OpenerLen(b + later, p) == 0
  {
    OpenerLenWithin(b, later, p);
    assert !OpenerAt(b, p, false);
  }

  /** `buffer[:m.start()] + buffer[m.end():]` for the greedy match `m`. */
  function CutGreedy(t: string): (r: string)
    ensures GreedyBlock(t).None? ==> r == t
    ensures GreedyBlock(t).Some? ==> |r| < |t| && IsSubsequence(r, t)
  {
    match GreedyBlock(t)
    case None => t
    case Some((i, j)) =>
      CutSubsequence(t, i, j);
      t[..i] + t[j..]
  }

  function HasOpenerNow(s: string): (b: bool)
    ensures b == HasOpener(s)
  {
    HasOpenerFirst(s);
    FirstOpener(s, 0, false).Some?
  }

  /** Cutting the greedy block out of the buffer after appending `delta`
    * keeps the produced text a subsequence of the upstream text, and equal
    * to it while nothing was cut. */
  lemma AbsorbStep(done: string, buffer: string, delta: string, raw: string, removed: nat)
    requires IsSubsequence(done + buffer, raw)
    requires removed == 0 ==> done + buffer == raw
    ensures IsSubsequence(done + CutGreedy(buffer + delta), raw + delta)
    ensures removed + (if GreedyBlock(buffer + delta).Some? then 1 else 0) == 0 ==>
              done + CutGreedy(buffer + delta) == raw + delta
  {
    var t := buffer + delta;
    assert done + t == (done + buffer) + delta;
    SubsequenceRefl(delta);
    SubsequenceConcat(done + buffer, raw, delta);
    if GreedyBlock(t).Some? {
      SubsequencePrefix(done, CutGreedy(t), t);
      SubsequenceTrans(done + CutGreedy(t), done + t, raw + delta);
    }
  }

  /** The cut that absorbing leaves in the ledger: the greedy block of
    * `t`, at its place after the yielded text `done`, if there is one. */
  function CutOf(done: string, t: string): (r: seq<Cut>)
    ensures GreedyBlock(t).None? <==> r == []
    ensures r != [] ==> r == [Cut(|done| + GreedyBlock(t).value.0, t[GreedyBlock(t).value.0..GreedyBlock(t).value.1])]
  {
    match GreedyBlock(t)
    case None => []
    case Some((i, j)) => [Cut(|done| + i, t[i..j])]
  }

  lemma GreedyCut(done: string, t: string) returns (i: nat, j: nat)
    requires GreedyBlock(t).Some?
    ensures (i, j) == GreedyBlock(t).value && i <= j <= |t|
    ensures CutOf(done, t) == [Cut(|done| + i, t[i..j])]
    ensures CutGreedy(t) == t[..i] + t[j..]
  {
    i, j := GreedyBlock(t).value.0, GreedyBlock(t).value.1;
  }

  /** The exact form of `AbsorbStep`: when the upstream text is the yielded
    * text and the buffer with the blocks cut so far put back, it still is
    * after appending `delta` and cutting the greedy block, which is one
    * more whole block in the ledger. */
  lemma AbsorbCuts(done: string, buffer: string, delta: string, raw: string, cuts: seq<Cut>, removed: nat)
    requires Ledger(done + buffer, raw, cuts, removed)
    ensures var t := buffer + delta;
            Ledger(done + CutGreedy(t), raw + delta, cuts + CutOf(done, t),
                   removed + (if GreedyBlock(t).Some? then 1 else 0))
  {
    var t := buffer + delta;
    LedgerAppend(done + buffer, delta, raw, cuts, removed);
    assert (done + buffer) + delta == done + t;
    if GreedyBlock(t).Some? {
      var i, j := GreedyCut(done, t);
      GreedyIsBlock(t);
      LedgerCut(done, t, i, j, raw + delta, cuts, removed);
    } else {
      assert done + CutGreedy(t) == done + t;
      assert cuts + CutOf(done, t) == cuts;
    }
  }

  /** The invariant of the stream loop's state, on its values: see
    * `ThoughtStripper.Valid`. No status clears the emitter during the
    * stream, and "no thought found" is only reported at its end. */
  ghost predicate StripperInv(out: seq<string>, buffer: string, raw: string, cuts: seq<Cut>,
                              removed: nat, events: seq<Event>, finished: bool)
  {
    && Ledger(Concat(out) + buffer, raw, cuts, removed)
    && IsSubsequence(Concat(out) + buffer, raw)
    && (removed == 0 ==> Concat(out) + buffer == raw)
    && Event(Success, Cleared) !in events
    && (!finished ==> Event(Failure, NeverFound) !in events)
  }

  /** Absorbing a delta keeps the invariant. */
  lemma AbsorbKeeps(out: seq<string>, buffer: string, delta: string, raw: string, cuts: seq<Cut>,
                    removed: nat, events: seq<Event>)
    requires StripperInv(out, buffer, raw, cuts, removed, events, false)
    ensures var t := buffer + delta;
            var found := GreedyBlock(t).Some?;
            StripperInv(out, CutGreedy(t), raw + delta, cuts + CutOf(Concat(out), t),
                        removed + (if found then 1 else 0),
                        events + (if found then [Event(Success, RemovedBlocks(removed + 1))] else []), false)
  {
    AbsorbStep(Concat(out), buffer, delta, raw, removed);
    AbsorbCuts(Concat(out), buffer, delta, raw, cuts, removed);
  }

  /** Flushing keeps the invariant: yielding a prefix of the buffer, or
    * reporting that a thought is awaited. */
  lemma FlushKeeps(out: seq<string>, buffer: string, raw: string, cuts: seq<Cut>,
                   removed: nat, events: seq<Event>, k: nat)
    requires StripperInv(out, buffer, raw, cuts, removed, events, false)
    requires k <= |buffer|
    ensures StripperInv(out + [buffer[..k]], buffer[k..], raw, cuts, removed, events, false)
    ensures StripperInv(out, buffer, raw, cuts, removed,
                        events + [Event(InProgress, WaitingForThought(removed + 1))], false)
  {
    ConcatAppend(out, buffer[..k]);
    assert Concat(out + [buffer[..k]]) + buffer[k..] == Concat(out) + buffer;
  }

  /** Yielding the last buffer, cut once, keeps the invariant. */
  lemma DrainKeeps(out: seq<string>, buffer: string, raw: string, cuts: seq<Cut>,
                   removed: nat, events: seq<Event>)
    requires StripperInv(out, buffer, raw, cuts, removed, events, false)
    ensures var removed' := removed + (if GreedyBlock(buffer).Some? then 1 else 0);
            StripperInv(out + [CutGreedy(buffer)], "", raw, cuts + CutOf(Concat(out), buffer),
                        removed', events + DrainEvents(buffer, removed'), false)
  {
    assert buffer + "" == buffer && raw + "" == raw;
    AbsorbStep(Concat(out), buffer, "", raw, removed);
    AbsorbCuts(Concat(out), buffer, "", raw, cuts, removed);
    ConcatAppend(out, CutGreedy(buffer));
    assert Concat(out + [CutGreedy(buffer)]) + "" == Concat(out) + CutGreedy(buffer);
    DrainEventsSpec(buffer, removed + (if GreedyBlock(buffer).Some? then 1 else 0));
  }

  /** Ending the stream, with "no thought found" reported exactly when no
    * block was removed, keeps the invariant. */
  lemma FinishKeeps(out: seq<string>, raw: string, cuts: seq<Cut>, removed: nat, events: seq<Event>)
    requires StripperInv(out, "", raw, cuts, removed, events, false)
    ensures var events' := events + (if removed == 0 then [Event(Failure, NeverFound)] else []);
            && StripperInv(out, "", raw, cuts, removed, events', true)
            && (Event(Failure, NeverFound) in events' <==> removed == 0)
  {
  }

  /** The stream loop's state: the held `buffer`, the number of removed
    * blocks, the `discarded` text, the fragments yielded so far and the
    * status events sent. `raw` is everything upstream sent so far. */
  class ThoughtStripper {
    const holdBack: nat
    var buffer: string
    var thoughtRemoved: nat
    var discarded: string
    var out: seq<string>
    var events: seq<Event>
    ghost var raw: string
    /** The blocks cut out so far, in order: the ledger that puts the
      * upstream text back together. */
    ghost var cuts: seq<Cut>
    /** Set once the end of the stream has been handled. */
    ghost var finished: bool

    /** Yielded text followed by the held buffer is the upstream text with
      * the removed blocks cut out: putting the ledger's blocks back gives
      * the upstream text, one whole thought block per removal. In
      * particular it is obtained from the upstream text by deleting
      * characters, and is that text itself while no block was removed. */
    ghost predicate Valid()
      reads this
    {
      StripperInv(out, buffer, raw, cuts, thoughtRemoved, events, finished)
    }

    constructor (holdBack: nat)
      ensures Valid() && this.holdBack == holdBack
      ensures buffer == "" && discarded == "" && thoughtRemoved == 0
      ensures out == [] && events == [] && raw == "" && cuts == [] && !finished
    {
      this.holdBack := holdBack;
      buffer := "";
      thoughtRemoved := 0;
      discarded := "";
      out := [];
      events := [];
      raw := "";
      cuts := [];
      SubsequenceRefl("");
      finished := false;
    }

    /** One non-empty content delta: append it, cut the greedy block if
      * there is one, then either wait for an open thought or flush all but
      * the last `holdBack` characters. */
    method Feed(delta: string)
      requires Valid() && !finished
      modifies this
      ensures Valid() && !finished
      ensures raw == old(raw) + delta
      ensures cuts == old(cuts) + CutOf(Concat(old(out)), old(buffer) + delta)
      ensures var t := old(buffer) + delta;
              && thoughtRemoved == old(thoughtRemoved) + (if GreedyBlock(t).Some? then 1 else 0)
              && discarded == old(discarded) + (if GreedyBlock(t).Some? then CutGreedy(t) else "")
              && FlushedTo(CutGreedy(t), old(out), out, buffer)
              && events == old(events)
                           + (if GreedyBlock(t).Some? then [Event(Success, RemovedBlocks(thoughtRemoved))] else [])
                           + WaitEvents(CutGreedy(t), thoughtRemoved)
      ensures (HasOpener(buffer) && out == old(out)) || |buffer| <= holdBack
    {
      Absorb(delta);
      Flush();
    }

    /** What the flush after a delta leaves: `c` was the buffer before it. */
    ghost predicate FlushedTo(c: string, out0: seq<string>, out1: seq<string>, b: string)
      reads this
    {
      if c != "" && !HasOpener(c) && |c| > holdBack
      then out1 == out0 + [c[..|c| - holdBack]] && b == c[|c| - holdBack..]
      else out1 == out0 && b == c
    }

    /** Append a delta and cut the greedy block out of the buffer. */
    method Absorb(delta: string)
      requires Valid() && !finished
      modifies this
      ensures Valid() && !finished
      ensures raw == old(raw) + delta
      ensures cuts == old(cuts) + CutOf(Concat(old(out)), old(buffer) + delta)
      ensures var t := old(buffer) + delta;
              && buffer == CutGreedy(t) && out == old(out)
              && thoughtRemoved == old(thoughtRemoved) + (if GreedyBlock(t).Some? then 1 else 0)
              && discarded == old(discarded) + (if GreedyBlock(t).Some? then CutGreedy(t) else "")
              && events == old(events) + (if GreedyBlock(t).Some? then [Event(Success, RemovedBlocks(thoughtRemoved))] else [])
    {
      var t := buffer + delta;
      var found := GreedyBlock(t).Some?;
      var c := CutGreedy(t);
      var removed := thoughtRemoved + (if found then 1 else 0);
      var evs := events + (if found then [Event(Success, RemovedBlocks(thoughtRemoved + 1))] else []);
      AbsorbKeeps(out, buffer, delta, raw, cuts, thoughtRemoved, events);
      raw := raw + delta;
      cuts := cuts + CutOf(Concat(out), t);
      thoughtRemoved := removed;
      events := evs;
      buffer := c;
      if found {
        discarded := discarded + c;
      }
    }

    /** Wait while a thought is open, otherwise yield all but the last
      * `holdBack` characters of the buffer. */
    method Flush()
      requires Valid() && !finished
      modifies this
      ensures Valid() && !finished
      ensures raw == old(raw) && thoughtRemoved == old(thoughtRemoved) && discarded == old(discarded)
      ensures cuts == old(cuts)
      ensures FlushedTo(old(buffer), old(out), out, buffer)
      ensures events == old(events) + WaitEvents(old(buffer), thoughtRemoved)
      ensures (HasOpener(buffer) && out == old(out)) || |buffer| <= holdBack
    {
      if buffer != "" {
        if HasOpenerNow(buffer) {
          FlushKeeps(out, buffer, raw, cuts, thoughtRemoved, events, 0);
          events := events + [Event(InProgress, WaitingForThought(thoughtRemoved + 1))];
        } else if |buffer| > holdBack {
          var k := |buffer| - holdBack;
          FlushKeeps(out, buffer, raw, cuts, thoughtRemoved, events, k);
          out := out + [buffer[..k]];
          buffer := buffer[k..];
        }
      }
    }

    /** One classified line of the loop: `[DONE]` stops it, an exception
      * leaves it, a string delta is fed. */
    method Take(chunk: Chunk) returns (stop: bool, error: Option<Exc>)
      requires Valid() && !finished
      modifies this
      ensures Valid() && !finished
      ensures stop <==> chunk == Done
      ensures error == ChunkError(chunk)
      ensures raw == old(raw) + DeltaText(chunk)
      ensures chunk.Delta? && chunk.content.Str? ==> cuts == old(cuts) + CutOf(Concat(old(out)), old(buffer) + chunk.content.s)
      ensures !(chunk.Delta? && chunk.content.Str?) ==> cuts == old(cuts)
    {
      stop := false;
      error := None;
      match chunk {
        case Done => stop := true;
        case Skip =>
        case Failed(e) => error := Some(e);
        case Delta(c) =>
          if c.Str? {
            Feed(c.s);
          } else {
            error := Some(TypeError);
          }
      }
    }

    /** End of stream: the remaining buffer is yielded, minus one block if
      * the whole pattern matches it; the status tells whether a thought was
      * left open and whether any block was removed at all. */
    method Finish()
      requires Valid() && !finished
      modifies this
      ensures Valid() && finished && buffer == ""
      ensures raw == old(raw)
      ensures Event(Failure, NeverFound) in events ==> thoughtRemoved == 0
      ensures out == old(out) + (if old(buffer) != "" then [CutGreedy(old(buffer))] else [])
      ensures thoughtRemoved == old(thoughtRemoved)
                + (if old(buffer) != "" && GreedyBlock(old(buffer)).Some? then 1 else 0)
      ensures events == old(events) + FinishEvents(old(buffer), thoughtRemoved)
      ensures Event(Failure, NeverFound) in events <==> thoughtRemoved == 0
      ensures discarded == old(discarded)
      ensures cuts == old(cuts) + (if old(buffer) != "" then CutOf(Concat(old(out)), old(buffer)) else [])
    {
      if buffer != "" {
        Drain();
      }
      ghost var drained := events;
      assert drained == old(events) + (if old(buffer) != "" then DrainEvents(old(buffer), thoughtRemoved) else []);
      FinishKeeps(out, raw, cuts, thoughtRemoved, events);
      events := events + (if thoughtRemoved == 0 then [Event(Failure, NeverFound)] else []);
      finished := true;
      FinishEventsSpec(old(buffer), thoughtRemoved);
      EventsAfterFinish(old(events), old(buffer), thoughtRemoved);
    }

    /** Yield the last buffer, cut once by the greedy pattern. */
    method Drain()
      requires Valid() && !finished && buffer != ""
      modifies this
      ensures Valid() && !finished && buffer == ""
      ensures raw == old(raw)
      ensures out == old(out) + [CutGreedy(old(buffer))]
      ensures thoughtRemoved == old(thoughtRemoved) + (if GreedyBlock(old(buffer)).Some? then 1 else 0)
      ensures events == old(events) + DrainEvents(old(buffer), thoughtRemoved)
      ensures discarded == old(discarded)
      ensures cuts == old(cuts) + CutOf(Concat(old(out)), old(buffer))
    {
      var c := CutGreedy(buffer);
      var removed := thoughtRemoved + (if GreedyBlock(buffer).Some? then 1 else 0);
      DrainKeeps(out, buffer, raw, cuts, thoughtRemoved, events);
      cuts := cuts + CutOf(Concat(out), buffer);
      thoughtRemoved := removed;
      events := events + DrainEvents(buffer, removed);
      out := out + [c];
      buffer := "";
    }
  }

  /** The status event of a buffer that holds an open thought. */
  function WaitEvents(b: string, removed: nat): (evs: seq<Event>)
  {
    if b != "" && HasOpenerNow(b) then [Event(InProgress, WaitingForThought(removed + 1))] else []
  }

  lemma WaitEventsSpec(b: string, removed: nat)
    ensures var evs := WaitEvents(b, removed);
            && (evs != [] <==> b != "" && HasOpener(b))
            && (evs != [] ==> evs == [Event(InProgress, WaitingForThought(removed + 1))])
  {
  }

  /** The status events of the end of the stream, given the buffer then
    * held and the final count of removed blocks. */
  function FinishEvents(b: string, removed: nat): (evs: seq<Event>)
  {
    (if b != "" then DrainEvents(b, removed) else [])
    + (if removed == 0 then [Event(Failure, NeverFound)] else [])
  }

  /** The events of the end of the stream, in their two steps. */
  lemma EventsAfterFinish(events: seq<Event>, b: string, removed: nat)
    ensures events + (if b != "" then DrainEvents(b, removed) else [])
                   + (if removed == 0 then [Event(Failure, NeverFound)] else [])
            == events + FinishEvents(b, removed)
  {
  }

  lemma FinishEventsSpec(b: string, removed: nat)
    ensures var evs := FinishEvents(b, removed);
            && (Event(Failure, NeverFound) in evs <==> removed == 0)
            && (Event(Failure, NeverFinished) in evs <==> b != "" && GreedyBlock(b).None? && HasOpener(b))
  {
    var d := if b != "" then DrainEvents(b, removed) else [];
    DrainEventsSpec(b, removed);
    var f: seq<Event> := if removed == 0 then [Event(Failure, NeverFound)] else [];
    assert FinishEvents(b, removed) == d + f;
    assert Event(Failure, NeverFound) !in d;
  }

  /** The status event of the last buffer: a removed block, or a thought
    * that was opened and never closed. */
  function DrainEvents(b: string, removed: nat): (evs: seq<Event>)
  {
    if GreedyBlock(b).Some? then [Event(Success, RemovedBlocks(removed))]
    else if HasOpenerNow(b) then [Event(Failure, NeverFinished)]
    else []
  }

  lemma DrainEventsSpec(b: string, removed: nat)
    ensures var evs := DrainEvents(b, removed);
            && |evs| <= 1
            && (Event(Failure, NeverFinished) in evs <==> GreedyBlock(b).None? && HasOpener(b))
            && Event(Failure, NeverFound) !in evs
  {
  }

  /** The content deltas that the stream loop accepts, in order, and the
    * exception that ends it early, if any. Empty lines are skipped, and so
    * are lines that parse to nothing; `[DONE]` ends the loop; a content that
    * is not a string cannot be appended to the buffer. */
  function Accepted(chunks: seq<Chunk>, from: nat): (r: (seq<string>, Option<Exc>))
    requires from <= |chunks|
    decreases |chunks| - from
  {
    if from == |chunks| then ([], None)
    else match chunks[from]
      case Done => ([], None)
      case Skip => Accepted(chunks, from + 1)
      case Failed(e) => ([], Some(e))
      case Delta(c) =>
        if c.Str? then
          var rest := Accepted(chunks, from + 1);
          ([c.s] + rest.0, rest.1)
        else ([], Some(TypeError))
  }

  /** What the loop makes of each line: empty lines are skipped unparsed. */
  function LineChunk(line: string, parse: string -> Option<Json>): (r: Chunk)
  {
    if line == "" then Skip else ParseChunk(line, parse)
  }

  function Chunks(lines: seq<string>, parse: string -> Option<Json>): (r: seq<Chunk>)
    ensures |r| == |lines|
  {
    seq(|lines|, i requires 0 <= i < |lines| => LineChunk(lines[i], parse))
  }

  const DiscardedHeader: string := "An error has occured. Here's the discarded text anyway:\n"
  /** The source lacks the `f` prefix here, so the braces are literal. */
  const DiscardedTrailer: string := "\n\nError was: '{e}'"

  predicate HasFailure(evs: seq<Event>)
  {
    exists i :: 0 <= i < |evs| && evs[i].level == Failure
  }

  lemma HasFailureAppend(a: seq<Event>, b: seq<Event>)
    ensures HasFailure(a + b) <==> HasFailure(a) || HasFailure(b)
  {
    if HasFailure(a) {
      var i :| 0 <= i < |a| && a[i].level == Failure;
      assert (a + b)[i] == a[i];
    }
    if HasFailure(b) {
      var i :| 0 <= i < |b| && b[i].level == Failure;
      assert (a + b)[|a| + i] == b[i];
    }
    if HasFailure(a + b) {
      var i :| 0 <= i < |a + b| && (a + b)[i].level == Failure;
      if i >= |a| { assert b[i - |a|] == (a + b)[i]; }
    }
  }

  /** The streaming branch of `pipe`: what it yields for the response
    * `lines`, the status events it sends from "Receiving chunks" on, and the
    * exception it re-raises. */
  method Stream(lines: seq<string>, parse: string -> Option<Json>, removeThoughts: bool, debug: bool)
    returns (out: seq<string>, events: seq<Event>, error: Option<Exc>, ghost cuts: seq<Cut>)
    ensures events != [] && events[0] == Event(InProgress, ReceivingChunks)
    ensures !removeThoughts ==> out == lines && error == None && cuts == []
    ensures removeThoughts && error.None? ==>
              Concat(Accepted(Chunks(lines, parse), 0).0) == Uncut(Concat(out), cuts) && AllBlocks(cuts)
    ensures removeThoughts ==> error == Accepted(Chunks(lines, parse), 0).1
    ensures removeThoughts && error.None? ==>
              IsSubsequence(Concat(out), Concat(Accepted(Chunks(lines, parse), 0).0))
    ensures removeThoughts && error.None? && Event(Failure, NeverFound) in events ==>
              Concat(out) == Concat(Accepted(Chunks(lines, parse), 0).0)
    ensures error.Some? ==> events[|events| - 1] == Event(Failure, ErrorWas(error.value))
    ensures error.None? ==> (Event(Success, Cleared) in events <==> !debug && !HasFailure(events))
  {
    if !removeThoughts {
      out := lines;
      error := None;
      cuts := [];
      events := [Event(InProgress, ReceivingChunks)];
      if !debug { events := events + [Event(Success, Cleared)]; }
    } else {
      out, events, error, cuts := StreamStripped(Chunks(lines, parse), debug);
    }
  }

  method StreamStripped(cs: seq<Chunk>, debug: bool)
    returns (out: seq<string>, events: seq<Event>, error: Option<Exc>, ghost cuts: seq<Cut>)
    ensures events != [] && events[0] == Event(InProgress, ReceivingChunks)
    ensures error == Accepted(cs, 0).1
    ensures error.None? ==> Concat(Accepted(cs, 0).0) == Uncut(Concat(out), cuts) && AllBlocks(cuts)
    ensures error.None? ==> (Event(Failure, NeverFound) in events <==> cuts == [])
    ensures error.None? ==> IsSubsequence(Concat(out), Concat(Accepted(cs, 0).0))
    ensures error.None? && Event(Failure, NeverFound) in events ==> Concat(out) == Concat(Accepted(cs, 0).0)
    ensures error.Some? ==> events[|events| - 1] == Event(Failure, ErrorWas(error.value))
    ensures error.None? ==> (Event(Success, Cleared) in events <==> !debug && !HasFailure(events))
  {
    var s;
    s, error := Consume(cs);
    if error.None? {
      s.Finish();
    }
    out, events, cuts := Report(s, error, debug);
  }

  /** What the pipe yields and reports once the loop has ended, normally or
    * by the exception `error`. */
  method Report(s: ThoughtStripper, error: Option<Exc>, debug: bool)
    returns (out: seq<string>, events: seq<Event>, ghost cuts: seq<Cut>)
    requires s.Valid() && (error.None? ==> s.finished && s.buffer == "")
    requires error.None? ==> (Event(Failure, NeverFound) in s.events <==> s.thoughtRemoved == 0)
    ensures events != [] && events[0] == Event(InProgress, ReceivingChunks)
    ensures cuts == s.cuts && Ledger(Concat(s.out) + s.buffer, s.raw, cuts, s.thoughtRemoved)
    ensures error.None? ==> s.raw == Uncut(Concat(out), cuts) && AllBlocks(cuts)
    ensures error.None? ==> (Event(Failure, NeverFound) in events <==> cuts == [])
    ensures error.None? ==> out == s.out
    ensures error.Some? ==> out == s.out + (if s.discarded != "" then [DiscardedHeader + s.discarded + DiscardedTrailer] else [])
    ensures error.None? ==> IsSubsequence(Concat(out), s.raw)
    ensures error.None? && Event(Failure, NeverFound) in events ==> Concat(out) == s.raw
    ensures error.Some? ==> events[|events| - 1] == Event(Failure, ErrorWas(error.value))
    ensures error.None? ==> (Event(Success, Cleared) in events <==> !debug && !HasFailure(events))
  {
    out := s.out;
    cuts := s.cuts;
    events := [Event(InProgress, ReceivingChunks)] + s.events;
    if error.Some? {
      if s.discarded != "" {
        out := out + [DiscardedHeader + s.discarded + DiscardedTrailer];
      }
      events := events + [Event(Failure, ErrorWas(error.value))];
    } else {
      assert Concat(out) + s.buffer == Concat(out);
      assert Event(Failure, NeverFound) in events <==> Event(Failure, NeverFound) in s.events;
      if !debug && !HasFailure(events) {
        events := events + [Event(Success, Cleared)];
      }
    }
  }

  /** The loop over the response lines, up to `[DONE]`, the end of the
    * lines or the first exception. */
  method Consume(cs: seq<Chunk>) returns (s: ThoughtStripper, error: Option<Exc>)
    ensures fresh(s) && s.Valid() && s.holdBack == HoldBack(StartValve)
    ensures s.raw == Concat(Accepted(cs, 0).0)
    ensures error == Accepted(cs, 0).1
    ensures !s.finished
  {
    s := new ThoughtStripper(HoldBack(StartValve));
    var k := 0;
    var stop := false;
    error := None;
    ghost var fed: seq<string> := [];
    LoopStart(cs);
    while k < |cs| && !stop && error.None?
      invariant fresh(s) && s.Valid() && !s.finished && s.holdBack == HoldBack(StartValve)
      invariant s.raw == Concat(fed)
      invariant LoopInv(cs, k, fed, stop, error)
      decreases |cs| - k
    {
      LoopStep(cs, k, fed);
      stop, error := s.Take(cs[k]);
      fed := Accept(fed, cs[k]);
      k := k + 1;
    }
    LoopEnd(cs, k, fed, stop, error);
  }

  /** The exception that one chunk raises in the loop, if any. */
  function ChunkError(chunk: Chunk): (r: Option<Exc>)
  {
    match chunk
    case Failed(e) => Some(e)
    case Delta(c) => if c.Str? then None else Some(TypeError)
    case _ => None
  }

  /** The text that one chunk appends to the buffer. */
  function DeltaText(chunk: Chunk): (r: string)
  {
    if chunk.Delta? && chunk.content.Str? then chunk.content.s else ""
  }

  /** The accepted deltas after one more chunk. */
  function Accept(fed: seq<string>, chunk: Chunk): (r: seq<string>)
  {
    if chunk.Delta? && chunk.content.Str? then fed + [chunk.content.s] else fed
  }

  /** The invariant of the loop over the chunks `cs`: `fed` were accepted
    * before line `k`; once the loop has stopped or raised they are all the
    * accepted deltas, otherwise the rest is accepted from line `k` on. */
  ghost predicate LoopInv(cs: seq<Chunk>, k: nat, fed: seq<string>, stopped: bool, error: Option<Exc>)
  {
    && k <= |cs|
    && Accepted(cs, 0) == (if stopped || error.Some? then (fed, error)
                           else (fed + Accepted(cs, k).0, Accepted(cs, k).1))
  }

  lemma LoopStart(cs: seq<Chunk>)
    ensures LoopInv(cs, 0, [], false, None)
  {
    assert [] + Accepted(cs, 0).0 == Accepted(cs, 0).0;
  }

  /** The loop has accepted everything once it ends. */
  lemma LoopEnd(cs: seq<Chunk>, k: nat, fed: seq<string>, stopped: bool, error: Option<Exc>)
    requires LoopInv(cs, k, fed, stopped, error) && !(k < |cs| && !stopped && error.None?)
    ensures Accepted(cs, 0) == (fed, error)
  {
    assert fed + [] == fed;
  }

  /** One line of the loop. */
  lemma LoopStep(cs: seq<Chunk>, k: nat, fed: seq<string>)
    requires k < |cs| && LoopInv(cs, k, fed, false, None)
    ensures LoopInv(cs, k + 1, Accept(fed, cs[k]), cs[k] == Done, ChunkError(cs[k]))
    ensures Concat(Accept(fed, cs[k])) == Concat(fed) + DeltaText(cs[k])
  {
    assert fed + [] == fed;
    if cs[k].Delta? && cs[k].content.Str? {
      ConcatAppend(fed, cs[k].content.s);
      assert fed + ([cs[k].content.s] + Accepted(cs, k + 1).0) == (fed + [cs[k].content.s]) + Accepted(cs, k + 1).0;
    } else {
      assert Concat(fed) + "" == Concat(fed);
    }
  }

  const DefaultChatModel: string := "litellm_sonnet-3.5"
  const DefaultTitleChatModel: string := "litellm_gpt-4o-mini"

  /** The valves that the model depends on. The start and stop valves keep
    * their defaults (see `Thoughts`). */
  datatype Valves = Valves(apiKey: Option<string>, chatModel: string, titleChatModel: string,
                           removeThoughts: bool, debug: bool)

  const DefaultValves: Valves := Valves(None, DefaultChatModel, DefaultTitleChatModel, true, false)

  /** The valve is an optional string, so the only non-string is `None`. */
  const NotAStrMsg: string := "Expected api_key to be a str, not <class 'NoneType'>"
  const EmptyKeyMsg: string := "Api_key is empty"

  /** `update_valves`: the API key must be a string that is not blank. */
  function CheckApiKey(apiKey: Option<string>, emptyMsg: string): (r: Option<Exc>)
    ensures r.None? <==> apiKey.Some? && !AllSpace(apiKey.value)
    ensures apiKey.None? ==> r == Some(AssertionError(NotAStrMsg))
    ensures apiKey.Some? && r.Some? ==> r == Some(AssertionError(emptyMsg))
  {
    match apiKey
    case None => Some(AssertionError(NotAStrMsg))
    case Some(k) => if Strip(k) == "" then Some(AssertionError(emptyMsg)) else None
  }

  /** The pipe refuses to run until an API key is configured. */
  lemma DefaultValvesRefused()
    ensures CheckApiKey(DefaultValves.apiKey, EmptyKeyMsg).Some?
  {
  }

  /** A request without streaming is the title generation. */
  predicate IsTitle(body: Dict)
  {
    Get(body, "stream").Some? && !Truthy(Get(body, "stream").value)
  }

  function ModelFor(body: Dict, v: Valves): string
  {
    if IsTitle(body) then v.titleChatModel else v.chatModel
  }

  function UserFor(body: Dict, name: string, email: string): string
  {
    if IsTitle(body) then "titlecreator_" + name + "_" + email else name + "_" + email
  }

  /** The user field is (re)set when absent, or when the given one is a
    * substring of the computed one. */
  predicate UserReplaced(body: Dict, user: string)
  {
    match Get(body, "user")
    case None => true
    case Some(u) => u.Str? && IsInfix(u.s, user)
  }

  /** The tag added to the metadata of a title request. The branch that
    * creates the tag list spells it differently from the one that extends
    * an existing list. */
  const TitleTagKept: string := "title_ceator"
  const TitleTagNew: string := "title_creator"

  const BothMetadataMsg: string := "Found metadata and custom_metadata in payload"
  const TagsNotListMsg: string := "payload['tags'] was not a list"

  /** The title tag added to an existing metadata dict `cm0`. */
  ghost predicate TitleTagged(cm0: Dict, cm1: Dict)
  {
    && (forall k :: k != "tags" ==> Get(cm1, k) == Get(cm0, k))
    && Get(cm1, "tags") == Some(Arr((match Get(cm0, "tags") case Some(Arr(ts)) => ts case _ => [])
                                    + [Str(TitleTagKept)]))
  }

  /** `custom_metadata` before and after the title step. */
  ghost predicate TitleMetadata(before: Option<Json>, after: Option<Json>)
  {
    match before
    case None => after == Some(Obj([("tags", Arr([Str(TitleTagNew)]))]))
    case Some(Obj(cm0)) => after.Some? && after.value.Obj? && TitleTagged(cm0, after.value.fields)
    case Some(_) => false
  }

  /** The langfuse metadata of a successful payload: `session_id` is the chat
    * id, a title request has its tag list extended, nothing else changes. */
  ghost predicate SessionTagged(cm0: Dict, cm1: Dict, chatId: Json, title: bool)
  {
    && Get(cm1, "session_id") == Some(chatId)
    && (forall k :: k != "session_id" && k != "tags" ==> Get(cm1, k) == Get(cm0, k))
    && (!title ==> Get(cm1, "tags") == Get(cm0, "tags"))
    && (title ==> Get(cm1, "tags") == Some(Arr((match Get(cm0, "tags") case Some(Arr(ts)) => ts case _ => [])
                                               + [Str(TitleTagKept)])))
  }

  /** `custom_metadata` of the body and of the successful payload: absent in
    * both, or a dict that gained the session id (and the title tag). */
  ghost predicate PayloadMetadata(before: Option<Json>, after: Option<Json>, chatId: Option<Json>, title: bool)
  {
    match before
    case None => after.None?
    case Some(Obj(cm0)) => chatId.Some? && after.Some? && after.value.Obj?
                           && SessionTagged(cm0, after.value.fields, chatId.value, title)
    case Some(_) => false
  }

  /** The exception of the session-id step when the body's `custom_metadata`
    * is not a dict. The membership test for "session_id" raises on a scalar.
    * When it fails on a list or a string, the chat id is looked up before the
    * item assignment raises; when it succeeds, reading the item raises. */
  function SessionError(cm: Json, chatId: Option<Json>): (e: Exc)
    ensures e == TypeError || e == KeyError("chat_id")
    ensures e == KeyError("chat_id") <==> PyIn(Str("session_id"), cm) == Ok(false) && chatId.None?
  {
    match PyIn(Str("session_id"), cm)
    case Err(_) => TypeError
    case Ok(found) => if !found && chatId.None? then KeyError("chat_id") else TypeError
  }

  /** A list or string that holds "session_id" raises TypeError when the
    * step reads `custom_metadata["session_id"]`, whether or not the body has
    * a chat id. */
  lemma SessionIdHeldRaises(cm: Json, chatId: Option<Json>)
    requires cm.Arr? || cm.Str?
    requires PyIn(Str("session_id"), cm) == Ok(true)
    ensures SessionError(cm, chatId) == TypeError
  {
  }

  /** The model and user fields of the payload. */
  function WithModelUser(body: Dict, model: string, user: string): (r: Result<Dict>)
    ensures r.Err? <==> Get(body, "user").Some? && !Get(body, "user").value.Str?
    ensures r.Err? ==> r.error == TypeError
    ensures r.Ok? ==> Get(r.value, "model") == Some(Str(model))
    ensures r.Ok? ==> Get(r.value, "user") == (if UserReplaced(body, user) then Some(Str(user)) else Get(body, "user"))
    ensures r.Ok? ==> forall k :: k != "model" && k != "user" ==> Get(r.value, k) == Get(body, k)
  {
    var p := Set(body, "model", Str(model));
    match Get(body, "user")
    case None => Ok(Set(p, "user", Str(user)))
    case Some(u) =>
      if !u.Str? then Err(TypeError)
      else if IsInfix(u.s, user) then Ok(Set(p, "user", Str(user)))
      else Ok(p)
  }

  /** `metadata` is renamed `custom_metadata`; having both is an error. */
  function MoveMetadata(p: Dict): (r: Result<Dict>)
    ensures r.Err? <==> HasKey(p, "metadata") && HasKey(p, "custom_metadata")
    ensures r.Err? ==> r.error == AssertionError(BothMetadataMsg)
    ensures r.Ok? ==> !HasKey(r.value, "metadata")
    ensures r.Ok? ==> Get(r.value, "custom_metadata") ==
                        (if HasKey(p, "metadata") then Get(p, "metadata") else Get(p, "custom_metadata"))
    ensures r.Ok? ==> forall k :: k != "metadata" && k != "custom_metadata" ==> Get(r.value, k) == Get(p, k)
  {
    if !HasKey(p, "metadata") then Ok(p)
    else if HasKey(p, "custom_metadata") then Err(AssertionError(BothMetadataMsg))
    else
      var q := Set(p, "custom_metadata", Get(p, "metadata").value);
      Ok(Remove(q, "metadata"))
  }

  /** The title tag in an existing metadata dict. */
  function TagMetadata(cm: Dict): (r: Result<Dict>)
    ensures r.Err? <==> Get(cm, "tags").Some? && !Get(cm, "tags").value.Arr?
    ensures r.Err? ==> r.error == AssertionError(TagsNotListMsg)
    ensures r.Ok? ==> TitleTagged(cm, r.value)
  {
    match Get(cm, "tags")
    case None =>
      assert [] + [Str(TitleTagKept)] == [Str(TitleTagKept)];
      Ok(Set(cm, "tags", Arr([Str(TitleTagKept)])))
    case Some(ts) =>
      if !ts.Arr? then Err(AssertionError(TagsNotListMsg))
      else Ok(Set(cm, "tags", Arr(ts.items + [Str(TitleTagKept)])))
  }

  /** The title request's tag in `custom_metadata`, created when absent. */
  function TagTitle(p: Dict): (r: Result<Dict>)
    ensures (match Get(p, "custom_metadata")
             case None => r.Ok?
             case Some(Obj(cm)) => r.Ok? <==> TagMetadata(cm).Ok?
             case Some(_) => r == Err(TypeError))
    ensures r.Ok? ==> TitleMetadata(Get(p, "custom_metadata"), Get(r.value, "custom_metadata"))
    ensures r.Ok? ==> forall k :: k != "custom_metadata" ==> Get(r.value, k) == Get(p, k)
  {
    match Get(p, "custom_metadata")
    case None => Ok(Set(p, "custom_metadata", Obj([("tags", Arr([Str(TitleTagNew)]))])))
    case Some(cm) =>
      if !cm.Obj? then Err(TypeError)
      else match TagMetadata(cm.fields)
        case Err(e) => Err(e)
        case Ok(cm1) => Ok(Set(p, "custom_metadata", Obj(cm1)))
  }

  /** The session id, written into the body's own `custom_metadata` dict,
    * which the payload shares. */
  function WithSession(body: Dict, p: Dict): (r: Result<Dict>)
    ensures !HasKey(p, "custom_metadata") ==> r == Ok(p)
    ensures HasKey(p, "custom_metadata") && !HasKey(body, "custom_metadata") ==> r == Err(KeyError("custom_metadata"))
    ensures r.Ok? ==> forall k :: k != "custom_metadata" ==> Get(r.value, k) == Get(p, k)
    ensures r.Ok? && HasKey(p, "custom_metadata") ==>
              && Get(p, "custom_metadata").value.Obj? && Get(body, "chat_id").Some?
              && Get(r.value, "custom_metadata") ==
                   Some(Obj(Set(Get(p, "custom_metadata").value.fields, "session_id", Get(body, "chat_id").value)))
  {
    if !HasKey(p, "custom_metadata") then Ok(p)
    else if !HasKey(body, "custom_metadata") then Err(KeyError("custom_metadata"))
    else
      var chatId := Get(body, "chat_id");
      var cm := Get(p, "custom_metadata").value;
      if !cm.Obj? then Err(SessionError(cm, chatId))
      else if chatId.None? then Err(KeyError("chat_id"))
      else Ok(Set(p, "custom_metadata", Obj(Set(cm.fields, "session_id", chatId.value))))
  }

  /** The payload that `pipe` posts for `body`, built from a shallow copy of
    * it in four steps; `name` and `email` are the user's. */
  function BuildPayload(body: Dict, v: Valves, name: string, email: string): (r: Result<Dict>)
    ensures !HasKey(body, "stream") ==> r == Err(KeyError("stream"))
  {
    if !HasKey(body, "stream") then Err(KeyError("stream"))
    else match WithModelUser(body, ModelFor(body, v), UserFor(body, name, email))
      case Err(e) => Err(e)
      case Ok(p1) =>
        match MoveMetadata(p1)
        case Err(e) => Err(e)
        case Ok(p2) =>
          match (if IsTitle(body) then TagTitle(p2) else Ok(p2))
          case Err(e) => Err(e)
          case Ok(p3) => WithSession(body, p3)
  }

  /** A successful payload names the model for the request's kind and the
    * user, and has no `metadata` field. */
  lemma BuildPayloadFields(body: Dict, v: Valves, name: string, email: string)
    ensures var r := BuildPayload(body, v, name, email);
            r.Ok? ==>
              && !HasKey(r.value, "metadata")
              && Get(r.value, "model") == Some(Str(ModelFor(body, v)))
              && Get(r.value, "user") == (if UserReplaced(body, UserFor(body, name, email))
                                          then Some(Str(UserFor(body, name, email))) else Get(body, "user"))
  {
    var r := BuildPayload(body, v, name, email);
    if r.Ok? {
      var s1 := WithModelUser(body, ModelFor(body, v), UserFor(body, name, email));
      var s2 := MoveMetadata(s1.value);
      var s3 := if IsTitle(body) then TagTitle(s2.value) else Ok(s2.value);
      assert r == WithSession(body, s3.value);
      assert Get(r.value, "metadata") == Get(s3.value, "metadata");
      assert Get(s3.value, "metadata") == Get(s2.value, "metadata");
      assert Get(r.value, "model") == Get(s3.value, "model");
      assert Get(s3.value, "model") == Get(s2.value, "model");
      assert Get(s2.value, "model") == Get(s1.value, "model");
      assert Get(r.value, "user") == Get(s3.value, "user");
      assert Get(s3.value, "user") == Get(s2.value, "user");
      assert Get(s2.value, "user") == Get(s1.value, "user");
    }
  }

  /** Every other field of the body is passed on as it is. */
  lemma BuildPayloadKeeps(body: Dict, v: Valves, name: string, email: string, k: string)
    requires k != "model" && k != "user" && k != "custom_metadata" && k != "metadata"
    ensures var r := BuildPayload(body, v, name, email);
            r.Ok? ==> Get(r.value, k) == Get(body, k)
  {
    var r := BuildPayload(body, v, name, email);
    if r.Ok? {
      var s1 := WithModelUser(body, ModelFor(body, v), UserFor(body, name, email));
      var s2 := MoveMetadata(s1.value);
      var s3 := if IsTitle(body) then TagTitle(s2.value) else Ok(s2.value);
      assert r == WithSession(body, s3.value);
      assert Get(r.value, k) == Get(s3.value, k) == Get(s2.value, k) == Get(s1.value, k);
    }
  }

  /** The langfuse metadata of a successful payload: present exactly when
    * the body has a `custom_metadata` dict, which gains the chat id as
    * session id and, for a title request, the title tag. */
  lemma BuildPayloadMetadata(body: Dict, v: Valves, name: string, email: string)
    ensures var r := BuildPayload(body, v, name, email);
            r.Ok? ==> PayloadMetadata(Get(body, "custom_metadata"), Get(r.value, "custom_metadata"),
                                         Get(body, "chat_id"), IsTitle(body))
  {
    var r := BuildPayload(body, v, name, email);
    if r.Ok? {
      BuildPayloadFailures(body, v, name, email);
      var s1 := WithModelUser(body, ModelFor(body, v), UserFor(body, name, email));
      assert Get(s1.value, "metadata") == Get(body, "metadata");
      assert Get(s1.value, "custom_metadata") == Get(body, "custom_metadata");
      var s2 := MoveMetadata(s1.value);
      assert Get(s2.value, "custom_metadata") == Get(body, "custom_metadata");
      var s3 := if IsTitle(body) then TagTitle(s2.value) else Ok(s2.value);
      assert r == WithSession(body, s3.value);
      match Get(body, "custom_metadata") {
        case None =>
          assert !IsTitle(body) && s3 == s2;
          assert r == Ok(s3.value);
        case Some(c) =>
          assert c.Obj?;
          var cm1 := Get(s3.value, "custom_metadata").value.fields;
          assert IsTitle(body) ==> TitleTagged(c.fields, cm1);
          assert !IsTitle(body) ==> cm1 == c.fields;
          assert Get(r.value, "custom_metadata") == Some(Obj(Set(cm1, "session_id", Get(body, "chat_id").value)));
          SessionStep(c.fields, cm1, Get(body, "chat_id").value, IsTitle(body));
      }
    }
  }

  lemma SessionStep(cm0: Dict, cm1: Dict, chatId: Json, title: bool)
    requires title ==> TitleTagged(cm0, cm1)
    requires !title ==> cm1 == cm0
    ensures SessionTagged(cm0, Set(cm1, "session_id", chatId), chatId, title)
  {
  }

  /** The source moves `metadata` into `custom_metadata` and then reads the
    * body's own `custom_metadata`, which then cannot exist: a streamed body
    * with `metadata` always fails, and so does a title request without
    * `custom_metadata`; the "title_creator" spelling never reaches a
    * payload. */
  lemma BuildPayloadFailures(body: Dict, v: Valves, name: string, email: string)
    requires HasKey(body, "stream")
    ensures HasKey(body, "metadata") ==> BuildPayload(body, v, name, email).Err?
    ensures IsTitle(body) && !HasKey(body, "custom_metadata") ==> BuildPayload(body, v, name, email).Err?
  {
    var s1 := WithModelUser(body, ModelFor(body, v), UserFor(body, name, email));
    if s1.Ok? {
      assert Get(s1.value, "metadata") == Get(body, "metadata");
      assert Get(s1.value, "custom_metadata") == Get(body, "custom_metadata");
      var s2 := MoveMetadata(s1.value);
      if s2.Ok? {
        var s3 := if IsTitle(body) then TagTitle(s2.value) else Ok(s2.value);
        if s3.Ok? && !HasKey(body, "custom_metadata") && (HasKey(body, "metadata") || IsTitle(body)) {
          assert HasKey(s3.value, "custom_metadata");
          assert WithSession(body, s3.value).Err?;
        }
      }
    }
  }

  /** `j["choices"][0]["message"].get("content", "")` of a title response. */
  function TitleContent(response: Json): (r: Result<Json>)
  {
    ChoiceContent(response, "message")
  }

  /** The title is read from the message of a whole response, and a streamed
    * chunk (whose choice has a "delta") does not have one. */
  lemma TitleContentOfCompletion(text: string)
    ensures TitleContent(Completion("message", text)) == Ok(Str(text))
    ensures TitleContent(Completion("delta", text)) == Err(KeyError("message"))
  {
    ChoiceContentOfCompletion("message", text);
    ChoiceContentMissingPart("message", "delta", text);
  }

  /** The part of `pipe` after the payload is built: `payload` is the
    * payload or the exception building it raised, and `title` tells whether
    * the request is a title request. */
  method Serve(v: Valves, payload: Result<Dict>, title: bool,
               lines: seq<string>, parse: string -> Option<Json>, response: Json)
    returns (out: seq<string>, reply: Option<Json>, events: seq<Event>, error: Option<Exc>, posted: Option<Dict>,
             ghost cuts: seq<Cut>)
    ensures posted == (if CheckApiKey(v.apiKey, EmptyKeyMsg).None? && payload.Ok?
                       then Some(payload.value) else None)
    ensures CheckApiKey(v.apiKey, EmptyKeyMsg).Some? ==> error == CheckApiKey(v.apiKey, EmptyKeyMsg) && out == [] && events == []
    ensures CheckApiKey(v.apiKey, EmptyKeyMsg).None? && payload.Err? ==>
              && error == Some(payload.error) && out == []
              && events == [Event(Failure, ErrorWas(error.value))]
    ensures error.Some? && events != [] ==> events[|events| - 1] == Event(Failure, ErrorWas(error.value))
    ensures reply.Some? ==> title && error.None? && out == [] && TitleContent(response) == Ok(reply.value)
    ensures error.None? ==> payload.Ok? && events != [] && events[0] == Event(InProgress, WaitingForResponse)
    ensures error.None? && title ==> TitleContent(response).Ok? && reply == Some(TitleContent(response).value)
    ensures error.None? ==> (Event(Success, Cleared) in events <==> !v.debug && !HasFailure(events))
    ensures error.None? && !title && !v.removeThoughts ==> out == lines
    ensures error.None? && !title && v.removeThoughts ==>
              IsSubsequence(Concat(out), Concat(Accepted(Chunks(lines, parse), 0).0))
    ensures error.None? && !title && v.removeThoughts ==>
              Concat(Accepted(Chunks(lines, parse), 0).0) == Uncut(Concat(out), cuts) && AllBlocks(cuts)
    ensures !title && v.removeThoughts && CheckApiKey(v.apiKey, EmptyKeyMsg).None? && payload.Ok? ==>
              error == Accepted(Chunks(lines, parse), 0).1
  {
    out, reply, events, error := [], None, [], CheckApiKey(v.apiKey, EmptyKeyMsg);
    cuts, posted := [], None;
    if error.Some? {
      return;
    }
    if payload.Err? {
      error := Some(payload.error);
      events := [Event(Failure, ErrorWas(payload.error))];
      return;
    }
    posted := Some(payload.value);
    events := [Event(InProgress, WaitingForResponse)];
    if title {
      events := events + [Event(InProgress, ReturningDirectly)];
      var content := TitleContent(response);
      if content.Err? {
        error := Some(content.error);
        events := events + [Event(Failure, ErrorWas(content.error))];
        return;
      }
      reply := Some(content.value);
      HasFailureAppend([Event(InProgress, WaitingForResponse)], [Event(InProgress, ReturningDirectly)]);
      if !v.debug {
        events := events + [Event(Success, Cleared)];
      }
    } else {
      var evs;
      out, evs, error, cuts := Stream(lines, parse, v.removeThoughts, v.debug);
      HasFailureAppend(events, evs);
      events := events + evs;
    }
  }

  /** `pipe`: the valves are checked, the payload is built from `body`
    * (`name` and `email` are the user's) and posted, and its response is
    * either streamed back (`out`) or, for a title request, returned whole
    * (`reply`); `events` are the statuses sent, `error` the exception
    * raised and `posted` the payload sent to LiteLLM. `lines` and
    * `response` stand for what LiteLLM sends. */
  method Pipe(v: Valves, body: Dict, name: string, email: string,
              lines: seq<string>, parse: string -> Option<Json>, response: Json)
    returns (out: seq<string>, reply: Option<Json>, events: seq<Event>, error: Option<Exc>, posted: Option<Dict>,
             ghost cuts: seq<Cut>)
    ensures posted == (if CheckApiKey(v.apiKey, EmptyKeyMsg).None? && BuildPayload(body, v, name, email).Ok?
                       then Some(BuildPayload(body, v, name, email).value) else None)
    ensures CheckApiKey(v.apiKey, EmptyKeyMsg).Some? ==> error == CheckApiKey(v.apiKey, EmptyKeyMsg) && out == [] && events == []
    ensures CheckApiKey(v.apiKey, EmptyKeyMsg).None? && BuildPayload(body, v, name, email).Err? ==>
              && error == Some(BuildPayload(body, v, name, email).error) && out == []
              && events == [Event(Failure, ErrorWas(error.value))]
    ensures error.Some? && events != [] ==> events[|events| - 1] == Event(Failure, ErrorWas(error.value))
    ensures reply.Some? ==> IsTitle(body) && error.None? && out == [] && TitleContent(response) == Ok(reply.value)
    ensures error.None? ==> BuildPayload(body, v, name, email).Ok? && events != [] && events[0] == Event(InProgress, WaitingForResponse)
    ensures error.None? && IsTitle(body) ==> TitleContent(response).Ok? && reply == Some(TitleContent(response).value)
    ensures error.None? ==> (Event(Success, Cleared) in events <==> !v.debug && !HasFailure(events))
    ensures error.None? && !IsTitle(body) && !v.removeThoughts ==> out == lines
    ensures error.None? && !IsTitle(body) && v.removeThoughts ==>
              IsSubsequence(Concat(out), Concat(Accepted(Chunks(lines, parse), 0).0))
    ensures error.None? && !IsTitle(body) && v.removeThoughts ==>
              Concat(Accepted(Chunks(lines, parse), 0).0) == Uncut(Concat(out), cuts) && AllBlocks(cuts)
    ensures !IsTitle(body) && v.removeThoughts && CheckApiKey(v.apiKey, EmptyKeyMsg).None? && BuildPayload(body, v, name, email).Ok? ==>
              error == Accepted(Chunks(lines, parse), 0).1
  {
    out, reply, events, error, posted, cuts :=
      Serve(v, BuildPayload(body, v, name, email), IsTitle(body), lines, parse, response);
  }
}
