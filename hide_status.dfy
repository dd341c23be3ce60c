/** The status closures of the HideThinkingPipe: every message requested
  * reaches the chat unless it repeats the last one sent. */
module HideStatus {

  import opened Status
  import RemoveThinkingPipe

  /** The status message last sent after `evs`, starting from `last`. */
  function LastMsg(last: Msg, evs: seq<Event>): (m: Msg)
  {
    if evs == [] then last else evs[|evs| - 1].msg
  }

  /** No message is sent twice in a row: the first differs from `last`,
    * each later one from the one before it. */
  ghost predicate NoRepeats(last: Msg, evs: seq<Event>)
  {
    && (evs != [] ==> evs[0].msg != last)
    && forall i, j :: 0 <= i < j < |evs| && j == i + 1 ==> evs[j].msg != evs[i].msg
  }

  /** The events that reach the chat when `evs` are requested, one after
    * another, from the closures that drop a message equal to the last one
    * sent; `last` is the last one sent before. */
  function Dedup(last: Msg, evs: seq<Event>): (r: seq<Event>)
    decreases |evs|
  {
    if evs == [] then []
    else if evs[0].msg == last then Dedup(last, evs[1..])
    else [evs[0]] + Dedup(evs[0].msg, evs[1..])
  }

  /** What reaches the chat never repeats a message, is drawn from what was
    * requested, ends on the same message, and is all of it when the
    * request itself has no repeats. */
  lemma DedupSpec(last: Msg, evs: seq<Event>)
    ensures var r := Dedup(last, evs);
            && NoRepeats(last, r)
            && (forall e :: e in r ==> e in evs)
            && LastMsg(last, r) == LastMsg(last, evs)
            && (NoRepeats(last, evs) ==> r == evs)
  {
    DedupNoRepeats(last, evs);
    DedupWithin(last, evs);
    DedupLast(last, evs);
    if NoRepeats(last, evs) { DedupKeeps(last, evs); }
  }

  lemma {:induction false} DedupNoRepeats(last: Msg, evs: seq<Event>)
    ensures NoRepeats(last, Dedup(last, evs))
    decreases |evs|
  {
    if evs != [] {
      if evs[0].msg == last {
        DedupNoRepeats(last, evs[1..]);
      } else {
        var rest := Dedup(evs[0].msg, evs[1..]);
        DedupNoRepeats(evs[0].msg, evs[1..]);
        var r := [evs[0]] + rest;
        forall i, j | 0 <= i < j < |r| && j == i + 1 ensures r[j].msg != r[i].msg {
          if i == 0 { assert r[j] == rest[0]; }
          else { assert r[j] == rest[j - 1] && r[i] == rest[i - 1]; }
        }
      }
    }
  }

  lemma {:induction false} DedupWithin(last: Msg, evs: seq<Event>)
    ensures forall e :: e in Dedup(last, evs) ==> e in evs
    decreases |evs|
  {
    if evs != [] {
      assert evs == [evs[0]] + evs[1..];
      if evs[0].msg == last {
        DedupWithin(last, evs[1..]);
      } else {
        DedupWithin(evs[0].msg, evs[1..]);
      }
    }
  }

  lemma {:induction false} DedupLast(last: Msg, evs: seq<Event>)
    ensures LastMsg(last, Dedup(last, evs)) == LastMsg(last, evs)
    decreases |evs|
  {
    if evs != [] {
      assert evs[1..] != [] ==> evs[1..][|evs[1..]| - 1] == evs[|evs| - 1];
      if evs[0].msg == last {
        DedupLast(last, evs[1..]);
      } else {
        var rest := Dedup(evs[0].msg, evs[1..]);
        DedupLast(evs[0].msg, evs[1..]);
        var r := [evs[0]] + rest;
        assert rest != [] ==> r[|r| - 1] == rest[|rest| - 1];
      }
    }
  }

  lemma {:induction false} DedupKeeps(last: Msg, evs: seq<Event>)
    requires NoRepeats(last, evs)
    ensures Dedup(last, evs) == evs
    decreases |evs|
  {
    if evs != [] {
      var tl := evs[1..];
      assert NoRepeats(evs[0].msg, tl) by {
        forall i, j | 0 <= i < j < |tl| && j == i + 1 ensures tl[j].msg != tl[i].msg {
          assert tl[j] == evs[j + 1] && tl[i] == evs[i + 1];
        }
        if tl != [] { assert tl[0] == evs[1]; }
      }
      DedupKeeps(evs[0].msg, tl);
      assert evs == [evs[0]] + tl;
    }
  }

  /** What one request sends. */
  function Sent(last: Msg, e: Event): (r: seq<Event>)
  {
    if e.msg == last then [] else [e]
  }

  lemma DedupOne(last: Msg, e: Event)
    ensures Dedup(last, [e]) == Sent(last, e)
  {
    assert [e][1..] == [];
  }

  lemma {:induction false} NoRepeatsAppend(last: Msg, a: seq<Event>, b: seq<Event>)
    requires NoRepeats(last, a) && NoRepeats(LastMsg(last, a), b)
    ensures NoRepeats(last, a + b)
    ensures LastMsg(last, a + b) == LastMsg(LastMsg(last, a), b)
  {
    var ab := a + b;
    forall i | 0 < i < |ab| ensures ab[i].msg != ab[i - 1].msg {
      if i < |a| {
        assert ab[i] == a[i] && ab[i - 1] == a[i - 1];
      } else if i == |a| {
        assert ab[i] == b[0] && ab[i - 1] == a[|a| - 1];
      } else {
        assert ab[i] == b[i - |a|] && ab[i - 1] == b[i - 1 - |a|];
      }
    }
    if a == [] { assert ab == b; }
    if b != [] { assert ab[|ab| - 1] == b[|b| - 1]; }
    if b == [] { assert ab == a; }
  }

  /** Requesting two runs of messages one after the other is requesting
    * their concatenation. */
  lemma {:induction false} DedupAppend(last: Msg, a: seq<Event>, b: seq<Event>)
    ensures Dedup(last, a + b) == Dedup(last, a) + Dedup(LastMsg(last, a), b)
    decreases |a|
  {
    if a == [] {
      assert a + b == b;
    } else {
      assert (a + b)[0] == a[0];
      assert (a + b)[1..] == a[1..] + b;
      DedupAppend(a[0].msg, a[1..], b);
      assert LastMsg(a[0].msg, a[1..]) == LastMsg(last, a);
      if a[0].msg == last {
        DedupAppend(last, a[1..], b);
      }
    }
  }

  /** The status half: what was sent is what the closures let through of
    * the messages requested so far, so no message was sent twice in a row;
    * `latest` is the last one sent; the status is cleared at the end unless
    * an error was sent; neither the clearing nor an exception report was
    * requested yet. */
  ghost predicate StatusInv(events: seq<Event>, requested: seq<Event>, latest: Msg, clearEmitter: bool, clearAtStart: bool)
  {
    && events == Dedup(Cleared, requested)
    && NoRepeats(Cleared, events) && latest == LastMsg(Cleared, events)
    && clearEmitter == (clearAtStart && !RemoveThinkingPipe.HasFailure(events))
    && (forall i :: 0 <= i < |requested| ==> requested[i].msg != Cleared && !requested[i].msg.ErrorWas?)
    && !latest.ErrorWas?
  }

  /** One more request, sent unless it repeats the last message. */
  lemma StatusRequest(events: seq<Event>, requested: seq<Event>, latest: Msg, clearEmitter: bool, clearAtStart: bool, e: Event)
    requires StatusInv(events, requested, latest, clearEmitter, clearAtStart)
    requires e.msg != Cleared && !e.msg.ErrorWas?
    ensures StatusInv(events + Sent(latest, e), requested + [e], e.msg,
                      clearEmitter && !(e.level == Failure && e.msg != latest), clearAtStart)
  {
    DedupSpec(Cleared, requested);
    DedupAppend(Cleared, requested, [e]);
    DedupOne(latest, e);
    var r' := requested + [e];
    forall i | 0 <= i < |r'| ensures r'[i].msg != Cleared && !r'[i].msg.ErrorWas? {
      if i < |requested| { assert r'[i] == requested[i]; }
    }
    if e.msg != latest {
      RemoveThinkingPipe.HasFailureAppend(events, [e]);
      NoRepeatsAppend(Cleared, events, [e]);
      assert RemoveThinkingPipe.HasFailure([e]) <==> e.level == Failure;
    } else {
      assert events + [] == events;
    }
  }

  /** The last request, which is always sent: a message that was never
    * requested before. */
  lemma StatusLast(events: seq<Event>, requested: seq<Event>, latest: Msg, clearEmitter: bool, clearAtStart: bool, e: Event)
    requires StatusInv(events, requested, latest, clearEmitter, clearAtStart)
    requires e.msg != latest
    ensures events + [e] == Dedup(Cleared, requested + [e])
    ensures NoRepeats(Cleared, events + [e])
  {
    DedupSpec(Cleared, requested);
    DedupAppend(Cleared, requested, [e]);
    DedupOne(latest, e);
    NoRepeatsAppend(Cleared, events, [e]);
  }

  /** The first status sent is the first requested. */
  lemma DedupFirst(requested: seq<Event>)
    requires requested != [] && requested[0].msg != Cleared
    ensures Dedup(Cleared, requested) != [] && Dedup(Cleared, requested)[0] == requested[0]
  {
  }
}
