/** The InfiniteChat filter (filters/infinite_chat.py).
  *
  * Its inlet keeps only the most recent `keep_messages` messages of a chat
  * (10 by default): `body["messages"]` is replaced by the slice
  * `[-keep_messages:]` whenever the chat is longer. Its outlet returns the
  * body as it is.
  */
module InfiniteChat {

  import opened Wrappers
  import opened Json
  import opened Status

  const DefaultKeep := 10
  const KeepTooSmallMsg := "keep_messages must be at least 2"

  /** `on_valves_updated`: a valve below 2 is refused. */
  function ValvesUpdated(keep: int): (r: Option<Exc>)
    ensures r.None? <==> keep >= 2
  {
    if keep >= 2 then None else Some(AssertionError(KeepTooSmallMsg))
  }

  /** The messages the inlet leaves, for any value of the valve. */
  function Trim<T>(ms: seq<T>, keep: int): (r: seq<T>)
    ensures |r| <= |ms| && r == ms[|ms| - |r|..]
    ensures |ms| <= keep ==> r == ms
  {
    if |ms| > keep then SliceFrom(ms, -keep) else ms
  }

  /** A long chat keeps its last `keep` messages, in order; so the chat
    * never has more than `keep` messages and loses none it can keep. */
  lemma TrimKeepsLast<T>(ms: seq<T>, keep: int)
    requires keep >= 1
    ensures |ms| > keep ==> Trim(ms, keep) == ms[|ms| - keep..]
    ensures |Trim(ms, keep)| == if |ms| < keep then |ms| else keep
  {
  }

  /** With 0 the slice is `[-0:]`, the whole chat; with a negative valve the
    * slice drops that many messages from the start. */
  lemma TrimOddValves<T>(ms: seq<T>, keep: int)
    requires keep <= 0
    ensures keep == 0 ==> Trim(ms, keep) == ms
    ensures keep < 0 ==> Trim(ms, keep) == if -keep < |ms| then ms[-keep..] else []
  {
  }

  /** Trimming twice is trimming once, for any valve that is not negative. */
  lemma TrimIdempotent<T>(ms: seq<T>, keep: int)
    requires keep >= 0
    ensures Trim(Trim(ms, keep), keep) == Trim(ms, keep)
  {
  }

  /** `inlet`: `len(body["messages"])` raises on a missing key or a value
    * without a length, and slicing raises on a dict. With the `debug` valve
    * on, the length is first read (and may raise) for the "messages count
    * before" status. */
  method Inlet(keep: int, debug: bool, body: Dict) returns (r: Result<Dict>, events: seq<Event>)
    ensures !HasKey(body, "messages") ==> r == Err(KeyError("messages")) && events == []
    ensures HasKey(body, "messages") && Get(body, "messages").value.Arr? ==>
              var ms := Get(body, "messages").value.items;
              && r == Ok(Set(body, "messages", Arr(Trim(ms, keep))))
              && events == (if debug then [Event(InProgress, CountBefore(|ms|))] else [])
                           + (if |ms| > keep then [Event(InProgress, TrimmedTo(keep))] else [])
    ensures r.Ok? && Event(InProgress, TrimmedTo(keep)) !in events ==> r.value == body
  {
    events := [];
    if !HasKey(body, "messages") {
      return Err(KeyError("messages")), [];
    }
    var messages := Get(body, "messages").value;
    var n := Len(messages);
    if n.Err? {
      return Err(n.error), [];
    }
    if debug {
      events := [Event(InProgress, CountBefore(n.value))];
    }
    if n.value <= keep {
      SetSame(body, "messages", messages);
      return Ok(body), events;
    }
    match messages {
      case Arr(ms) =>
        r := Ok(Set(body, "messages", Arr(SliceFrom(ms, -keep))));
      case Str(s) =>
        r := Ok(Set(body, "messages", Str(SliceFrom(s, -keep))));
      case _ =>
        return Err(TypeError), events;
    }
    events := events + [Event(InProgress, TrimmedTo(keep))];
  }

  /** `outlet` returns the body as it is. */
  function Outlet(body: Dict): (r: Dict)
    ensures r == body
  {
    body
  }
}
