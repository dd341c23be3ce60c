/** The WarnIfLongChat filter (filters/warn_if_long_chat.py).
  *
  * Its inlet refuses a chat with more messages than the hard limit (50 by
  * default), warns about one with more than the soft limit (20 by
  * default), and otherwise lets the body through untouched. Its outlet
  * returns the body as it is.
  */
module WarnIfLongChat {

  import opened Wrappers
  import opened Json
  import opened Status

  const DefaultSoft := 20
  const DefaultHard := 50

  const SoftTooSmallMsg := "number_of_message has to be more than 2"
  const HardTooSmallMsg := "number_of_message_hard_limit has to be more than 5"
  const HardBelowSoftMsg := "number_of_message_hard_limit has to be higher than number_of_message"

  /** `on_valves_updated`: the three assertions, in order. */
  function ValvesUpdated(soft: int, hard: int): (r: Option<Exc>)
    ensures r.None? <==> soft > 2 && hard > 5 && hard > soft
    ensures soft <= 2 ==> r == Some(AssertionError(SoftTooSmallMsg))
  {
    if soft <= 2 then Some(AssertionError(SoftTooSmallMsg))
    else if hard <= 5 then Some(AssertionError(HardTooSmallMsg))
    else if hard <= soft then Some(AssertionError(HardBelowSoftMsg))
    else None
  }

  /** What the inlet does: the status lines it sends, and the body it
    * returns or the exception it raises. The pause it makes before
    * returning a warned chat is not modelled. */
  datatype Outcome = Outcome(events: seq<Event>, result: Result<Dict>)

  /** With the `debug` valve on, the user and the body are
    * first sent as progress statuses. */
  function DebugEvents(debug: bool, user: Option<Json>, body: Dict): (r: seq<Event>)
    ensures debug <==> r != []
  {
    if debug then [Event(InProgress, UserDump(user)), Event(InProgress, BodyDump(body))] else []
  }

  /** `inlet`, on the number of messages of the chat. */
  function Inlet(soft: int, hard: int, debug: bool, user: Option<Json>, body: Dict): (r: Outcome)
    ensures r.result.Ok? ==> r.result.value == body
    ensures HasKey(body, "messages") && Len(Get(body, "messages").value).Ok? ==>
              var n := Len(Get(body, "messages").value).value;
              var d := DebugEvents(debug, user, body);
              && (r.result.Err? <==> n > hard)
              && (n > hard ==> r == Outcome(d + [Event(Failure, RefuseLonger(hard))], Err(Refused(hard))))
              && (soft < n <= hard ==> r == Outcome(d + [Event(Failure, LongChatTip(soft))], Ok(body)))
              && (n <= soft && n <= hard ==> r == Outcome(d, Ok(body)))
    ensures !HasKey(body, "messages") ==> r == Outcome(DebugEvents(debug, user, body), Err(KeyError("messages")))
  {
    var d := DebugEvents(debug, user, body);
    match Get(body, "messages")
    case None => Outcome(d, Err(KeyError("messages")))
    case Some(messages) =>
      match Len(messages)
      case Err(e) => Outcome(d, Err(e))
      case Ok(n) =>
        if n > hard then Outcome(d + [Event(Failure, RefuseLonger(hard))], Err(Refused(hard)))
        else if n > soft then
          // The source waits 5 seconds when `n == soft`, which this branch
          // excludes, and 1 second otherwise.
          Outcome(d + [Event(Failure, LongChatTip(soft))], Ok(body))
        else Outcome(d, Ok(body))
  }

  /** With valves the valve update accepts, every chat length falls in
    * exactly one band: let through silently, warned, or refused; and a
    * longer chat is never treated more leniently than a shorter one. With
    * `debug` off nothing is sent for a chat within the soft limit. */
  lemma Bands(soft: int, hard: int, user: Option<Json>, body: Dict, body': Dict, n: nat, n': nat)
    requires ValvesUpdated(soft, hard).None?
    requires HasKey(body, "messages") && Len(Get(body, "messages").value) == Ok(n)
    requires HasKey(body', "messages") && Len(Get(body', "messages").value) == Ok(n')
    requires n <= n'
    ensures Inlet(soft, hard, false, user, body).result.Err? ==> Inlet(soft, hard, false, user, body').result.Err?
    ensures Inlet(soft, hard, false, user, body).events != [] ==> Inlet(soft, hard, false, user, body').events != []
    ensures n <= soft ==> Inlet(soft, hard, false, user, body) == Outcome([], Ok(body))
  {
  }

  /** The `debug` valve only adds its two statuses in front: the result
    * and the other statuses do not depend on it. */
  lemma DebugOnlyPrefixes(soft: int, hard: int, user: Option<Json>, body: Dict)
    ensures Inlet(soft, hard, true, user, body).result == Inlet(soft, hard, false, user, body).result
    ensures Inlet(soft, hard, true, user, body).events
         == [Event(InProgress, UserDump(user)), Event(InProgress, BodyDump(body))] + Inlet(soft, hard, false, user, body).events
  {
  }

  /** `outlet` returns the body as it is. */
  function Outlet(body: Dict): (r: Dict)
    ensures r == body
  {
    body
  }
}
