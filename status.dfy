/** The status notifications that the pipes send to the chat interface.
  *
  * The interface shows each one as a status line of a given level. Message
  * texts are represented by the `Msg` datatype, one constructor per template
  * of the source; two messages are equal exactly when their texts are.
  */
module Status {

  import opened Wrappers
  import opened Json

  datatype Level = InProgress | Success | Failure

  datatype Msg =
    | Cleared                     // "": hides the status line
    | Started                     // "Start"
    | WaitingForResponse          // "Waiting for response"
    | ReceivingChunks             // "Receiving chunks"
    | ReturningDirectly           // "Returning directly"
    | RemovedBlocks(count: nat)   // "Removed {count} thought block"
    | RemovedBlock                // "Removed thought block"
    | WaitingForThought(nth: nat) // "Waiting for thought nÂ°{nth} to finish" (the source's mis-encoded "n°")
    | NeverFinished               // "It seems a thought was never finished"
    | NeverFound                  // "Thought block never found"
    | DefaultKey                  // "Disabled api key matching, will use the default key"
    | KeyFor(user: string)        // "Will use key for {user}"
    | ErrorWas(error: Exc)        // "Error: {error}"
    | TrimmedTo(keep: int)        // "Trimmed chat history to last {keep} messages"
    | RefuseLonger(limit: int)    // "I refuse to answer to chats with more than {limit} messages"
    | LongChatTip(limit: int)     // "Tips: don't use more messages than {limit} in a single chat, ..."
    | UserDump(who: Option<Json>) // "WarnIfLongChat filter: inlet: __user__ {who}"
    | BodyDump(body: Dict)        // "WarnIfLongChat filter: inlet: body {body}"
    | CountBefore(total: int)     // "InfiniteChat filter: inlet: messages count before: {total}"

  datatype Event = Event(level: Level, msg: Msg)
}
