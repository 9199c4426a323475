/** The host side of the plugin contract, as far as the nodes observe it:
    the shared tree state (a string-keyed JSON bag), the actions a node
    returns, the callbacks it sends, and Java's 32-bit integers. */
module Host {

  datatype Option<+T> = None | Some(value: T)

  datatype Result<+T, +E> = Ok(value: T) | Err(error: E)

  /** Java `int`. */
  newtype int32 = x: int | -0x8000_0000 <= x < 0x8000_0000

  /** Java `byte` (signed). */
  newtype int8 = x: int | -0x80 <= x < 0x80

  /** Two's-complement wrap-around of an integer to 32 bits, as Java `int` arithmetic does. */
  function Wrap32(x: int): (r: int32)
    ensures -0x8000_0000 <= x < 0x8000_0000 ==> r as int == x
    ensures (r as int - x) % 0x1_0000_0000 == 0
  {
    ((x + 0x8000_0000) % 0x1_0000_0000 - 0x8000_0000) as int32
  }

  /** A value stored in the shared state. `Json` stands for a JSON document
      (an object such as the token payload) whose contents the nodes never inspect. */
  datatype Value = Null | Text(s: string) | Int(i: int) | Json(doc: string)

  type State = map<string, Value>

  /** The three results of `state.get(key).asString()`: `null` when the key is absent
      or holds JSON null, the string, or an exception (the value is not a string). */
  datatype StringRead = Missing | Str(s: string) | Throws

  function ReadString(st: State, key: string): (r: StringRead)
    ensures r == Missing <==> key !in st || st[key] == Null
    ensures r.Str? <==> key in st && st[key].Text?
    ensures r.Str? ==> st[key] == Text(r.s)
  {
    if key !in st then Missing
    else match st[key]
      case Null => Missing
      case Text(s) => Str(s)
      case _ => Throws
  }

  /** `nodeState.get(key).asString()`: the host's `NodeState.get` answers null, not a
      JSON null, for a key that no state defines, so the call throws there. */
  function NodeReadString(st: State, key: string): (r: StringRead)
    ensures key !in st ==> r == Throws
    ensures key in st ==> r == ReadString(st, key)
  {
    if key !in st then Throws else ReadString(st, key)
  }

  /** The three results of `state.get(key).asInteger()`: `null`, the number
      narrowed to `int`, or an exception (the value is not a number). */
  datatype IntRead = NoInt | IntVal(n: int32) | IntThrows

  function ReadInt(st: State, key: string): (r: IntRead)
    ensures r == NoInt <==> key !in st || st[key] == Null
    ensures key in st && st[key].Int? && -0x8000_0000 <= st[key].i < 0x8000_0000
            ==> r == IntVal(st[key].i as int32)
  {
    if key !in st then NoInt
    else match st[key]
      case Null => NoInt
      case Int(i) => IntVal(Wrap32(i))
      case _ => IntThrows
  }

  /** `nodeState.get(key).asInteger()`, which throws for a key no state defines. */
  function NodeReadInt(st: State, key: string): (r: IntRead)
    ensures key !in st ==> r == IntThrows
    ensures key in st ==> r == ReadInt(st, key)
  {
    if key !in st then IntThrows else ReadInt(st, key)
  }

  /** The body of a text callback: plain text, or a JSON object given by its
      fields in insertion order (its serialisation is not modelled). */
  datatype Message = Plain(text: string) | JsonObject(fields: seq<(string, string)>)

  /** `TextOutputCallback.INFORMATION` and `ConfirmationCallback.INFORMATION`. */
  const Information: int := 0

  /** Callbacks a node sends to the client. */
  datatype Callback =
    | TextOutput(messageType: int, message: Message)
    | ScriptTextOutput(script: string)
    | PollingWait(waitTime: string, waitMessage: string)
    | Confirmation(messageType: int, options: seq<string>, defaultOption: int, selectedIndex: int)
    | TextInput(prompt: string, defaultText: string)
    | Redirect(url: string, httpMethod: string, trackingCookie: bool)

  /** Callbacks returned by the client on the next round trip. */
  datatype Reply = TextOutputReply | TextInputReply(text: Option<string>) | ConfirmationReply(selectedIndex: int) | OtherReply

  /** What `process` returns: go to an outcome (optionally replacing the whole
      shared state), or send callbacks and wait for the next round trip. */
  datatype Action<O> = GoTo(outcome: O) | GoToReplacing(outcome: O, newState: State) | Send(callbacks: seq<Callback>)

  /** An action together with the shared state it leaves behind. */
  datatype Step<O> = Step(action: Action<O>, state: State)

  /** The outcomes of every node built on the host's two-way decision node. */
  datatype Decision = TrueOutcome | FalseOutcome

  /** The shared tree state, which the nodes update in place. */
  class SharedState {
    var entries: State

    constructor (init: State)
      ensures entries == init
    {
      entries := init;
    }

    method Put(key: string, v: Value)
      modifies this
      ensures entries == old(entries)[key := v]
    {
      entries := entries[key := v];
    }

    method Remove(key: string)
      modifies this
      ensures entries == old(entries) - {key}
    {
      entries := entries - {key};
    }
  }
}
