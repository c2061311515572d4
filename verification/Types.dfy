/** Values shared by the gateway model: JSON documents, JSON-RPC messages, error
    codes and the results that request promises carry. */
module Types {

  datatype Option<+T> = None | Some(value: T)

  type MsgId = nat
  /** Nanoseconds of the steady clock. */
  type Time = nat

  const ID_SPACE: nat := 0x1_0000_0000
  const NS_PER_MS: nat := 1_000_000

  datatype Json =
    | Null
    | Bool(b: bool)
    | Number(n: int)
    | Text(s: string)
    | Arr(items: seq<Json>)
    | Obj(fields: map<string, Json>)
  {
    /** nlohmann's `empty()`: null and containers without elements; never a scalar. */
    predicate IsEmpty() {
      Null? || (Arr? && |items| == 0) || (Obj? && |fields| == 0)
    }
  }

  /** Firebolt::Error is an int32 enumeration, and a reply may carry any code. */
  type ErrorCode = int

  const ERR_NONE: ErrorCode := 0
  const ERR_GENERAL: ErrorCode := 1
  const ERR_TIMEDOUT: ErrorCode := 2
  const ERR_NOT_CONNECTED: ErrorCode := 3

  /** Result<json>: an optional value, an error code and the error text. */
  datatype Outcome = Outcome(value: Option<Json>, error: ErrorCode, text: string)

  function Success(v: Json): Outcome { Outcome(Some(v), ERR_NONE, "") }
  function Failure(e: ErrorCode): Outcome { Outcome(None, e, "") }

  /** The "id" member of a message.  `Coerced` is a non-integer JSON value that nlohmann still
      converts to an integer (a float or a boolean), given by the converted value. */
  datatype IdField = Unsigned(v: nat) | Negative(m: nat) | Coerced(c: nat) | NonNumeric

  /** The "error" member: its code and message when present with the right type. */
  datatype ErrorField = ErrorField(code: Option<ErrorCode>, message: Option<string>)

  datatype Message = Message(
    id: Option<IdField>,
    result: Option<Json>,
    error: Option<ErrorField>,
    methodName: Option<Json>,
    params: Option<Json>)

  /** getNextMessageID after `issued` ids: a 32-bit counter that starts at 1. */
  function NextId(issued: nat): MsgId { (issued + 1) % ID_SPACE }

  lemma Assoc<T>(a: seq<T>, b: seq<T>, c: seq<T>)
    ensures a + b + c == a + (b + c)
  {
  }
}
