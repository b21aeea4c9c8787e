/** Options, and the chat messages every other module talks about. */
module Wrappers {
  datatype Option<+T> = None | Some(value: T)

  datatype Result<+T, +E> = Success(value: T) | Failure(error: E)
}

/** Chat messages and tool calls (core/schema/content.py, core/schema/tool.py). */
module Content {
  import opened Wrappers

  datatype Role = System | User | Assistant | ToolRole

  datatype MessageStatus = Active | Rejected | Errored

  datatype ToolCall = ToolCall(id: string, name: Option<string>, arguments: string)

  /** `ref` stands for the identity of the message object; only the context strategies look at it. */
  datatype Message = Message(
    ref: nat,
    role: Role,
    status: Option<MessageStatus>,
    text: string,
    calls: seq<ToolCall>,
    callId: Option<string>)

  predicate IsActive(m: Message) {
    m.status == None || m.status == Some(Active)
  }

  /** An assistant message that asks for tools; an empty call list asks for none. */
  predicate IsCalling(m: Message) {
    m.role == Assistant && m.calls != []
  }

  function CallIds(calls: seq<ToolCall>): (ids: seq<string>)
    ensures |ids| == |calls|
    ensures forall i :: 0 <= i < |calls| ==> ids[i] == calls[i].id
  {
    seq(|calls|, i requires 0 <= i < |calls| => calls[i].id)
  }

  predicate Distinct<T(==)>(s: seq<T>) {
    forall i, j :: 0 <= i < j < |s| ==> s[i] != s[j]
  }
}
