/** Chat messages: a role and a content string. */
module Messages {

  datatype Role = System | User | Assistant

  datatype Message = Message(role: Role, content: string)

  /** The role as it is written in a message object. */
  function RoleName(r: Role): (name: string)
    ensures name in {"system", "user", "assistant"}
  {
    match r
    case System => "system"
    case User => "user"
    case Assistant => "assistant"
  }

  /** The role a name stands for, if any. */
  function RoleOf(name: string): (r: Role)
    requires name in {"system", "user", "assistant"}
    ensures RoleName(r) == name
  {
    if name == "system" then System
    else if name == "user" then User
    else Assistant
  }

  /** `_.findLastIndex(messages, m => m.role === "user")`: the index of the last user
      message, or -1 when there is none. */
  function FindLastUser(ms: seq<Message>): (i: int)
    ensures -1 <= i < |ms|
    ensures i >= 0 ==> ms[i].role == User
    ensures forall j :: i < j < |ms| ==> ms[j].role != User
  {
    if ms == [] then -1
    else if ms[|ms| - 1].role == User then |ms| - 1
    else FindLastUser(ms[..|ms| - 1])
  }
}
