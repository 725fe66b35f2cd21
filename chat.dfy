/** The message model the clients and the REPL exchange: a role and a text. */
module Chat {
  import opened Wrappers

  /** The three roles a message can carry. */
  datatype Role = System | User | AI

  /** The wire value of a role. */
  function RoleValue(role: Role): string
  {
    match role
    case System => "system"
    case User => "user"
    case AI => "assistant"
  }

  /** `raw in Role` followed by `Role(raw)`: the role whose wire value is `raw`, if any.
      `None` (a missing or null field) is never a role. */
  function RoleOf(raw: Option<string>): (r: Option<Role>)
    ensures r.Some? ==> raw == Some(RoleValue(r.value))
  {
    match raw
    case None => None
    case Some(s) =>
      if s == "system" then Some(System)
      else if s == "user" then Some(User)
      else if s == "assistant" then Some(AI)
      else None
  }

  /** Every role is recognised from its own wire value. */
  lemma RoleOfValue(role: Role)
    ensures RoleOf(Some(RoleValue(role))) == Some(role)
  {
  }

  /** Exactly the three wire values name a role. */
  lemma RoleMembership(raw: string)
    ensures RoleOf(Some(raw)).Some? <==> raw in {"system", "user", "assistant"}
  {
  }

  datatype Message = Message(role: Role, content: string)

  /** `Message.to_dict()`: the two-field mapping sent on the wire. */
  function ToDict(m: Message): (d: map<string, string>)
    ensures d.Keys == {"role", "content"}
    ensures d["role"] == RoleValue(m.role) && d["content"] == m.content
  {
    map["role" := RoleValue(m.role), "content" := m.content]
  }

  /** Reading a wire mapping back as a message: exactly the two keys, and a known role. */
  function FromDict(d: map<string, string>): Option<Message>
  {
    if d.Keys == {"role", "content"} then
      match RoleOf(Some(d["role"]))
      case Some(role) => Some(Message(role, d["content"]))
      case None => None
    else None
  }

  /** Serialising a message and reading it back gives the message. */
  lemma DictRoundTrip(m: Message)
    ensures FromDict(ToDict(m)) == Some(m)
  {
    RoleOfValue(m.role);
  }

  /** Whatever reads back as a message is exactly that message's serialisation. */
  lemma DictFaithful(d: map<string, string>, m: Message)
    requires FromDict(d) == Some(m)
    ensures ToDict(m) == d
  {
    var e := ToDict(m);
    assert e.Keys == d.Keys;
    forall k | k in d ensures e[k] == d[k] {
      assert k == "role" || k == "content";
    }
  }
}
