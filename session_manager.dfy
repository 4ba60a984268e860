/**
 * The process-wide session store of memory/sessionManager.js: a dictionary
 * from session id (a call SID, a WhatsApp sender, `sms:<number>`) to the
 * session's channel, turn history, pending tool calls and addressee gender.
 *
 * Each operation is first given as a function on the dictionary, whose
 * contract says what the operation promises; the class `Store` holds the
 * dictionary the source mutates in place, and each of its methods replaces
 * it by that function's result.
 */
module SessionManager {
  import opened Optional
  import opened Conversation

  datatype Role = User | Model | Function

  /** One `parts` entry of a history turn. */
  datatype Part =
    | TextPart(text: string)
    | CallPart(call: FunctionCall)
    | ResponsePart(name: string, response: ToolResult)

  datatype Turn = Turn(role: Role, part: Part)

  /** A session record; `createdAt` is a clock reading and is not part of the model. */
  datatype Session = Session(
    channel: string,
    history: seq<Turn>,
    pendingFunctionCalls: Option<seq<FunctionCall>>,
    gender: Option<string>)

  type Sessions = map<string, Session>

  /** The channel `initSession` assumes when none is given. */
  const DefaultChannel: string := "voice"

  /** The record `initSession` creates. */
  function NewSession(channel: string): (s: Session)
    ensures s.channel == channel
    ensures s.history == [] && s.pendingFunctionCalls == None && s.gender == None
  {
    Session(channel, [], None, None)
  }

  /** `initSession(id, channel)`: creates the session if the id is unseen, and is a no-op otherwise. */
  function Init(m: Sessions, id: string, channel: string): (m': Sessions)
    ensures m'.Keys == m.Keys + {id}
    ensures forall k :: k in m ==> m'[k] == m[k]
    ensures id !in m ==> m'[id] == NewSession(channel)
  {
    if id in m then m else m[id := NewSession(channel)]
  }

  /** Pushes `turns` at the end of the history of `id`, creating a `'voice'` session first if needed. */
  function Append(m: Sessions, id: string, turns: seq<Turn>): (m': Sessions)
    ensures m'.Keys == m.Keys + {id}
    ensures forall k :: k in m && k != id ==> m'[k] == m[k]
    ensures m'[id].history == History(m, id) + turns
    ensures m'[id].channel == Channel(m, id).GetOr(DefaultChannel)
    ensures m'[id].pendingFunctionCalls == PendingFunctionCalls(m, id)
    ensures m'[id].gender == Gender(m, id)
  {
    var s := Init(m, id, DefaultChannel)[id];
    m[id := s.(history := s.history + turns)]
  }

  /** `addToHistory(id, role, text)`: exactly one `{role, text}` turn at the end; earlier turns untouched. */
  function AppendText(m: Sessions, id: string, role: Role, text: string): (m': Sessions)
    ensures m'.Keys == m.Keys + {id}
    ensures forall k :: k in m && k != id ==> m'[k] == m[k]
    ensures |History(m', id)| == |History(m, id)| + 1
    ensures History(m', id)[..|History(m, id)|] == History(m, id)
    ensures History(m', id)[|History(m, id)|] == Turn(role, TextPart(text))
    ensures History(m', id) == History(m, id) + [Turn(role, TextPart(text))]
    ensures Gender(m', id) == Gender(m, id)
    ensures id in m ==> m'[id] == m[id].(history := m'[id].history)
    ensures id !in m ==> m'[id].channel == DefaultChannel && m'[id].gender == None
  {
    Append(m, id, [Turn(role, TextPart(text))])
  }

  /**
   * `addFunctionInteractionToHistory(id, call, response)`: exactly two turns,
   * the model's function call and then the function's response under the
   * same function name.
   */
  function AddFunctionInteraction(m: Sessions, id: string, call: FunctionCall, response: ToolResult): (m': Sessions)
    ensures m'.Keys == m.Keys + {id}
    ensures forall k :: k in m && k != id ==> m'[k] == m[k]
    ensures |History(m', id)| == |History(m, id)| + 2
    ensures History(m', id)[..|History(m, id)|] == History(m, id)
    ensures History(m', id)[|History(m, id)|] == Turn(Model, CallPart(call))
    ensures History(m', id)[|History(m, id)| + 1] == Turn(Function, ResponsePart(call.name, response))
    ensures id in m ==> m'[id] == m[id].(history := m'[id].history)
  {
    Append(m, id, [Turn(Model, CallPart(call)), Turn(Function, ResponsePart(call.name, response))])
  }

  /** `getHistory(id)`: the stored history, or `[]` for an unknown id. */
  function History(m: Sessions, id: string): (h: seq<Turn>)
    ensures id !in m ==> h == []
    ensures id in m ==> h == m[id].history
  {
    if id in m then m[id].history else []
  }

  /** The stored pending calls, as `getAndClearPendingFunctionCalls` reads them; `None` for an unknown id. */
  function PendingFunctionCalls(m: Sessions, id: string): (p: Option<seq<FunctionCall>>)
    ensures id !in m ==> p == None
    ensures id in m ==> p == m[id].pendingFunctionCalls
  {
    if id in m then m[id].pendingFunctionCalls else None
  }

  /** `getGender(id)`: the stored gender, or null for an unknown id. */
  function Gender(m: Sessions, id: string): (g: Option<string>)
    ensures id !in m ==> g == None
    ensures id in m ==> g == m[id].gender
  {
    if id in m then m[id].gender else None
  }

  /** `getChannel(id)`: the stored channel, or null for an unknown id. */
  function Channel(m: Sessions, id: string): (c: Option<string>)
    ensures id !in m ==> c == None
    ensures id in m ==> c == Some(m[id].channel)
  {
    if id in m then Some(m[id].channel) else None
  }

  /** `setPendingFunctionCalls(id, calls)`: replaces the pending calls and nothing else. */
  function SetPending(m: Sessions, id: string, calls: Option<seq<FunctionCall>>): (m': Sessions)
    ensures m'.Keys == m.Keys + {id}
    ensures forall k :: k in m && k != id ==> m'[k] == m[k]
    ensures m'[id].pendingFunctionCalls == calls
    ensures m'[id].history == History(m, id) && m'[id].gender == Gender(m, id)
    ensures m'[id].channel == Channel(m, id).GetOr(DefaultChannel)
  {
    var s := Init(m, id, DefaultChannel)[id];
    m[id := s.(pendingFunctionCalls := calls)]
  }

  /**
   * `getAndClearPendingFunctionCalls(id)`: the stored calls, leaving null
   * behind; an unknown id or an empty slot gives null and changes nothing.
   */
  function TakePending(m: Sessions, id: string): (r: (Option<seq<FunctionCall>>, Sessions))
    ensures r.0 == PendingFunctionCalls(m, id)
    ensures r.1.Keys == m.Keys
    ensures PendingFunctionCalls(r.1, id) == None
    ensures forall k :: k in m && k != id ==> r.1[k] == m[k]
    ensures id in m ==> r.1[id] == m[id].(pendingFunctionCalls := None)
  {
    if id !in m || m[id].pendingFunctionCalls.None? then (None, m)
    else (m[id].pendingFunctionCalls, m[id := m[id].(pendingFunctionCalls := None)])
  }

  /** `setGender(id, gender)`: overwrites the gender and changes no other field. */
  function AssignGender(m: Sessions, id: string, gender: string): (m': Sessions)
    ensures m'.Keys == m.Keys + {id}
    ensures forall k :: k in m && k != id ==> m'[k] == m[k]
    ensures Gender(m', id) == Some(gender)
    ensures id in m ==> m'[id] == m[id].(gender := Some(gender))
    ensures id !in m ==> m'[id] == NewSession(DefaultChannel).(gender := Some(gender))
  {
    var s := Init(m, id, DefaultChannel)[id];
    m[id := s.(gender := Some(gender))]
  }

  /** `initSession` on a known id keeps channel, history, pending calls and gender, whatever channel is passed. */
  lemma InitIdempotent(m: Sessions, id: string, c1: string, c2: string)
    ensures Init(Init(m, id, c1), id, c2) == Init(m, id, c1)
    ensures id in m ==> Init(m, id, c2) == m
  {
  }

  /** A destructive read: an immediate second take gives null. */
  lemma TakeTwice(m: Sessions, id: string)
    ensures TakePending(TakePending(m, id).1, id).0 == None
    ensures TakePending(TakePending(m, id).1, id).1 == TakePending(m, id).1
  {
  }

  /** Storing calls and taking them hands back exactly what was stored. */
  lemma SetThenTake(m: Sessions, id: string, calls: Option<seq<FunctionCall>>)
    ensures TakePending(SetPending(m, id, calls), id).0 == calls
  {
  }

  /** The process-wide dictionary, updated in place by each operation. */
  class Store {
    var sessions: Sessions

    constructor ()
      ensures sessions == map[]
    {
      sessions := map[];
    }

    method InitSession(id: string, channel: string)
      modifies this
      ensures sessions == Init(old(sessions), id, channel)
    {
      if id !in sessions {
        sessions := sessions[id := NewSession(channel)];
      }
    }

    method AddToHistory(id: string, role: Role, text: string)
      modifies this
      ensures sessions == AppendText(old(sessions), id, role, text)
    {
      InitSession(id, DefaultChannel);
      var s := sessions[id];
      sessions := sessions[id := s.(history := s.history + [Turn(role, TextPart(text))])];
    }

    method AddFunctionInteractionToHistory(id: string, call: FunctionCall, response: ToolResult)
      modifies this
      ensures sessions == AddFunctionInteraction(old(sessions), id, call, response)
    {
      InitSession(id, DefaultChannel);
      var s := sessions[id];
      sessions := sessions[id := s.(history := s.history + [Turn(Model, CallPart(call))])];
      var t := sessions[id];
      sessions := sessions[id := t.(history := t.history + [Turn(Function, ResponsePart(call.name, response))])];
      assert s.history + [Turn(Model, CallPart(call))] + [Turn(Function, ResponsePart(call.name, response))]
          == s.history + [Turn(Model, CallPart(call)), Turn(Function, ResponsePart(call.name, response))];
    }

    /** The stored history, or `[]` for an unknown id; reading never creates a session. */
    function GetHistory(id: string): (h: seq<Turn>)
      reads this
      ensures id !in sessions ==> h == []
      ensures id in sessions ==> h == sessions[id].history
    {
      History(sessions, id)
    }

    method SetPendingFunctionCalls(id: string, calls: Option<seq<FunctionCall>>)
      modifies this
      ensures sessions == SetPending(old(sessions), id, calls)
    {
      InitSession(id, DefaultChannel);
      sessions := sessions[id := sessions[id].(pendingFunctionCalls := calls)];
    }

    method GetAndClearPendingFunctionCalls(id: string) returns (calls: Option<seq<FunctionCall>>)
      modifies this
      ensures (calls, sessions) == TakePending(old(sessions), id)
    {
      if id !in sessions || sessions[id].pendingFunctionCalls.None? {
        return None;
      }
      calls := sessions[id].pendingFunctionCalls;
      sessions := sessions[id := sessions[id].(pendingFunctionCalls := None)];
    }

    method SetGender(id: string, gender: string)
      modifies this
      ensures sessions == AssignGender(old(sessions), id, gender)
    {
      InitSession(id, DefaultChannel);
      sessions := sessions[id := sessions[id].(gender := Some(gender))];
    }

    function GetGender(id: string): (g: Option<string>)
      reads this
      ensures id !in sessions ==> g == None
      ensures id in sessions ==> g == sessions[id].gender
    {
      Gender(sessions, id)
    }

    function GetChannel(id: string): (c: Option<string>)
      reads this
      ensures id !in sessions ==> c == None
      ensures id in sessions ==> c == Some(sessions[id].channel)
    {
      Channel(sessions, id)
    }
  }
}
