/** The transcript of the main chat screen (src/components/chat/chat-interface.tsx):
    how incoming envelopes change the list of entries and the loading flag,
    how a send is guarded, the rotating placeholder and the "near bottom"
    scroll test. */
module ChatTranscript {
  import opened Wrappers
  import opened Js
  import opened ChatTypes
  import WebSocketClient

  /** The part of the component state the message handler changes. */
  datatype View = View(messages: seq<Message>, isLoading: bool)

  /** `newMessage`: an assistant entry whose content is `content || message || ''`.
      `id` stands for the generated `msg_...` identifier. */
  function EntryFor(incoming: IncomingMessage, id: string): (m: Message)
    ensures m.id == id && m.sender == AssistantSender
    ensures m.mtype == Some(incoming.mtype) && m.componentType == incoming.componentType
    ensures Truthy(incoming.content) ==> m.content == incoming.content.value
    ensures !Truthy(incoming.content) && Truthy(incoming.message) ==> m.content == incoming.message.value
    ensures !Truthy(incoming.content) && !Truthy(incoming.message) ==> m.content == ""
  {
    var content := Or(incoming.content, Or(incoming.message, Some("")));
    Message(id, content.GetOr(""), AssistantSender, Some(incoming.mtype), incoming.componentType)
  }

  /** `findLastIndex`: the last index satisfying `p`, or -1. */
  function FindLastIndex(s: seq<Message>, p: Message -> bool): (r: int)
    ensures -1 <= r < |s|
    ensures r >= 0 ==> p(s[r])
    ensures forall j :: r < j < |s| ==> !p(s[j])
    decreases |s|
  {
    if |s| == 0 then -1
    else if p(s[|s| - 1]) then |s| - 1
    else FindLastIndex(s[..|s| - 1], p)
  }

  /** The "thinking" test of the `message` case, `m.sender === 'assistant' &&
      m.type === 'message' && !m.type`. */
  predicate IsThinking(m: Message) {
    m.sender == AssistantSender && m.mtype == Some(MessageKind) && m.mtype.None?
  }

  predicate IsStatus(m: Message) {
    m.mtype == Some(StatusKind)
  }

  predicate IsAssistant(m: Message) {
    m.sender == AssistantSender
  }

  predicate NoStatus(s: seq<Message>) {
    forall k :: 0 <= k < |s| ==> !IsStatus(s[k])
  }

  /** Replace the last entry satisfying `p` with `entry`, or append `entry`. */
  function ReplaceLastOrAppend(s: seq<Message>, p: Message -> bool, entry: Message): (r: seq<Message>)
    ensures entry in r && |s| <= |r|
    ensures forall j :: 0 <= j < |s| && !p(s[j]) ==> r[j] == s[j]
    ensures |r| == |s| + 1 <==> forall j :: 0 <= j < |s| ==> !p(s[j])
    ensures |r| == |s| + 1 ==> r == s + [entry]
    ensures |r| == |s| ==>
              exists k :: 0 <= k < |s| && p(s[k]) && (forall j :: k < j < |s| ==> !p(s[j])) && r == s[k := entry]
  {
    var k := FindLastIndex(s, p);
    if k != -1 then assert s[k := entry][k] == entry; s[k := entry]
    else assert (s + [entry])[|s|] == entry; s + [entry]
  }

  /** Give the last assistant entry type `complete`; no change without one. */
  function MarkLastAssistantComplete(s: seq<Message>): (r: seq<Message>)
    ensures |r| == |s|
    ensures forall j :: 0 <= j < |s| ==>
              r[j].id == s[j].id && r[j].content == s[j].content && r[j].sender == s[j].sender
              && r[j].componentType == s[j].componentType
    ensures forall j :: 0 <= j < |s| && IsAssistant(s[j]) && (forall i :: j < i < |s| ==> !IsAssistant(s[i])) ==>
              r[j].mtype == Some(CompleteKind)
    ensures forall j :: 0 <= j < |s| && r[j] != s[j] ==>
              IsAssistant(s[j]) && forall i :: j < i < |s| ==> !IsAssistant(s[i])
  {
    var k := FindLastIndex(s, IsAssistant);
    if k != -1 then s[k := s[k].(mtype := Some(CompleteKind))] else s
  }

  /** `filter((m) => m.type !== 'status')`. */
  function WithoutStatus(s: seq<Message>): (r: seq<Message>)
    ensures |r| <= |s| && NoStatus(r)
    ensures forall x {:trigger x in r} :: x in r <==> x in s && !IsStatus(x)
  {
    if s == [] then []
    else (if IsStatus(s[0]) then [] else [s[0]]) + WithoutStatus(s[1..])
  }

  /** `handleWebSocketMessage`; `id` is the identifier the new entry gets. */
  function HandleWebSocketMessage(v: View, incoming: IncomingMessage, id: string): (r: View)
    ensures |r.messages| <= |v.messages| + 1
    ensures incoming.mtype in {ErrorKind, CompleteKind, HumanInterventionKind} ==> !r.isLoading
    ensures incoming.mtype !in {ErrorKind, CompleteKind, HumanInterventionKind} ==> r.isLoading == v.isLoading
    ensures incoming.mtype != CompleteKind && !incoming.mtype.Unknown? ==> EntryFor(incoming, id) in r.messages
    ensures incoming.mtype == CompleteKind ==> NoStatus(r.messages)
    ensures incoming.mtype.Unknown? ==> r == v
  {
    var entry := EntryFor(incoming, id);
    match incoming.mtype
    case MessageKind => View(ReplaceLastOrAppend(v.messages, IsThinking, entry), v.isLoading)
    case StatusKind => View(ReplaceLastOrAppend(v.messages, IsStatus, entry), v.isLoading)
    case ErrorKind => View(v.messages + [entry], false)
    case CompleteKind => View(WithoutStatus(MarkLastAssistantComplete(v.messages)), false)
    case HumanInterventionKind => View(v.messages + [entry], false)
    case UiComponentKind => View(v.messages + [entry], v.isLoading)
    case Unknown(_) => v
  }

  /** The thinking test can never hold, so a `message` envelope is always
      appended: the transcript grows by exactly one entry. */
  lemma MessageAlwaysAppends(v: View, incoming: IncomingMessage, id: string)
    requires incoming.mtype == MessageKind
    ensures HandleWebSocketMessage(v, incoming, id)
         == View(v.messages + [EntryFor(incoming, id)], v.isLoading)
  {
  }

  /** A `status` envelope replaces the last status entry in place, or is
      appended when there is none; every other entry stays where it was. */
  lemma StatusReplacesLast(v: View, incoming: IncomingMessage, id: string)
    requires incoming.mtype == StatusKind
    ensures var r := HandleWebSocketMessage(v, incoming, id);
            && r.isLoading == v.isLoading
            && (NoStatus(v.messages) ==> r.messages == v.messages + [EntryFor(incoming, id)])
            && (!NoStatus(v.messages) ==>
                  exists k :: 0 <= k < |v.messages| && IsStatus(v.messages[k])
                              && (forall j :: k < j < |v.messages| ==> !IsStatus(v.messages[j]))
                              && r.messages == v.messages[k := EntryFor(incoming, id)])
  {
    var k := FindLastIndex(v.messages, IsStatus);
    if !NoStatus(v.messages) {
      var j :| 0 <= j < |v.messages| && IsStatus(v.messages[j]);
      assert k >= j;
    }
  }

  /** `error` and `human_intervention` append one entry and clear loading;
      `ui_component` appends one entry and leaves loading alone; an unknown
      type changes nothing. */
  lemma AppendingKinds(v: View, incoming: IncomingMessage, id: string)
    ensures var r := HandleWebSocketMessage(v, incoming, id);
            && (incoming.mtype in {ErrorKind, HumanInterventionKind} ==>
                  r == View(v.messages + [EntryFor(incoming, id)], false))
            && (incoming.mtype == UiComponentKind ==>
                  r == View(v.messages + [EntryFor(incoming, id)], v.isLoading))
            && (incoming.mtype.Unknown? ==> r == v)
  {
  }

  lemma {:induction false} WithoutStatusAppend(a: seq<Message>, b: seq<Message>)
    ensures WithoutStatus(a + b) == WithoutStatus(a) + WithoutStatus(b)
    decreases |a|
  {
    if a == [] {
      assert a + b == b;
    } else {
      assert (a + b)[1..] == a[1..] + b;
      WithoutStatusAppend(a[1..], b);
    }
  }

  /** A single entry survives the filter exactly when it is not a status
      entry; with `WithoutStatusAppend` this fixes the order of the kept
      entries. */
  lemma WithoutStatusSingle(m: Message)
    ensures WithoutStatus([m]) == if IsStatus(m) then [] else [m]
  {
    assert [m][1..] == [];
  }

  lemma {:induction false} WithoutStatusKeeps(s: seq<Message>)
    requires NoStatus(s)
    ensures WithoutStatus(s) == s
    decreases |s|
  {
    if s != [] {
      WithoutStatusKeeps(s[1..]);
    }
  }

  /** A `complete` envelope marks the last assistant entry `complete`, then
      drops every status entry, and clears loading. On a transcript without
      status entries only that one entry changes. */
  lemma CompleteMarksAndClears(v: View, incoming: IncomingMessage, id: string)
    requires incoming.mtype == CompleteKind
    ensures var r := HandleWebSocketMessage(v, incoming, id);
            var k := FindLastIndex(v.messages, IsAssistant);
            && !r.isLoading && NoStatus(r.messages)
            && |r.messages| <= |v.messages|
            && (k == -1 ==> r.messages == WithoutStatus(v.messages))
            && (k != -1 ==>
                  r.messages == WithoutStatus(v.messages[k := v.messages[k].(mtype := Some(CompleteKind))]))
            && (NoStatus(v.messages) && k == -1 ==> r.messages == v.messages)
            && (NoStatus(v.messages) && k != -1 ==>
                  r.messages == v.messages[k := v.messages[k].(mtype := Some(CompleteKind))])
  {
    var s := v.messages;
    var marked := MarkLastAssistantComplete(s);
    if NoStatus(s) {
      assert NoStatus(marked);
      WithoutStatusKeeps(marked);
    }
  }

  /** Every entry the handler adds is an assistant entry, status updates
      included. So when `complete` follows a status update directly, the
      status entry is the last assistant entry: it is the one marked
      `complete`, the filter no longer sees it as a status entry, and the
      status text stays in the transcript while the reply before it is not
      marked. */
  lemma CompleteAfterStatusKeepsStatusText(reply: IncomingMessage, status: IncomingMessage,
                                           complete: IncomingMessage, ids: seq<string>, isLoading: bool)
    requires reply.mtype == MessageKind && status.mtype == StatusKind && complete.mtype == CompleteKind
    requires |ids| == 3
    ensures var before := View([EntryFor(reply, ids[0]), EntryFor(status, ids[1])], isLoading);
            HandleWebSocketMessage(before, complete, ids[2]).messages
              == [EntryFor(reply, ids[0]), EntryFor(status, ids[1]).(mtype := Some(CompleteKind))]
  {
    var e0, e1 := EntryFor(reply, ids[0]), EntryFor(status, ids[1]);
    var marked := [e0, e1.(mtype := Some(CompleteKind))];
    assert FindLastIndex([e0, e1], IsAssistant) == 1;
    assert MarkLastAssistantComplete([e0, e1]) == marked;
    WithoutStatusAppend([marked[0]], [marked[1]]);
    WithoutStatusSingle(marked[0]);
    WithoutStatusSingle(marked[1]);
    assert [marked[0]] + [marked[1]] == marked;
  }

  /** The entry count of status entries. */
  function StatusCount(s: seq<Message>): nat {
    if s == [] then 0 else (if IsStatus(s[|s| - 1]) then 1 else 0) + StatusCount(s[..|s| - 1])
  }

  lemma {:induction false} StatusCountAppend(s: seq<Message>, m: Message)
    ensures StatusCount(s + [m]) == StatusCount(s) + (if IsStatus(m) then 1 else 0)
  {
    assert (s + [m])[..|s|] == s;
  }

  lemma {:induction false} StatusCountUpdate(s: seq<Message>, k: nat, m: Message)
    requires k < |s|
    ensures StatusCount(s[k := m]) + (if IsStatus(s[k]) then 1 else 0)
         == StatusCount(s) + (if IsStatus(m) then 1 else 0)
    decreases |s|
  {
    var last := |s| - 1;
    if k < last {
      assert s[k := m][..last] == s[..last][k := m];
      StatusCountUpdate(s[..last], k, m);
    } else {
      assert s[k := m][..last] == s[..last];
    }
  }

  lemma {:induction false} NoStatusCount(s: seq<Message>)
    ensures NoStatus(s) <==> StatusCount(s) == 0
    decreases |s|
  {
    if s != [] {
      NoStatusCount(s[..|s| - 1]);
      if StatusCount(s) == 0 {
        assert forall k :: 0 <= k < |s| - 1 ==> s[k] == s[..|s| - 1][k];
      }
    }
  }

  lemma {:induction false} FilteredStatusCountZero(s: seq<Message>)
    ensures StatusCount(WithoutStatus(s)) == 0
  {
    NoStatusCount(WithoutStatus(s));
  }

  /** The handler never lets status entries pile up: if the transcript has at
      most one status entry, so does the result. */
  lemma AtMostOneStatusPreserved(v: View, incoming: IncomingMessage, id: string)
    requires StatusCount(v.messages) <= 1
    ensures StatusCount(HandleWebSocketMessage(v, incoming, id).messages) <= 1
  {
    var s := v.messages;
    var entry := EntryFor(incoming, id);
    match incoming.mtype
    case MessageKind =>
      MessageAlwaysAppends(v, incoming, id);
      StatusCountAppend(s, entry);
    case StatusKind =>
      var k := FindLastIndex(s, IsStatus);
      if k != -1 {
        StatusCountUpdate(s, k, entry);
      } else {
        NoStatusCount(s);
        StatusCountAppend(s, entry);
      }
    case CompleteKind =>
      FilteredStatusCountZero(MarkLastAssistantComplete(s));
    case ErrorKind =>
      StatusCountAppend(s, entry);
    case HumanInterventionKind =>
      StatusCountAppend(s, entry);
    case UiComponentKind =>
      StatusCountAppend(s, entry);
    case Unknown(_) =>
  }

  /** Replays four envelopes through the handler, in order. */
  function Replay4(v: View, ins: seq<IncomingMessage>, ids: seq<string>): View
    requires |ins| == 4 && |ids| == 4
  {
    var v1 := HandleWebSocketMessage(v, ins[0], ids[0]);
    var v2 := HandleWebSocketMessage(v1, ins[1], ids[1]);
    var v3 := HandleWebSocketMessage(v2, ins[2], ids[2]);
    HandleWebSocketMessage(v3, ins[3], ids[3])
  }

  /** The completion step of an exchange: the status entry goes and the
      reply becomes `complete`. */
  lemma CompleteStep(v: View, c: IncomingMessage, id: string,
                     t: seq<Message>, e0: Message, e1: Message, e2: Message)
    requires c.mtype == CompleteKind && NoStatus(t) && v.messages == t + [e0, e1, e2]
    requires !IsStatus(e0) && IsStatus(e1) && IsAssistant(e2)
    ensures HandleWebSocketMessage(v, c, id) == View(t + [e0, e2.(mtype := Some(CompleteKind))], false)
  {
    var e2c := e2.(mtype := Some(CompleteKind));
    var s := v.messages;
    assert s[|s| - 1] == e2;
    assert FindLastIndex(s, IsAssistant) == |t| + 2;
    assert s[|t| + 2 := e2c] == t + [e0, e1, e2c];
    assert MarkLastAssistantComplete(s) == t + [e0, e1, e2c];
    assert t + [e0, e1, e2c] == t + [e0] + [e1] + [e2c];
    WithoutStatusAppend(t + [e0] + [e1], [e2c]);
    WithoutStatusAppend(t + [e0], [e1]);
    WithoutStatusAppend(t, [e0]);
    WithoutStatusKeeps(t);
    WithoutStatusSingle(e0);
    WithoutStatusSingle(e1);
    WithoutStatusSingle(e2c);
  }

  /** A message, a status, a message and a completion, replayed on a
      transcript without status entries, add the two messages, the second
      marked `complete`, and end the loading state. */
  lemma ExchangeShape(v: View, ins: seq<IncomingMessage>, ids: seq<string>)
    requires NoStatus(v.messages) && |ins| == 4 && |ids| == 4
    requires ins[0].mtype == MessageKind && ins[1].mtype == StatusKind
    requires ins[2].mtype == MessageKind && ins[3].mtype == CompleteKind
    ensures var r := Replay4(v, ins, ids);
            && !r.isLoading
            && r.messages == v.messages + [EntryFor(ins[0], ids[0]),
                                           EntryFor(ins[2], ids[2]).(mtype := Some(CompleteKind))]
  {
    var t := v.messages;
    var e0, e1, e2 := EntryFor(ins[0], ids[0]), EntryFor(ins[1], ids[1]), EntryFor(ins[2], ids[2]);
    var v1 := HandleWebSocketMessage(v, ins[0], ids[0]);
    MessageAlwaysAppends(v, ins[0], ids[0]);
    assert v1.messages == t + [e0];
    var v2 := HandleWebSocketMessage(v1, ins[1], ids[1]);
    assert NoStatus(v1.messages);
    StatusReplacesLast(v1, ins[1], ids[1]);
    assert v2.messages == t + [e0, e1];
    var v3 := HandleWebSocketMessage(v2, ins[2], ids[2]);
    MessageAlwaysAppends(v2, ins[2], ids[2]);
    assert v3.messages == t + [e0, e1, e2];
    CompleteStep(v3, ins[3], ids[3], t, e0, e1, e2);
  }

  /** Replaying the four envelopes of a mock-mode answer (thinking message,
      status, reply, completion) on a transcript without status entries adds
      exactly the thinking entry and the reply, the reply marked `complete`,
      and ends the loading state. */
  lemma MockExchange(v: View, userMessage: string, ids: seq<string>)
    requires NoStatus(v.messages) && |ids| == 4
    ensures var replies := WebSocketClient.MockReplies(userMessage);
            var r := Replay4(v, replies, ids);
            && !r.isLoading
            && r.messages == v.messages + [EntryFor(replies[0], ids[0]),
                                           EntryFor(replies[2], ids[2]).(mtype := Some(CompleteKind))]
  {
    ExchangeShape(v, WebSocketClient.MockReplies(userMessage), ids);
  }

  /** The five rotating input placeholders. */
  const Placeholders: seq<string> := [
    "Ask about reproductive health and wellness...",
    "Get information about your legal rights...",
    "Seek emotional wellness support...",
    "Learn about family law matters...",
    "Find stress management techniques..."]

  /** The placeholder shown after `n` four-second intervals. */
  function PlaceholderAfter(n: nat): (i: nat)
    ensures i < |Placeholders|
  {
    if n == 0 then 0 else (PlaceholderAfter(n - 1) + 1) % |Placeholders|
  }

  /** Rotation is cyclic: after `n` intervals the index is `n mod 5`. */
  lemma {:induction false} PlaceholderCycles(n: nat)
    ensures PlaceholderAfter(n) == n % |Placeholders|
  {
    if n > 0 {
      PlaceholderCycles(n - 1);
    }
  }

  /** `distanceFromBottom < 150`. */
  const NearBottomThreshold: int := 150

  /** The mutable state of the component. */
  class ChatInterface {
    var messages: seq<Message>
    var inputValue: string
    var isLoading: bool
    var placeholderIndex: nat
    var isUserNearBottom: bool

    ghost predicate Valid()
      reads this
    {
      placeholderIndex < |Placeholders|
    }

    constructor ()
      ensures Valid()
      ensures messages == [] && inputValue == "" && !isLoading
      ensures placeholderIndex == 0 && isUserNearBottom
    {
      messages := [];
      inputValue := "";
      isLoading := false;
      placeholderIndex := 0;
      isUserNearBottom := true;
    }

    /** The message handler registered through `useChatMessages`. */
    method OnIncoming(incoming: IncomingMessage, id: string)
      modifies this`messages, this`isLoading
      ensures View(messages, isLoading) == HandleWebSocketMessage(View(old(messages), old(isLoading)), incoming, id)
    {
      var v := HandleWebSocketMessage(View(messages, isLoading), incoming, id);
      messages, isLoading := v.messages, v.isLoading;
    }

    /** `handleSendMessage`. The text is `messageText || inputValue.trim()`;
        nothing happens when it is empty or the connection is not
        `CONNECTED`. Otherwise one user entry is appended, the returned
        request goes to the chat context's `sendMessage`, the input is
        cleared and loading starts. `entryId` and `messageId` stand for the
        two `generateMessageId()` calls. */
    method HandleSendMessage(messageText: Option<string>, connectionState: WebSocketClient.ConnectionState,
                             entryId: string, messageId: string, timezone: Option<string>,
                             userName: Option<string>, userEmail: Option<string>)
      returns (request: Option<SendRequest>)
      modifies this`messages, this`inputValue, this`isLoading
      ensures var text := Or(messageText, Some(Trim(old(inputValue))));
              if !Truthy(text) || connectionState != WebSocketClient.Connected then
                && request.None? && messages == old(messages)
                && inputValue == old(inputValue) && isLoading == old(isLoading)
              else
                && text.Some?
                && messages == old(messages) + [Message(entryId, text.value, UserSender, Some(CompleteKind), None)]
                && request == Some(SendRequest(text.value, messageId, timezone, userName, userEmail, None))
                && inputValue == "" && isLoading
    {
      var text := Or(messageText, Some(Trim(inputValue)));
      if !Truthy(text) || connectionState != WebSocketClient.Connected {
        return None;
      }
      messages := messages + [Message(entryId, text.value, UserSender, Some(CompleteKind), None)];
      request := Some(SendRequest(text.value, messageId, timezone, userName, userEmail, None));
      inputValue := "";
      isLoading := true;
    }

    /** The placeholder interval: the index advances modulo five. */
    method RotatePlaceholder()
      requires Valid()
      modifies this`placeholderIndex
      ensures Valid()
      ensures placeholderIndex == (old(placeholderIndex) + 1) % |Placeholders|
    {
      placeholderIndex := (placeholderIndex + 1) % |Placeholders|;
    }

    /** `handleScroll`; `hasContainer` is false while the list is not mounted. */
    method HandleScroll(hasContainer: bool, scrollTop: int, scrollHeight: int, clientHeight: int)
      modifies this`isUserNearBottom
      ensures !hasContainer ==> isUserNearBottom == old(isUserNearBottom)
      ensures hasContainer ==> (isUserNearBottom <==> scrollHeight - scrollTop - clientHeight < NearBottomThreshold)
    {
      if !hasContainer {
        return;
      }
      var distanceFromBottom := scrollHeight - scrollTop - clientHeight;
      isUserNearBottom := distanceFromBottom < NearBottomThreshold;
    }
  }
}
