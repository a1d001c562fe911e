/** The chat widget's client-side state machine: a message list seeded with three sample
    messages, an input buffer, a `sending` flag and an id counter that starts at 1000.
    A send is split at its single `await`: `BeginSend` does everything up to the request
    (appends the user message and a placeholder, clears the input, sets the flag) and
    `CompleteSend` is the continuation that runs once the request settles. */
module ChatWidget {
  import opened JsText

  datatype Role = User | Assistant

  /** A message bubble; `ts` is the advisory wall-clock stamp, never used for ordering. */
  datatype ChatMessage = ChatMessage(id: string, role: Role, content: string, ts: int)

  const Thinking: string := "…thinking"
  const EmptyReply: string := "(empty response)"
  const ServiceError: string := "Error contacting AI service."
  const FirstGeneratedId: nat := 1000

  /** The seeded conversation, with ids "1", "2" and "3". */
  const SampleMessages: seq<ChatMessage> := [
    ChatMessage("1", Assistant, "Hi! I&apos;m the embedded assistant. Ask me about this portfolio or technologies used.", 0),
    ChatMessage("2", User, "What stack powers this site?", 1),
    ChatMessage("3", Assistant, "Next.js App Router, TypeScript, Tailwind, shadcn/ui, Framer Motion & Lucide icons.", 2)
  ]

  /** How the request to the chat endpoint settled. `Replied` is a 2xx response whose JSON
      body was read, with its `reply` field when that is a string (`None` when it is missing
      or not a string). `Failed` covers a non-2xx status, a network error and a body that is
      not JSON: all of them throw inside the `try`. */
  datatype FetchOutcome = Replied(reply: Option<string>) | Failed

  /** What `BeginSend` hands to the continuation: the placeholder's id (kept in the closure)
      and the `message` field of the JSON request body. */
  datatype PendingSend = PendingSend(tempId: string, message: string)

  /** The text the placeholder ends up with: the reply when it is a non-empty string, the
      fallback for an empty or missing reply, and one fixed string for every failure, so the
      error detail never reaches the user. */
  function PlaceholderContent(outcome: FetchOutcome): (r: string)
    ensures r != []
    ensures outcome.Failed? ==> r == ServiceError
    ensures outcome.Replied? ==> (r == EmptyReply || Some(r) == outcome.reply)
    ensures outcome.Replied? && outcome.reply.Some? && outcome.reply.value != [] ==> r == outcome.reply.value
  {
    match outcome
    case Replied(Some(text)) => if text != [] then text else EmptyReply
    case Replied(None) => EmptyReply
    case Failed => ServiceError
  }

  /** `m.map(msg => msg.id === id ? { ...msg, content } : msg)`: every message carrying the
      id gets the new content, every other message is kept, ids, roles and stamps unchanged. */
  function ReplaceContent(ms: seq<ChatMessage>, id: string, content: string): (r: seq<ChatMessage>)
    ensures |r| == |ms|
    ensures forall i :: 0 <= i < |ms| ==>
      r[i].id == ms[i].id && r[i].role == ms[i].role && r[i].ts == ms[i].ts
    ensures forall i :: 0 <= i < |ms| ==>
      r[i].content == if ms[i].id == id then content else ms[i].content
  {
    seq(|ms|, i requires 0 <= i < |ms| => if ms[i].id == id then ms[i].(content := content) else ms[i])
  }

  /** No two messages share an id. */
  predicate UniqueIds(ms: seq<ChatMessage>) {
    forall i, j :: 0 <= i < j < |ms| ==> ms[i].id != ms[j].id
  }

  /** No message carries an id the counter can still produce from `next` on. */
  ghost predicate IdsBelow(ms: seq<ChatMessage>, next: nat) {
    forall i, k :: 0 <= i < |ms| && next <= k ==> ms[i].id != DecimalString(k)
  }

  /** With unique ids, replacing the content of the message at `p` by its id changes that
      message's content and nothing else in the list. */
  lemma ReplaceContentOnlyTarget(ms: seq<ChatMessage>, p: nat, content: string)
    requires UniqueIds(ms) && p < |ms|
    ensures ReplaceContent(ms, ms[p].id, content) == ms[p := ms[p].(content := content)]
  {
    var r := ReplaceContent(ms, ms[p].id, content);
    forall i | 0 <= i < |ms| ensures r[i] == ms[p := ms[p].(content := content)][i] {
      if i != p {
        assert ms[i].id != ms[p].id by {
          if i < p { assert ms[i].id != ms[p].id; } else { assert ms[p].id != ms[i].id; }
        }
      }
    }
  }

  /** A replacement by an id that no message carries changes nothing. */
  lemma ReplaceContentAbsentId(ms: seq<ChatMessage>, id: string, content: string)
    requires forall i :: 0 <= i < |ms| ==> ms[i].id != id
    ensures ReplaceContent(ms, id, content) == ms
  {
    var r := ReplaceContent(ms, id, content);
    assert forall i :: 0 <= i < |ms| ==> r[i] == ms[i];
  }

  /** The widget's invariant over its message list, counter and flag: ids are unique, none
      can collide with an id still to be generated, and while a request is pending the last
      message is its placeholder, carrying the last id handed out. */
  ghost predicate ClientInvariant(ms: seq<ChatMessage>, next: nat, sending: bool) {
    && FirstGeneratedId <= next && UniqueIds(ms) && IdsBelow(ms, next)
    && (sending ==> |ms| > 0 && PendingPlaceholder(ms[|ms| - 1], next - 1))
  }

  /** The placeholder a pending request will fill: the assistant's "…thinking" bubble
      carrying id `n`. */
  predicate PendingPlaceholder(m: ChatMessage, n: nat) {
    m.id == DecimalString(n) && m.role == Assistant && m.content == Thinking
  }

  /** Appending two messages with the next two generated ids keeps the ids unique and
      leaves the counter, now two further on, unable to repeat any of them. */
  lemma AppendGeneratedKeepsIdsFresh(ms: seq<ChatMessage>, next: nat, first: ChatMessage, second: ChatMessage)
    requires UniqueIds(ms) && IdsBelow(ms, next)
    requires first.id == DecimalString(next) && second.id == DecimalString(next + 1)
    ensures UniqueIds(ms + [first, second]) && IdsBelow(ms + [first, second], next + 2)
  {
    var r := ms + [first, second];
    DecimalStringInjective(next, next + 1);
    forall i, j | 0 <= i < j < |r| ensures r[i].id != r[j].id {
      if j < |ms| {
        assert r[i] == ms[i] && r[j] == ms[j];
      } else if i < |ms| {
        assert r[i] == ms[i];
      }
    }
    forall i, k | 0 <= i < |r| && next + 2 <= k ensures r[i].id != DecimalString(k) {
      if i < |ms| {
        assert r[i] == ms[i];
      } else {
        DecimalStringInjective(if i == |ms| then next else next + 1, k);
      }
    }
  }

  /** The seeded ids can never be produced by the counter, which starts at 1000. */
  lemma SampleIdsFresh()
    ensures UniqueIds(SampleMessages) && IdsBelow(SampleMessages, FirstGeneratedId)
  {
    forall i, k | 0 <= i < |SampleMessages| && FirstGeneratedId <= k
      ensures SampleMessages[i].id != DecimalString(k)
    {
      var n := i + 1;
      assert SampleMessages[i].id == DecimalString(n);
      DecimalStringInjective(n, k);
    }
  }

  /** Appending the user message and the placeholder with the next two ids establishes the
      invariant with the flag set. */
  lemma AppendExchangeKeepsInvariant(ms: seq<ChatMessage>, next: nat, user: ChatMessage, placeholder: ChatMessage)
    requires ClientInvariant(ms, next, false)
    requires user.id == DecimalString(next) && PendingPlaceholder(placeholder, next + 1)
    ensures ClientInvariant(ms + [user, placeholder], next + 2, true)
  {
    AppendGeneratedKeepsIdsFresh(ms, next, user, placeholder);
  }

  class ChatClient {
    var messages: seq<ChatMessage>
    var input: string
    var sending: bool
    /** `idCounter.current`: the next number `nextId` hands out. */
    var idCounter: nat

    /** `ClientInvariant` holds of the fields (nothing can be appended while `sending` is
        set, so the pending placeholder stays last). */
    ghost predicate Valid()
      reads this
    {
      ClientInvariant(messages, idCounter, sending)
    }

    /** The send button's `disabled`: a request is pending or the input is whitespace only. */
    function SendDisabled(): (disabled: bool)
      reads this
      ensures disabled <==> sending || Blank(input)
    {
      TrimEmptyIffBlank(input);
      sending || Trim(input) == []
    }

    /** What a send attempt leaves behind: it is accepted exactly when the button is enabled;
        refused, nothing changes; accepted, the user message with the trimmed text and the
        placeholder are appended with the next two ids, the input is cleared, the flag is set
        and the continuation is handed the placeholder's id and the text. */
    twostate predicate SendAttempt(new pending: Option<PendingSend>, now: int, later: int)
      reads this
    {
      && (pending.Some? <==> !old(SendDisabled()))
      && (pending.None? ==>
            messages == old(messages) && input == old(input) && sending == old(sending) && idCounter == old(idCounter))
      && (pending.Some? ==>
            var text := Trim(old(input));
            var userId := DecimalString(old(idCounter));
            var tempId := DecimalString(old(idCounter) + 1);
            && pending.value == PendingSend(tempId, text)
            && messages == old(messages) + [ChatMessage(userId, User, text, now), ChatMessage(tempId, Assistant, Thinking, later)]
            && input == [] && sending && idCounter == old(idCounter) + 2)
    }

    constructor ()
      ensures Valid()
      ensures messages == SampleMessages && input == [] && !sending && idCounter == FirstGeneratedId
    {
      messages := SampleMessages;
      input := [];
      sending := false;
      idCounter := FirstGeneratedId;
      SampleIdsFresh();
    }

    /** The textarea's `onChange`. */
    method SetInput(text: string)
      modifies this`input
      ensures input == text
    {
      input := text;
    }

    /** `nextId`: hands out the counter's value as a string, then increments the counter. */
    method NextId() returns (id: string)
      modifies this`idCounter
      ensures id == DecimalString(old(idCounter)) && idCounter == old(idCounter) + 1
    {
      id := DecimalString(idCounter);
      idCounter := idCounter + 1;
    }

    /** `sendMessage` up to its `await`. Refused (nothing changes) while a request is pending
        or when the trimmed input is empty; otherwise the user message with the trimmed text
        and the placeholder are appended with two fresh ids, the input is cleared and the
        flag is set. `now` and `later` are the two `Date.now()` readings. */
    method BeginSend(now: int, later: int) returns (pending: Option<PendingSend>)
      requires Valid()
      modifies this
      ensures Valid()
      ensures SendAttempt(pending, now, later)
    {
      if Trim(input) == [] || sending {
        return None;
      }
      var text := Trim(input);
      AppendExchangeKeepsInvariant(messages, idCounter,
        ChatMessage(DecimalString(idCounter), User, text, now),
        ChatMessage(DecimalString(idCounter + 1), Assistant, Thinking, later));
      var tempId := AppendExchange(text, now, later);
      pending := Some(PendingSend(tempId, text));
    }

    /** The accepted part of `sendMessage`: the user message and the placeholder get the
        next two ids, the input is cleared and the flag is set. Returns the placeholder's id.
        `BeginSend` shows the new state keeps the invariant, by `AppendExchangeKeepsInvariant`. */
    method AppendExchange(text: string, now: int, later: int) returns (tempId: string)
      modifies this
      ensures
        var userId := DecimalString(old(idCounter));
        && tempId == DecimalString(old(idCounter) + 1)
        && messages == old(messages) + [ChatMessage(userId, User, text, now), ChatMessage(tempId, Assistant, Thinking, later)]
        && input == [] && sending && idCounter == old(idCounter) + 2
    {
      var userId := NextId();
      tempId := NextId();
      messages := messages + [ChatMessage(userId, User, text, now), ChatMessage(tempId, Assistant, Thinking, later)];
      input := [];
      sending := true;
    }

    /** The continuation of `sendMessage` once the request settles: the message carrying the
        placeholder's id gets `PlaceholderContent(outcome)`, and `sending` is reset whatever
        the outcome (the `finally`). It runs only while the request `BeginSend` started is
        pending, with the id that call handed out; the update by id then changes exactly
        the placeholder, the last message. */
    method CompleteSend(tempId: string, outcome: FetchOutcome)
      requires Valid() && sending
      requires tempId == DecimalString(idCounter - 1)
      modifies this`messages, this`sending
      ensures Valid()
      ensures messages == ReplaceContent(old(messages), tempId, PlaceholderContent(outcome))
      ensures var last := |old(messages)| - 1;
        messages == old(messages)[last := old(messages)[last].(content := PlaceholderContent(outcome))]
      ensures !sending
    {
      ReplaceContentOnlyTarget(messages, |messages| - 1, PlaceholderContent(outcome));
      messages := ReplaceContent(messages, tempId, PlaceholderContent(outcome));
      sending := false;
    }

    /** `handleKey`: Enter without Shift sends; any other key, and Shift+Enter (a line break),
        leaves the state alone. */
    method HandleKey(key: string, shift: bool, now: int, later: int) returns (pending: Option<PendingSend>)
      requires Valid()
      modifies this
      ensures Valid()
      ensures (key != "Enter" || shift) ==> pending.None? && unchanged(this)
      ensures key == "Enter" && !shift ==> SendAttempt(pending, now, later)
    {
      if key == "Enter" && !shift {
        pending := BeginSend(now, later);
      } else {
        pending := None;
      }
    }
  }
}
