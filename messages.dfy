/**
 * The messages router: `create` validates its input, stores a user message
 * and then sends the `code-agent/run` event; `getMany` lists the stored
 * messages by `updatedAt`. The database table and the sent events are
 * sequences; the clock and the failures of the two remote calls are
 * parameters.
 */
module Messages {

  import opened Wrappers
  import opened JsText

  const MaxValueLength: nat := 10000
  const RunEventName: string := "code-agent/run"

  const ValueRequired: string := "Message is required"
  const ValueTooLong: string := "Message is too long"
  const ProjectIdRequired: string := "Project ID is required"

  /**
   * The role and type columns of a message row. `create` writes only `User`
   * and `ResultMessage`; the other values stand for rows written by other
   * code, which `getMany` lists all the same.
   */
  datatype Role = User | Assistant
  datatype MessageType = ResultMessage | ErrorMessage

  /** A row of the message table. */
  datatype Message = Message(projectId: string, content: string, role: Role, kind: MessageType, createdAt: int, updatedAt: int)

  /** The input of `create`. */
  datatype CreateInput = CreateInput(value: string, projectId: string)

  /** An event handed to the event client: its name and its `data`. */
  datatype Event = Event(name: string, value: string, projectId: string)

  /** How a call of `create` ends. */
  datatype CreateOutcome =
    | Created(message: Message)
    | Rejected(issues: seq<string>)
    | StoreFailed(storeError: string)
    | SendFailed(sendError: string)

  /** `value` is non-empty and at most 10000 UTF-16 code units long, and `projectId` is non-empty. */
  predicate Acceptable(input: CreateInput) {
    input.value != [] && Utf16Length(input.value) <= MaxValueLength && input.projectId != []
  }

  /**
   * The issues the input schema reports, in schema order. The input is
   * accepted exactly when `value` is non-empty and at most 10000 UTF-16
   * code units long and `projectId` is non-empty, and each message is
   * reported exactly in its own case.
   */
  function Issues(input: CreateInput): (r: seq<string>)
    ensures r == [] <==> Acceptable(input)
    ensures (ValueRequired in r) <==> input.value == []
    ensures (ValueTooLong in r) <==> Utf16Length(input.value) > MaxValueLength
    ensures (ProjectIdRequired in r) <==> input.projectId == []
  {
    Utf16LengthBounds(input.value);
    Utf16LengthBounds(input.projectId);
    (if Utf16Length(input.value) < 1 then [ValueRequired] else [])
    + (if Utf16Length(input.value) > MaxValueLength then [ValueTooLong] else [])
    + (if Utf16Length(input.projectId) < 1 then [ProjectIdRequired] else [])
  }

  /** An accepted value has at most 10000 characters; one of at most 5000 characters is never too long. */
  lemma ValueLengthInCharacters(input: CreateInput)
    ensures Issues(input) == [] ==> |input.value| <= MaxValueLength
    ensures input.value != [] && input.projectId != [] && |input.value| <= MaxValueLength / 2 ==> Issues(input) == []
  {
    Utf16LengthBounds(input.value);
  }

  /** Messages in non-decreasing `updatedAt` order. */
  predicate Ascending(ms: seq<Message>) {
    forall i :: 0 <= i < |ms| - 1 ==> ms[i].updatedAt <= ms[i + 1].updatedAt
  }

  lemma {:induction false} AscendingPairwise(ms: seq<Message>, i: int, j: int)
    requires Ascending(ms) && 0 <= i <= j < |ms|
    ensures ms[i].updatedAt <= ms[j].updatedAt
    decreases j - i
  {
    if i < j {
      AscendingPairwise(ms, i + 1, j);
    }
  }

  lemma AscendingTail(ms: seq<Message>)
    requires Ascending(ms) && ms != []
    ensures Ascending(ms[1..])
  {
    forall i | 0 <= i < |ms| - 2 ensures ms[1..][i].updatedAt <= ms[1..][i + 1].updatedAt {
      assert ms[1..][i] == ms[i + 1] && ms[1..][i + 1] == ms[i + 2];
    }
  }

  lemma AscendingCons(x: Message, ms: seq<Message>)
    requires Ascending(ms) && (ms != [] ==> x.updatedAt <= ms[0].updatedAt)
    ensures Ascending([x] + ms)
  {
    var r := [x] + ms;
    forall i | 0 <= i < |r| - 1 ensures r[i].updatedAt <= r[i + 1].updatedAt {
      if i > 0 {
        assert r[i] == ms[i - 1] && r[i + 1] == ms[i];
      }
    }
  }

  /** `m` inserted into an ascending list after every message not later than it. */
  function Insert(m: Message, ms: seq<Message>): (r: seq<Message>)
    requires Ascending(ms)
    ensures Ascending(r) && multiset(r) == multiset(ms) + multiset{m}
    ensures r[0] == m || (ms != [] && r[0] == ms[0])
  {
    if ms == [] then [m]
    else if m.updatedAt < ms[0].updatedAt then
      AscendingCons(m, ms);
      [m] + ms
    else
      AscendingTail(ms);
      var rest := Insert(m, ms[1..]);
      assert ms == [ms[0]] + ms[1..];
      assert |ms| > 1 ==> ms[1..][0] == ms[1];
      AscendingCons(ms[0], rest);
      [ms[0]] + rest
  }

  /** The messages ordered by `updatedAt`, ties kept in table order. */
  function SortByUpdatedAt(ms: seq<Message>): (r: seq<Message>)
    ensures Ascending(r) && multiset(r) == multiset(ms)
  {
    if ms == [] then []
    else
      assert ms == ms[..|ms| - 1] + [ms[|ms| - 1]];
      Insert(ms[|ms| - 1], SortByUpdatedAt(ms[..|ms| - 1]))
  }

  /** Some stored message carries the event's content and project. */
  predicate Backed(e: Event, ms: seq<Message>) {
    exists j :: 0 <= j < |ms| && ms[j].content == e.value && ms[j].projectId == e.projectId
  }

  /** The message table and the events sent so far. */
  class MessagesRouter {
    var messages: seq<Message>
    var sent: seq<Event>

    /**
     * Every stored message passed validation, and every event sent has
     * its message stored: a message is always written before its event.
     */
    ghost predicate Valid()
      reads this
    {
      && (forall j :: 0 <= j < |messages| ==> Acceptable(CreateInput(messages[j].content, messages[j].projectId)))
      && (forall i :: 0 <= i < |sent| ==> sent[i].name == RunEventName && Backed(sent[i], messages))
    }

    constructor ()
      ensures Valid() && messages == [] && sent == []
    {
      messages, sent := [], [];
    }

    /**
     * The `create` mutation. Rejected input stores nothing and sends
     * nothing. Otherwise the message is stored first, and if storing fails
     * nothing is sent; the event goes out only after the message is stored,
     * so a failing send leaves the stored message in place.
     */
    method Create(input: CreateInput, now: int, storeFault: Option<string>, sendFault: Option<string>) returns (r: CreateOutcome)
      requires Valid()
      modifies this
      ensures Valid()
      ensures Issues(input) != [] ==> r == Rejected(Issues(input))
      ensures Issues(input) != [] || storeFault.Some? ==> messages == old(messages) && sent == old(sent)
      ensures Issues(input) == [] && storeFault.Some? ==> r == StoreFailed(storeFault.value)
      ensures Issues(input) == [] && storeFault.None? ==>
        messages == old(messages) + [Message(input.projectId, input.value, User, ResultMessage, now, now)]
      ensures Issues(input) == [] && storeFault.None? && sendFault.Some? ==>
        r == SendFailed(sendFault.value) && sent == old(sent)
      ensures Issues(input) == [] && storeFault.None? && sendFault.None? ==>
        r == Created(messages[|messages| - 1]) && sent == old(sent) + [Event(RunEventName, input.value, input.projectId)]
    {
      var issues := Issues(input);
      if issues != [] {
        return Rejected(issues);
      }
      if storeFault.Some? {
        return StoreFailed(storeFault.value);
      }
      var created := Message(input.projectId, input.value, User, ResultMessage, now, now);
      ghost var before := messages;
      messages := messages + [created];
      forall i | 0 <= i < |sent| ensures Backed(sent[i], messages) {
        var j :| 0 <= j < |before| && before[j].content == sent[i].value && before[j].projectId == sent[i].projectId;
        assert messages[j] == before[j];
      }
      assert messages[|messages| - 1] == created;
      if sendFault.Some? {
        return SendFailed(sendFault.value);
      }
      sent := sent + [Event(RunEventName, input.value, input.projectId)];
      r := Created(created);
    }

    /** The `getMany` query: every stored message, by `updatedAt` ascending. */
    method GetMany() returns (r: seq<Message>)
      ensures multiset(r) == multiset(messages)
      ensures forall i, j :: 0 <= i <= j < |r| ==> r[i].updatedAt <= r[j].updatedAt
    {
      r := SortByUpdatedAt(messages);
      forall i, j | 0 <= i <= j < |r| ensures r[i].updatedAt <= r[j].updatedAt {
        AscendingPairwise(r, i, j);
      }
    }
  }
}
