/** Chat messages, the pairing rules the chat API enforces on tool calls
    (_docs/openai/05-tool-calling.md), and the expansion of a stored history into messages
    (messages and toolCallMessage in llm/model/brain.go). */
module Transcripts {
  import opened CircularQueues
  import opened Collections

  // ---- memories and messages -----------------------------------------------------

  datatype ToolCall = ToolCall(id: string, name: string, arguments: string, result: string)

  datatype Identity = NoOne | Self | Other

  datatype Memory = Memory(createdAt: nat, involves: seq<string>, content: string, owner: Identity, toolCalls: seq<ToolCall>)

  /** A call as an assistant message carries it, without its result. */
  datatype Request = Request(id: string, name: string, arguments: string)

  datatype Message =
    | System(content: string)
    | User(content: string)
    | Assistant(content: string)
    | AssistantCalls(content: string, calls: seq<Request>)
    | Tool(content: string, id: string)

  // ---- the API's rules -----------------------------------------------------------

  /** Tool messages that answer these calls one for one, in order and by id. */
  predicate Replies(tools: seq<Message>, calls: seq<Request>) {
    && |tools| == |calls|
    && forall k :: 0 <= k < |tools| ==> tools[k].Tool? && tools[k].id == calls[k].id
  }

  /** The calls of the assistant message at i are answered at once, before anything else. */
  predicate Answered(ms: seq<Message>, i: nat)
    requires i < |ms|
  {
    ms[i].AssistantCalls? ==>
      && 0 < |ms[i].calls| < |ms| - i
      && Replies(ms[i + 1..i + 1 + |ms[i].calls|], ms[i].calls)
  }

  /** The tool message at k answers a call of the assistant message at i. */
  predicate Answers(ms: seq<Message>, k: nat, i: nat)
    requires k < |ms|
  {
    i < k && ms[i].AssistantCalls? && k - i <= |ms[i].calls|
  }

  predicate WellFormed(ms: seq<Message>) {
    && (forall i :: 0 <= i < |ms| ==> Answered(ms, i))
    && (forall k :: 0 <= k < |ms| && ms[k].Tool? ==> exists i :: 0 <= i < k && Answers(ms, k, i))
  }

  lemma JoinAnswered(a: seq<Message>, b: seq<Message>, i: nat)
    requires i < |a + b| && if i < |a| then Answered(a, i) else Answered(b, i - |a|)
    ensures Answered(a + b, i)
  {
    var ms := a + b;
    if ms[i].AssistantCalls? {
      var end := i + 1 + |ms[i].calls|;
      assert ms[i + 1..end] == if i < |a| then a[i + 1..end] else b[i + 1 - |a|..end - |a|];
    }
  }

  lemma JoinWellFormed(a: seq<Message>, b: seq<Message>)
    requires WellFormed(a) && WellFormed(b)
    ensures WellFormed(a + b)
  {
    var ms := a + b;
    forall i | 0 <= i < |ms|
      ensures Answered(ms, i)
    {
      JoinAnswered(a, b, i);
    }
    forall k | 0 <= k < |ms| && ms[k].Tool?
      ensures exists i :: 0 <= i < k && Answers(ms, k, i)
    {
      if k < |a| {
        var i :| 0 <= i < k && Answers(a, k, i);
        assert Answers(ms, k, i);
      } else {
        var i :| 0 <= i < k - |a| && Answers(b, k - |a|, i);
        assert Answers(ms, k, i + |a|);
      }
    }
  }

  // ---- one round of calls --------------------------------------------------------

  function Requests(calls: seq<ToolCall>): (r: seq<Request>)
    ensures |r| == |calls|
  {
    seq(|calls|, i requires 0 <= i < |calls| => Request(calls[i].id, calls[i].name, calls[i].arguments))
  }

  function Results(calls: seq<ToolCall>): (r: seq<Message>)
    ensures |r| == |calls|
  {
    seq(|calls|, i requires 0 <= i < |calls| => Tool(calls[i].result, calls[i].id))
  }

  /** The assistant message that made some calls, then their results. */
  function Round(content: string, calls: seq<ToolCall>): seq<Message> {
    if calls == [] then [] else [AssistantCalls(content, Requests(calls))] + Results(calls)
  }

  /** A message with this text that makes exactly these calls. */
  predicate Makes(m: Message, content: string, calls: seq<ToolCall>) {
    && m.AssistantCalls? && m.content == content && |m.calls| == |calls|
    && forall i :: 0 <= i < |calls| ==> m.calls[i] == Request(calls[i].id, calls[i].name, calls[i].arguments)
  }

  /** Their results, each under its call's id. */
  predicate Yields(ms: seq<Message>, calls: seq<ToolCall>) {
    |ms| == |calls| && forall i :: 0 <= i < |calls| ==> ms[i] == Tool(calls[i].result, calls[i].id)
  }

  lemma RoundIs(content: string, calls: seq<ToolCall>)
    requires calls != []
    ensures var ms := Round(content, calls);
            |ms| == 1 + |calls| && Makes(ms[0], content, calls) && Yields(ms[1..], calls)
  {
    assert Makes(AssistantCalls(content, Requests(calls)), content, calls);
    assert Yields(Results(calls), calls);
    hide Makes, Yields, Requests, Results;
    assert Round(content, calls)[1..] == Results(calls);
  }

  lemma RoundWellFormed(content: string, calls: seq<ToolCall>)
    ensures WellFormed(Round(content, calls))
  {
    var ms := Round(content, calls);
    assert calls != [] ==> ms[1..1 + |calls|] == Results(calls);
    forall k | 0 <= k < |ms| && ms[k].Tool?
      ensures exists i :: 0 <= i < k && Answers(ms, k, i)
    {
      assert Answers(ms, k, 0);
    }
  }

  // ---- a history as messages -----------------------------------------------------

  function Named(prefix: string, m: Memory): string {
    if |m.involves| > 0 then prefix + m.involves[0] + ": " + m.content else m.content
  }

  /** One memory: a reply that used tools is told as a round of calls and what came of each, and last itself. */
  function Expand(m: Memory): seq<Message> {
    if m.owner.Self? then Round("", m.toolCalls) + [Assistant(m.content)] else [User(Named("", m))]
  }

  function ExpandAll(history: seq<Memory>): seq<Message> {
    if history == [] then [] else ExpandAll(history[..|history| - 1]) + Expand(history[|history| - 1])
  }

  function Notes(notes: seq<Memory>): (r: seq<Message>)
    ensures |r| == |notes|
  {
    seq(|notes|, i requires 0 <= i < |notes| => System(Named("note about: ", notes[i])))
  }

  /** The messages a model is sent: the prompt, the notes, and every memory from the oldest on. */
  function MessagesOf(system: Option<string>, notes: seq<Memory>, history: seq<Memory>): seq<Message> {
    (if system.Some? then [System(system.value)] else []) + Notes(notes) + ExpandAll(history)
  }

  /** toolCallMessage. */
  method ToolCallMessage(toolCalls: seq<ToolCall>) returns (m: Message)
    ensures m == AssistantCalls("", Requests(toolCalls))
    ensures Makes(m, "", toolCalls)
  {
    var calls: seq<Request> := [];
    for i := 0 to |toolCalls|
      invariant calls == Requests(toolCalls)[..i]
    {
      calls := calls + [Request(toolCalls[i].id, toolCalls[i].name, toolCalls[i].arguments)];
    }
    return AssistantCalls("", calls);
  }

  /** The body of the loop over the history. */
  method AppendMemory(before: seq<Message>, m: Memory) returns (out: seq<Message>)
    ensures out == before + Expand(m)
  {
    out := before;
    if m.owner.Self? {
      if |m.toolCalls| > 0 {
        var call := ToolCallMessage(m.toolCalls);
        out := out + [call];
        for j := 0 to |m.toolCalls|
          invariant out == before + [call] + Results(m.toolCalls)[..j]
        {
          out := out + [Tool(m.toolCalls[j].result, m.toolCalls[j].id)];
        }
        assert out == before + Round("", m.toolCalls);
      }
      return out + [Assistant(m.content)];
    }
    var content := m.content;
    if |m.involves| > 0 {
      content := m.involves[0] + ": " + content;
    }
    assert |m.involves| > 0 ==> content == "" + m.involves[0] + ": " + m.content;
    return out + [User(content)];
  }

  /** messages. */
  method Messages(system: Option<string>, notes: seq<Memory>, history: seq<Memory>) returns (out: seq<Message>)
    ensures out == MessagesOf(system, notes, history)
    ensures WellFormed(out)
    // what was said reaches the model, one message a memory
    ensures ConveysAll(Filter(out, WORDS), history)
    // before it come the prompt and one message a note, and no others from the system
    ensures var first := (if system.Some? then 1 else 0) + |notes|;
            && first <= |out| && Filter(out, ORDERS) == out[..first]
            && (system.Some? ==> out[0] == System(system.value))
            && InstructsAll(out[first - |notes|..first], notes)
  {
    hide Expand, WellFormed, ConveysAll, InstructsAll, ExpandAll, Filter;
    assert ExpandAll(history[..0]) == [] by { NothingExpanded(); }
    out := [];
    if system.Some? {
      out := out + [System(system.value)];
    }
    ghost var prompt := out;
    for i := 0 to |notes|
      invariant out == prompt + Notes(notes)[..i]
    {
      var content := notes[i].content;
      if |notes[i].involves| > 0 {
        content := "note about: " + notes[i].involves[0] + ": " + content;
      }
      out := out + [System(content)];
    }
    ghost var before := out;
    for i := 0 to |history|
      invariant out == before + ExpandAll(history[..i])
    {
      out := AppendMemory(out, history[i]);
      ExpandOneMore(history[..i], history[i]);
      assert history[..i + 1] == history[..i] + [history[i]];
    }
    assert history[..|history|] == history;
    assert out == MessagesOf(system, notes, history);
    hide MessagesOf, Notes;
    HistoryWellFormed(system, notes, history);
    WordsAreTheHistory(system, notes, history);
    OrdersComeFirst(system, notes, history);
  }

  lemma {:induction false} ExpandAllWellFormed(history: seq<Memory>)
    ensures WellFormed(ExpandAll(history))
  {
    if history != [] {
      var m := history[|history| - 1];
      ExpandAllWellFormed(history[..|history| - 1]);
      RoundWellFormed("", m.toolCalls);
      JoinWellFormed(Round("", m.toolCalls), [Assistant(m.content)]);
      JoinWellFormed(ExpandAll(history[..|history| - 1]), Expand(m));
    }
  }

  /** Any history at all expands to messages the API accepts. Since a reply's calls and results live
      in one memory, no eviction can orphan a result. */
  lemma HistoryWellFormed(system: Option<string>, notes: seq<Memory>, history: seq<Memory>)
    ensures WellFormed(MessagesOf(system, notes, history))
  {
    ExpandAllWellFormed(history);
    JoinWellFormed((if system.Some? then [System(system.value)] else []) + Notes(notes), ExpandAll(history));
  }

  // ---- what was said reaches the model -------------------------------------------

  /** What somebody said, as opposed to instructions and to calls and their results. */
  const WORDS := (m: Message) => m.User? || m.Assistant?

  const ORDERS := (m: Message) => m.System?

  /** A message in which a memory's text reaches the model: as it is for the bot's own, after the name of
      whoever said it for anybody else's. */
  predicate Conveys(m: Message, of: Memory) {
    if of.owner.Self? then m.Assistant? && m.content == of.content
    else m.User? && m.content == (if of.involves == [] then "" else of.involves[0] + ": ") + of.content
  }

  predicate Instructs(m: Message, note: Memory) {
    m.System? && m.content == (if note.involves == [] then "" else "note about: " + note.involves[0] + ": ") + note.content
  }

  predicate ConveysAll(words: seq<Message>, history: seq<Memory>) {
    |words| == |history| && forall i :: 0 <= i < |history| ==> Conveys(words[i], history[i])
  }

  predicate InstructsAll(orders: seq<Message>, notes: seq<Memory>) {
    |orders| == |notes| && forall i :: 0 <= i < |notes| ==> Instructs(orders[i], notes[i])
  }

  /** Memories that differ only in their text never make the same message. */
  lemma TextIsKept(m: Message, a: Memory, b: Memory)
    requires a.owner == b.owner && a.involves == b.involves
    ensures Conveys(m, a) && Conveys(m, b) ==> a.content == b.content
    ensures Instructs(m, a) && Instructs(m, b) ==> a.content == b.content
  {
    var name := if a.involves == [] then "" else a.involves[0] + ": ";
    var about := if a.involves == [] then "" else "note about: " + a.involves[0] + ": ";
    assert (name + a.content)[|name|..] == a.content && (name + b.content)[|name|..] == b.content;
    assert (about + a.content)[|about|..] == a.content && (about + b.content)[|about|..] == b.content;
  }

  lemma NothingExpanded()
    ensures ExpandAll([]) == []
  {
  }

  lemma ExpandOneMore(history: seq<Memory>, m: Memory)
    ensures ExpandAll(history + [m]) == ExpandAll(history) + Expand(m)
  {
    assert (history + [m])[..|history|] == history;
  }

  /** One memory is its calls and their results, in order, and then its text. */
  lemma MemoryIsToldInOrder(m: Memory)
    ensures var ms := Expand(m);
            && ms != [] && Conveys(ms[|ms| - 1], m)
            && (forall k :: 0 <= k < |ms| - 1 ==> ms[k].AssistantCalls? || ms[k].Tool?)
            && Told(ms) == if m.owner.Self? then Deeds(m.toolCalls) else []
  {
    if m.owner.Self? {
      RoundTells("", m.toolCalls, [Assistant(m.content)]);
      assert Told([Assistant(m.content)]) == [];
    } else {
      assert Named("", m) == (if m.involves == [] then "" else m.involves[0] + ": ") + m.content;
    }
  }

  /** A longer history only adds its last memory's messages, at the end. */
  lemma OneMoreMemory(system: Option<string>, notes: seq<Memory>, history: seq<Memory>, m: Memory)
    ensures MessagesOf(system, notes, history + [m]) == MessagesOf(system, notes, history) + Expand(m)
  {
    ExpandOneMore(history, m);
    hide Expand, ExpandAll;
  }

  lemma WordsOfOne(m: Memory)
    ensures var ms := Expand(m);
            ms != [] && Filter(ms, WORDS) == [ms[|ms| - 1]] && Conveys(ms[|ms| - 1], m) && Filter(ms, ORDERS) == []
  {
    MemoryIsToldInOrder(m);
    hide Expand, Told;
    var ms := Expand(m);
    FilterNone(ms[..|ms| - 1], WORDS);
    FilterNone(ms, ORDERS);
  }

  lemma ConveysOneMore(words: seq<Message>, history: seq<Memory>, word: Message, m: Memory)
    requires ConveysAll(words, history) && Conveys(word, m)
    ensures ConveysAll(words + [word], history + [m])
  {
    hide Conveys;
  }

  lemma {:induction false} ExpandedWords(history: seq<Memory>)
    ensures ConveysAll(Filter(ExpandAll(history), WORDS), history)
    ensures Filter(ExpandAll(history), ORDERS) == []
  {
    if history == [] {
      hide Conveys, Expand;
    } else {
      hide *;
      var init, m := history[..|history| - 1], history[|history| - 1];
      var ms := Expand(m);
      ExpandedWords(init);
      WordsOfOne(m);
      assert init + [m] == history;
      ExpandOneMore(init, m);
      FilterJoin(ExpandAll(init), ms, WORDS);
      FilterJoin(ExpandAll(init), ms, ORDERS);
      ConveysOneMore(Filter(ExpandAll(init), WORDS), init, ms[|ms| - 1], m);
    }
  }

  function Orders(system: Option<string>, notes: seq<Memory>): seq<Message> {
    (if system.Some? then [System(system.value)] else []) + Notes(notes)
  }

  lemma OrdersAre(system: Option<string>, notes: seq<Memory>)
    ensures var orders := Orders(system, notes);
            && |orders| == (if system.Some? then 1 else 0) + |notes|
            && Filter(orders, WORDS) == [] && Filter(orders, ORDERS) == orders
            && (system.Some? ==> orders[0] == System(system.value))
            && orders[|orders| - |notes|..] == Notes(notes)
  {
    var orders := Orders(system, notes);
    assert forall i :: 0 <= i < |orders| ==> orders[i].System?;
    hide Notes;
    FilterAll(orders, ORDERS);
    FilterNone(orders, WORDS);
    hide Filter;
  }

  lemma NotesInstruct(notes: seq<Memory>)
    ensures InstructsAll(Notes(notes), notes)
  {
    forall i | 0 <= i < |notes| ensures Instructs(Notes(notes)[i], notes[i]) {
      assert Named("note about: ", notes[i])
             == (if notes[i].involves == [] then "" else "note about: " + notes[i].involves[0] + ": ") + notes[i].content;
    }
  }

  lemma WordsAreTheHistory(system: Option<string>, notes: seq<Memory>, history: seq<Memory>)
    ensures ConveysAll(Filter(MessagesOf(system, notes, history), WORDS), history)
  {
    ExpandedWords(history);
    var orders := Orders(system, notes);
    OrdersAre(system, notes);
    FilterJoin(orders, ExpandAll(history), WORDS);
    assert MessagesOf(system, notes, history) == orders + ExpandAll(history);
    hide *;
    assert [] + Filter(ExpandAll(history), WORDS) == Filter(ExpandAll(history), WORDS);
  }

  lemma OrdersComeFirst(system: Option<string>, notes: seq<Memory>, history: seq<Memory>)
    ensures var out, first := MessagesOf(system, notes, history), (if system.Some? then 1 else 0) + |notes|;
            && first <= |out| && Filter(out, ORDERS) == out[..first]
            && (system.Some? ==> out[0] == System(system.value))
            && InstructsAll(out[first - |notes|..first], notes)
  {
    var orders := Orders(system, notes);
    ExpandedWords(history);
    OrdersAre(system, notes);
    NotesInstruct(notes);
    FilterJoin(orders, ExpandAll(history), ORDERS);
    assert MessagesOf(system, notes, history) == orders + ExpandAll(history);
    hide *;
    assert (orders + ExpandAll(history))[|orders| - |notes|..|orders|] == orders[|orders| - |notes|..];
    assert (orders + ExpandAll(history))[..|orders|] == orders;
  }

  // ---- what a transcript says was done -------------------------------------------

  /** A call and its result, without the id that pairs them. */
  datatype Deed = Deed(name: string, arguments: string, result: string)

  function Deeds(calls: seq<ToolCall>): (r: seq<Deed>)
    ensures |r| == |calls|
  {
    seq(|calls|, i requires 0 <= i < |calls| => Deed(calls[i].name, calls[i].arguments, calls[i].result))
  }

  function Paired(calls: seq<Request>, tools: seq<Message>): (r: seq<Deed>)
    requires |calls| == |tools|
    ensures |r| == |calls|
  {
    seq(|calls|, i requires 0 <= i < |calls| => Deed(calls[i].name, calls[i].arguments, tools[i].content))
  }

  /** Read off the messages: each assistant message's calls, paired with the messages after it. */
  function Told(ms: seq<Message>): seq<Deed>
    decreases |ms|
  {
    if ms == [] then []
    else if !ms[0].AssistantCalls? || |ms| <= |ms[0].calls| then Told(ms[1..])
    else
      var end := 1 + |ms[0].calls|;
      Paired(ms[0].calls, ms[1..end]) + Told(ms[end..])
  }

  /** What a round tells is what was executed, in order, whatever follows it. */
  lemma RoundTells(content: string, calls: seq<ToolCall>, rest: seq<Message>)
    ensures Told(Round(content, calls) + rest) == Deeds(calls) + Told(rest)
  {
    var ms := Round(content, calls) + rest;
    if calls == [] {
      assert ms == rest;
    } else {
      assert ms[1..1 + |calls|] == Results(calls);
      assert ms[1 + |calls|..] == rest;
      assert Paired(Requests(calls), Results(calls)) == Deeds(calls);
    }
  }
}
