/**
 Choosing a Codex thread for a request: continue the thread of a cached
 checkpoint, fork it at the saved turn, or start a thread and inject the whole
 history (providers/codex/conversation_registry.go and ChatStream).

 A digest stands for the data it is computed from, so equal digests mean equal
 data. The App Server is the map of its threads: transcripts that grow, with the
 length each recorded turn ended at.
 */
module Lineage {
  import opened Wrappers

  datatype Call = Call(id: string, name: string, arguments: string)

  datatype Message = Message(role: string, content: string, toolCallID: string, calls: seq<Call>)

  const SYSTEM := "system"
  const DEVELOPER := "developer"
  const USER := "user"
  const ASSISTANT := "assistant"
  const TOOL := "tool"

  datatype Request = Request(
    messages: seq<Message>,
    model: string,
    workingDirectory: string,
    sessionID: string,
    sessionHeader: string,
    user: string,
    tools: seq<string>,
    conversation: Option<nat>,
    handled: bool)

  datatype Config = Config(model: string, cwd: string, caching: bool)

  /** What the history hash is taken over. */
  datatype Digest = Digest(scope: string, model: string, cwd: string, messages: seq<Message>, tools: seq<string>)

  datatype Checkpoint = Checkpoint(thread: nat, turn: Option<nat>, historyHash: Digest)

  datatype Key = LineageKey(hash: Digest) | HeadKey(thread: nat) | SessionKey(scope: string)

  datatype Item =
    | TextItem(role: string, text: string)
    | CallItem(call: Call)
    | OutputItem(callID: string, text: string)

  datatype Thread = Thread(instructions: seq<string>, items: seq<Item>, marks: map<nat, nat>)

  /**
   The server's threads, and what the provider remembers about them: `active` are the
   threads a turn runs on, `waiting` those whose turn waits for tool results.
   */
  datatype World = World(
    config: Config,
    threads: map<nat, Thread>,
    nextThread: nat,
    nextTurn: nat,
    cache: map<Key, Checkpoint>,
    loaded: set<nat>,
    active: set<nat>,
    waiting: set<nat>)

  function FirstNonEmpty(a: string, b: string): string {
    if a != "" then a else b
  }

  function Scope(r: Request): string {
    if r.sessionID != "" then r.sessionID else if r.sessionHeader != "" then r.sessionHeader else r.user
  }

  function HistoryHash(config: Config, r: Request, messages: seq<Message>): Digest {
    Digest(
      Scope(r), FirstNonEmpty(r.model, config.model), FirstNonEmpty(r.workingDirectory, config.cwd), messages, r.tools)
  }

  // ------------------------------------------------------- parent of a request

  predicate AnsweredBefore(messages: seq<Message>) {
    exists i :: 0 <= i < |messages| && (messages[i].role == ASSISTANT || messages[i].role == TOOL)
  }

  /** The length of a request without its trailing tool messages. */
  function WithoutTrailingTools(messages: seq<Message>): nat {
    if messages != [] && messages[|messages| - 1].role == TOOL then WithoutTrailingTools(messages[..|messages| - 1])
    else |messages|
  }

  /** The history a request extends, when the request is a new user turn or supplies tool results. */
  function Parent(messages: seq<Message>): Option<seq<Message>> {
    var end := WithoutTrailingTools(messages);
    if end < |messages| then Some(messages[..end])
    else if messages != [] && messages[|messages| - 1].role == USER then Some(messages[..|messages| - 1])
    else None
  }

  lemma {:induction false} TrailingToolsAreTools(messages: seq<Message>)
    ensures WithoutTrailingTools(messages) <= |messages|
    ensures forall i :: WithoutTrailingTools(messages) <= i < |messages| ==> messages[i].role == TOOL
    ensures WithoutTrailingTools(messages) > 0 ==> messages[WithoutTrailingTools(messages) - 1].role != TOOL
  {
    if messages != [] && messages[|messages| - 1].role == TOOL {
      TrailingToolsAreTools(messages[..|messages| - 1]);
    }
  }

  method ConversationParent(messages: seq<Message>) returns (parent: seq<Message>, hasHistory: bool)
    ensures Parent(messages) == None ==> parent == [] && !hasHistory
    ensures Parent(messages).Some? ==> parent == Parent(messages).value && hasHistory == AnsweredBefore(parent)
  {
    var end := |messages|;
    assert messages[..end] == messages;
    while end > 0 && messages[end - 1].role == TOOL
      invariant end <= |messages|
      invariant WithoutTrailingTools(messages[..end]) == WithoutTrailingTools(messages)
    {
      assert messages[..end][..end - 1] == messages[..end - 1];
      end := end - 1;
    }
    assert WithoutTrailingTools(messages) == end;
    if end == |messages| {
      if end == 0 || messages[end - 1].role != USER {
        return [], false;
      }
      end := end - 1;
    }
    parent := messages[..end];
    for i := 0 to |parent|
      invariant !AnsweredBefore(parent[..i])
    {
      if parent[i].role == ASSISTANT || parent[i].role == TOOL {
        return parent, true;
      }
      assert parent[..i + 1] == parent[..i] + [parent[i]];
    }
    assert parent[..|parent|] == parent;
    return parent, false;
  }

  // ----------------------------------------------------------------- transcripts

  function ItemRole(role: string): string {
    if role == ASSISTANT || role == USER then role else USER
  }

  function CallItems(calls: seq<Call>): seq<Item> {
    seq(|calls|, i requires 0 <= i < |calls| => CallItem(calls[i]))
  }

  function MessageItems(m: Message): seq<Item> {
    if m.role == SYSTEM || m.role == DEVELOPER then []
    else if m.role == TOOL then [OutputItem(m.toolCallID, m.content)]
    else (if m.content != "" then [TextItem(ItemRole(m.role), m.content)] else []) + CallItems(m.calls)
  }

  /** The caller-visible transcript of a history: what injecting it into a fresh thread records. */
  function Items(messages: seq<Message>): seq<Item> {
    if messages == [] then [] else MessageItems(messages[0]) + Items(messages[1..])
  }

  function Instructions(messages: seq<Message>): seq<string> {
    if messages == [] then []
    else InstructionsOf(messages[0]) + Instructions(messages[1..])
  }

  function InstructionsOf(m: Message): seq<string> {
    if m.role == SYSTEM || m.role == DEVELOPER then [m.content] else []
  }

  lemma {:induction false} ItemsAppend(a: seq<Message>, b: seq<Message>)
    ensures Items(a + b) == Items(a) + Items(b)
  {
    if a == [] {
      assert a + b == b;
      assert [] + Items(b) == Items(b);
    } else {
      var tail := a[1..];
      assert (a + b)[0] == a[0] && (a + b)[1..] == tail + b;
      ItemsAppend(tail, b);
      assert MessageItems(a[0]) + (Items(tail) + Items(b)) == MessageItems(a[0]) + Items(tail) + Items(b);
    }
  }

  lemma {:induction false} InstructionsAppend(a: seq<Message>, b: seq<Message>)
    ensures Instructions(a + b) == Instructions(a) + Instructions(b)
  {
    if a == [] {
      assert a + b == b;
    } else {
      assert (a + b)[0] == a[0] && (a + b)[1..] == a[1..] + b;
      InstructionsAppend(a[1..], b);
    }
  }

  // ------------------------------------------------------------ kinds of request

  /** A new turn: the last message is the user's. */
  predicate UserTurn(r: Request) {
    r.messages != [] && r.messages[|r.messages| - 1].role == USER
  }

  predicate HasToolResult(messages: seq<Message>) {
    exists i :: 0 <= i < |messages| && messages[i].role == TOOL
  }

  /** The caller supplies the results of calls it was given; calls that have a handler never leave the gateway. */
  predicate Continuation(r: Request) {
    HasToolResult(r.messages) && !r.handled && !UserTurn(r)
  }

  /** What a fresh thread needs before the turn. */
  function History(r: Request): seq<Message> {
    if Continuation(r) || r.messages == [] then r.messages else r.messages[..|r.messages| - 1]
  }

  // --------------------------------------------------------------- thread choice

  /**
   How the server answers the calls one request makes. A waiting turn has `taken` the
   results when each of its calls got one and was answered; it may wait for `more`.
   */
  datatype Outcome = Outcome(
    taken: bool,
    more: bool,
    forkOk: bool,
    toolsOk: bool,
    resumeOk: bool,
    startOk: bool,
    injectOk: bool,
    turnOk: bool,
    answer: string,
    named: bool)

  function Load(w: World, key: Key): Option<Checkpoint> {
    if key in w.cache then Some(w.cache[key]) else None
  }

  /**
   Where a request's checkpoint would be: under its own history if that was answered
   before, else under its session.
   */
  function InferKey(config: Config, r: Request): Option<Key> {
    if r.conversation.Some? || !config.caching then None
    else
      var parent := Parent(r.messages);
      if parent.Some? && AnsweredBefore(parent.value) then Some(LineageKey(HistoryHash(config, r, parent.value)))
      else if Scope(r) != "" then Some(SessionKey(Scope(r)))
      else None
  }

  function Infer(w: World, r: Request): Option<Checkpoint> {
    var key := InferKey(w.config, r);
    if key.Some? then Load(w, key.value) else None
  }

  /** The head entry of the checkpoint's thread, read only when a checkpoint was found. */
  function Head(w: World, found: Option<Checkpoint>): Option<Checkpoint> {
    if found.Some? then Load(w, HeadKey(found.value.thread)) else None
  }

  /** Another turn runs on the checkpoint's thread, or its head has moved on. */
  predicate Advanced(w: World, checkpoint: Checkpoint, head: Option<Checkpoint>) {
    checkpoint.thread in w.active || (head.Some? && head.value.historyHash != checkpoint.historyHash)
  }

  /** thread/fork: a copy of the thread up to the end of a recorded turn. */
  function Forked(t: Thread, turn: nat): Thread
    requires turn in t.marks && t.marks[turn] <= |t.items|
  {
    var kept := map u | u in t.marks && t.marks[u] <= t.marks[turn] :: t.marks[u];
    Thread(t.instructions, t.items[..t.marks[turn]], kept)
  }

  predicate CanFork(w: World, checkpoint: Checkpoint) {
    && checkpoint.thread in w.threads
    && checkpoint.turn.Some?
    && checkpoint.turn.value in w.threads[checkpoint.thread].marks
    && w.threads[checkpoint.thread].marks[checkpoint.turn.value] <= |w.threads[checkpoint.thread].items|
  }

  function AddThread(w: World, t: Thread): World {
    w.(threads := w.threads[w.nextThread := t], loaded := w.loaded + {w.nextThread}, nextThread := w.nextThread + 1)
  }

  /** The thread to continue, if any: the checkpoint's own, or a fork of it. */
  function Resolve(w: World, checkpoint: Checkpoint, head: Option<Checkpoint>, o: Outcome): (World, Option<nat>) {
    if !Advanced(w, checkpoint, head) then (w, Some(checkpoint.thread))
    else if o.forkOk && CanFork(w, checkpoint) then
      (AddThread(w, Forked(w.threads[checkpoint.thread], checkpoint.turn.value)), Some(w.nextThread))
    else (w, None)
  }

  /** Start a thread for the request and inject its history. */
  function Rebuild(w: World, r: Request, o: Outcome): (World, Option<nat>) {
    if !o.startOk then (w, None)
    else if Items(History(r)) != [] && !o.injectOk then
      (AddThread(w, Thread(Instructions(r.messages), [], map[])), None)
    else
      (AddThread(w, Thread(Instructions(r.messages), Items(History(r)), map[])), Some(w.nextThread))
  }

  predicate CanReuse(w: World, thread: nat, o: Outcome) {
    thread in w.loaded || (o.resumeOk && thread in w.threads)
  }

  /** Make a thread of the server usable: as it is when loaded, else by resuming it. */
  function Reuse(w: World, thread: nat, o: Outcome): (World, Option<nat>) {
    if CanReuse(w, thread, o) then (w.(loaded := w.loaded + {thread}), Some(thread)) else (w, None)
  }

  /** A thread that was looked up is reused, or rebuilt when the server no longer has it. */
  function Prepare(w: World, resolved: Option<nat>, r: Request, o: Outcome): (World, Option<nat>) {
    if !o.toolsOk then (w, None)
    else if resolved.Some? && CanReuse(w, resolved.value, o) then Reuse(w, resolved.value, o)
    else Rebuild(w, r, o)
  }

  /** The thread for a request whose lookups found these entries. */
  function ChooseFrom(
    w: World, r: Request, o: Outcome, found: Option<Checkpoint>, head: Option<Checkpoint>
  ): (World, Option<nat>) {
    if Continuation(r) then Prepare(w, None, r, o)
    else if r.conversation.Some? then
      if o.toolsOk then Reuse(w, r.conversation.value, o) else (w, None)
    else if found.None? then Prepare(w, None, r, o)
    else
      var (w', resolved) := Resolve(w, found.value, head, o);
      Prepare(w', resolved, r, o)
  }

  /** The thread a request's turn will run on. */
  function Choose(w: World, r: Request, o: Outcome): (World, Option<nat>) {
    ChooseFrom(w, r, o, Infer(w, r), Head(w, Infer(w, r)))
  }

  function Assistant(answer: string): Message {
    Message(ASSISTANT, answer, "", [])
  }

  /** The checkpoint of a finished turn, under the history the caller will send next. */
  function Saved(config: Config, r: Request, assistant: Message, thread: nat, turn: Option<nat>): Checkpoint {
    Checkpoint(thread, turn, HistoryHash(config, r, r.messages + [assistant]))
  }

  /** A checkpoint is found by its history, as the head of its thread, and by the session if there is one. */
  function Stored(cache: map<Key, Checkpoint>, scope: string, checkpoint: Checkpoint): map<Key, Checkpoint> {
    var stored := cache[LineageKey(checkpoint.historyHash) := checkpoint][HeadKey(checkpoint.thread) := checkpoint];
    if scope != "" then stored[SessionKey(scope) := checkpoint] else stored
  }

  function Save(w: World, r: Request, assistant: Message, thread: nat, turn: Option<nat>): World {
    if !w.config.caching || (assistant.content == "" && assistant.calls == []) then w
    else w.(cache := Stored(w.cache, Scope(r), Saved(w.config, r, assistant, thread, turn)))
  }

  /**
   What a turn's input adds to the transcript the caller knows: the text of the user's
   message, whose tool calls are not sent; nothing in a continuation, where the
   gateway prompts with a text of its own.
   */
  function InputItems(r: Request): seq<Item> {
    if UserTurn(r) && r.messages[|r.messages| - 1].content != "" then
      [TextItem(USER, r.messages[|r.messages| - 1].content)]
    else []
  }

  /** The server runs the turn to completion and records what the caller sees of it. */
  function Record(w: World, r: Request, answer: string, thread: nat): World
    requires thread in w.threads
  {
    var t := w.threads[thread];
    var items := t.items + InputItems(r) + MessageItems(Assistant(answer));
    w.(threads := w.threads[thread := t.(items := items, marks := t.marks[w.nextTurn := |items|])],
       nextTurn := w.nextTurn + 1)
  }

  /** The thread a continuation may go on with: the one it names, or else the one looked up. */
  function ContinuedThread(r: Request, found: Option<Checkpoint>): Option<nat> {
    if r.conversation.Some? then r.conversation else if found.Some? then Some(found.value.thread) else None
  }

  /** A turn on that thread waits for the results of a continuation. */
  predicate Resumes(w: World, r: Request, found: Option<Checkpoint>) {
    var thread := ContinuedThread(r, found);
    Continuation(r) && thread.Some? && thread.value in w.active && thread.value in w.waiting
  }

  /** The results go to the waiting turn, which goes on when they are all it waits for. */
  function Resumed(w: World, thread: nat, o: Outcome): World {
    if o.taken && !o.more then w.(waiting := w.waiting - {thread}) else w
  }

  /** The turn starts on the chosen thread. */
  predicate Runs(w: World, chosen: Option<nat>, o: Outcome) {
    chosen.Some? && chosen.value !in w.active && chosen.value in w.threads && o.turnOk
  }

  /** The turn on the chosen thread, if it can start, and the checkpoint saved when its stream has drained. */
  function Finish(w: World, chosen: Option<nat>, r: Request, o: Outcome): World {
    if !Runs(w, chosen, o) then w
    else
      var turn := if o.named then Some(w.nextTurn) else None;
      Save(Record(w, r, o.answer, chosen.value), r, Assistant(o.answer), chosen.value, turn)
  }

  /** The checkpoint that turn saves. */
  function Checkpointed(w: World, chosen: Option<nat>, r: Request, o: Outcome): Option<Checkpoint> {
    if !Runs(w, chosen, o) || !w.config.caching || o.answer == "" then None
    else
      var turn := if o.named then Some(w.nextTurn) else None;
      Some(Saved(w.config, r, Assistant(o.answer), chosen.value, turn))
  }

  /** A whole request: rejected, handed to a waiting turn, or a turn of its own on a chosen thread. */
  function ServeFrom(
    w: World, r: Request, o: Outcome, found: Option<Checkpoint>, head: Option<Checkpoint>
  ): World {
    if !UserTurn(r) && !Continuation(r) then w
    else if Resumes(w, r, found) then Resumed(w, ContinuedThread(r, found).value, o)
    else
      var (w', chosen) := ChooseFrom(w, r, o, found, head);
      Finish(w', chosen, r, o)
  }

  function Serve(w: World, r: Request, o: Outcome): World {
    ServeFrom(w, r, o, Infer(w, r), Head(w, Infer(w, r)))
  }
}
