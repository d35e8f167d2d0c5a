/**
 * The turn controller of `src/agent/agent.js` (`handleMessage` and the stray
 * command pass `ExtractCommandLLM`) as functions over the agent's state.
 *
 * Every external call is an input. The command registry
 * (`containsCommand`, `commandExists`, `truncCommandMessage`, `isAction`) and
 * `JSON.parse` are uninterpreted functions. The answers of the language model,
 * the safety model, the extraction model, the command executor and the
 * self-prompter's `shouldInterrupt` are functions of the position the call
 * takes in the agent's call log `calls`, so each run of the program is
 * described by some choice of `Env`. The log records every call to the
 * outside world, in order, so properties about what ran when can be stated
 * over it.
 *
 * A JavaScript value that is `null`, `undefined` or the empty string is
 * falsy; strings stand for all of them with `""`.
 */
module Turns {
  import opened Text
  import opened Safety

  const SYSTEM := "system"
  const NEW_ACTION := "!newAction"
  const STOP_SELF_PROMPT := "!stopSelfPrompt"

  /** One history entry: who said it and what. */
  datatype Turn = Turn(source: string, text: string)

  /** One interaction with the outside world, as it appears in the call log. */
  datatype Call =
    | CheckInterrupt(selfPrompt: bool, raised: bool)   // self_prompter.shouldInterrupt(self_prompt)
    | Prompt(history: seq<Turn>)                       // prompter.promptConvo(history)
    | Scripted(answer: string)                         // the next script answer, in script mode
    | UserPromptedCmd(selfPrompt: bool, isAction: bool) // self_prompter.handleUserPromptedCmd
    | Evaluate(command: string, safe: bool)            // evaluateCommand and its verdict
    | Chat(text: string)                               // bot.chat of a notice or of a reply
    | Execute(command: string, result: string)         // executeCommand and what it returned
    | Extract(message: string)                         // the extraction model request
    | Dispatch(command: string)                        // bot.chat of an extracted slash command
    | Save(history: seq<Turn>)                         // history.save()
    | Finished                                         // bot.emit('finished_executing')
    | StopSelfPrompter                                 // self_prompter.stop(false)

  /** The collaborators of the turn controller. */
  datatype Env = Env(
    containsCommand: string -> string,
    commandExists: string -> bool,
    truncCommandMessage: string -> string,
    isAction: string -> bool,
    shouldInterrupt: nat -> bool,
    promptConvo: nat -> string,
    safetyModel: nat -> ModelReply,
    executeCommand: nat -> string,
    extractionModel: nat -> ModelReply,
    parseJson: string -> Json,
    // the most iterations an unbounded loop is followed for
    horizon: nat)

  /** The agent fields and settings `handleMessage` reads but does not write. */
  datatype Setup = Setup(
    name: string,
    maxCommands: int,
    shutUp: bool,
    selfPromptOn: bool,
    scriptMode: bool,
    scriptAnswers: seq<string>,
    env: Env)

  /** What `handleMessage` changes: the history, the script cursor and the call log. */
  datatype State = State(history: seq<Turn>, scriptIndex: nat, calls: seq<Call>)

  predicate Ready(c: Setup, st: State) {
    st.scriptIndex < |c.scriptAnswers|
  }

  // ---------------------------------------------------------------- cleanChat

  /** `cleanChat`'s text: every newline becomes two spaces, so one reply is one chat line. */
  function CleanChat(message: string): (r: string)
    ensures '\n' !in r
    ensures |r| >= |message|
    ensures '\n' !in message ==> r == message
  {
    if message == [] then []
    else (if message[0] == '\n' then "  " else [message[0]]) + CleanChat(message[1..])
  }

  /** `cleanChat` works character by character: a newline becomes two spaces, anything else stays. */
  lemma CleanChatChar(ch: char)
    ensures CleanChat([ch]) == if ch == '\n' then "  " else [ch]
  {
    assert [ch][1..] == [];
  }

  /** ... and in order: the text of a concatenation is the concatenation of the texts. */
  lemma {:induction false} CleanChatAppend(a: string, b: string)
    ensures CleanChat(a + b) == CleanChat(a) + CleanChat(b)
    decreases |a|
  {
    if a == [] {
      assert a + b == b;
    } else {
      assert (a + b)[0] == a[0] && (a + b)[1..] == a[1..] + b;
      CleanChatAppend(a[1..], b);
    }
  }

  // ---------------------------------------------------------------- the call log

  predicate IsAction(e: Call) {
    e.Execute? || e.Dispatch?
  }

  function ActionText(e: Call): string
    requires IsAction(e)
  {
    e.command
  }

  /**
   * The log `before` ends with a SAFE verdict for `command`, possibly
   * followed by chat lines only: nothing else happened since that verdict.
   */
  predicate Gated(before: seq<Call>, command: string)
    decreases |before|
  {
    |before| > 0 &&
    match before[|before| - 1]
    case Evaluate(t, safe) => t == command && safe
    case Chat(_) => Gated(before[..|before| - 1], command)
    case _ => false
  }

  /**
   * Nothing was executed or dispatched without a SAFE verdict on the same
   * text in the same step. Defined entry by entry from the end of the log;
   * `TurnProperties.SafeLogMeans` gives the equivalent statement over all
   * positions.
   */
  predicate SafeLog(calls: seq<Call>)
    decreases |calls|
  {
    calls == [] ||
    (SafeLog(calls[..|calls| - 1]) &&
     (IsAction(calls[|calls| - 1]) ==> Gated(calls[..|calls| - 1], ActionText(calls[|calls| - 1]))))
  }

  /** A reply taken by the response loop: the language model's, or a scripted one. */
  predicate IsReply(e: Call) {
    e.Prompt? || e.Scripted?
  }

  /** How many replies, from the language model or the script, the log records. */
  function Replies(calls: seq<Call>): nat
    decreases |calls|
  {
    if calls == [] then 0
    else Replies(calls[..|calls| - 1]) + (if IsReply(calls[|calls| - 1]) then 1 else 0)
  }

  /** How many command executions the log records. */
  function Executions(calls: seq<Call>): nat
    decreases |calls|
  {
    if calls == [] then 0
    else Executions(calls[..|calls| - 1]) + (if calls[|calls| - 1].Execute? then 1 else 0)
  }

  // ---------------------------------------------------------------- stray commands

  /**
   * The loop of `ExtractCommandLLM` over the parsed list: each string that
   * starts with '/' gets its own verdict and is dispatched only when SAFE;
   * every other element is skipped.
   */
  function VetCommands(env: Env, items: seq<Json>, calls: seq<Call>): seq<Call>
    decreases |items|
  {
    if items == [] then calls
    else VetCommands(env, items[1..], VetItem(env, items[0], calls))
  }

  /** One element of that loop. */
  function VetItem(env: Env, item: Json, calls: seq<Call>): seq<Call> {
    if IsSlashCommand(item) then
      var safe := Verdict(env.safetyModel(|calls|));
      calls + [Evaluate(item.s, safe)] + (if safe then [Dispatch(item.s)] else [])
    else calls
  }

  /**
   * `ExtractCommandLLM(message)`: ask the extraction model, cut out the
   * payload, parse it, and vet the elements of a list. A failed call, a
   * missing closing tag, a parse error or a non-list dispatches nothing.
   */
  function ExtractCalls(env: Env, message: string, calls: seq<Call>): seq<Call> {
    var calls1 := calls + [Extract(message)];
    match env.extractionModel(|calls|)
    case Failed => calls1
    case Answer(content) =>
      match AnswerPayload(content)
      case None => calls1
      case Some(json) =>
        match env.parseJson(json)
        case JArray(items) => VetCommands(env, items, calls1)
        case _ => calls1
  }

  // ---------------------------------------------------------------- one iteration

  datatype Fetched = Fetched(reply: string, st: State)

  /** The next reply: the next scripted answer (cycling) in script mode, else the language model's. */
  function Fetch(c: Setup, st: State): (f: Fetched)
    requires Ready(c, st)
    ensures Ready(c, f.st)
    ensures f.st.history == st.history
    ensures f.st.calls == st.calls + [if c.scriptMode then Scripted(f.reply) else Prompt(st.history)]
  {
    if c.scriptMode then
      Fetched(c.scriptAnswers[st.scriptIndex],
              State(st.history, (st.scriptIndex + 1) % |c.scriptAnswers|,
                    st.calls + [Scripted(c.scriptAnswers[st.scriptIndex])]))
    else
      Fetched(c.env.promptConvo(|st.calls|), st.(calls := st.calls + [Prompt(st.history)]))
  }

  /** How an iteration ends: `continue` (Skip), falling through to `history.save()` (Proceed), or `break` (Stop). */
  datatype Flow = Skip | Proceed | Stop

  datatype Step = Step(st: State, flow: Flow, executed: bool)

  function UnknownNote(name: string): string { "Command " + name + " does not exist." }
  const STOP_REFUSED_NOTE := "Cannot stopSelfPrompt unless requested by user."
  function UnsafeNote(name: string): string { "Command " + name + " was deemed unsafe and will not be executed." }

  /** The body of the response loop after the reply is in hand. */
  function Respond(c: Setup, selfPrompt: bool, st: State, reply: string): Step {
    var name := c.env.containsCommand(reply);
    if name == "" then
      // a conversational reply ends the loop after the stray command pass
      Step(State(st.history + [Turn(c.name, reply)], st.scriptIndex,
                 ExtractCalls(c.env, reply, st.calls)), Stop, false)
    else
      var text := c.env.truncCommandMessage(reply);
      var history := st.history + [Turn(c.name, text)];
      if !c.env.commandExists(name) then
        Step(st.(history := history + [Turn(SYSTEM, UnknownNote(name))]), Skip, false)
      else if name == STOP_SELF_PROMPT && selfPrompt then
        Step(st.(history := history + [Turn(SYSTEM, STOP_REFUSED_NOTE)]), Skip, false)
      else
        var raised := c.env.shouldInterrupt(|st.calls|);
        var calls1 := st.calls + [CheckInterrupt(selfPrompt, raised)];
        if raised || c.shutUp then
          Step(State(history, st.scriptIndex, calls1), Stop, false)
        else
          var calls2 := calls1 + [UserPromptedCmd(selfPrompt, c.env.isAction(name))];
          var safe := Verdict(c.env.safetyModel(|calls2|));
          var calls3 := calls2 + [Evaluate(text, safe)];
          if !safe then
            Step(State(history + [Turn(SYSTEM, UnsafeNote(name))], st.scriptIndex, calls3), Skip, false)
          else
            // verbose or not, the whole reply is chatted before it runs
            var calls4 := calls3 + [Chat(CleanChat(text))];
            var result := c.env.executeCommand(|calls4|);
            var calls5 := calls4 + [Execute(text, result)];
            if result != "" then
              Step(State(history + [Turn(SYSTEM, result)], st.scriptIndex, calls5), Proceed, true)
            else
              Step(State(history, st.scriptIndex, calls5), Stop, true)
  }

  /** One iteration of the response loop: interrupt check, reply, response. */
  function Iterate(c: Setup, selfPrompt: bool, st: State): (s: Step)
    requires Ready(c, st)
    ensures Ready(c, s.st)
  {
    var raised := c.env.shouldInterrupt(|st.calls|);
    var st1 := st.(calls := st.calls + [CheckInterrupt(selfPrompt, raised)]);
    if raised || c.shutUp then Step(st1, Stop, false)
    else
      var f := Fetch(c, st1);
      Respond(c, selfPrompt, f.st, f.reply)
  }

  // ---------------------------------------------------------------- the loop

  datatype Outcome = Outcome(st: State, used: bool)

  /** The state the next iteration starts from: an iteration that falls through ends with `history.save()`. */
  function After(s: Step): State {
    if s.flow == Proceed then s.st.(calls := s.st.calls + [Save(s.st.history)]) else s.st
  }

  /** Iterations `i` to `limit` of the response loop; `used` is the `used_command` flag so far. */
  function Run(c: Setup, selfPrompt: bool, st: State, i: nat, limit: nat, used: bool): (o: Outcome)
    requires Ready(c, st)
    ensures Ready(c, o.st)
    decreases limit - i
  {
    if i >= limit then Outcome(st, used)
    else
      var s := Iterate(c, selfPrompt, st);
      if s.flow == Stop then Outcome(s.st, used || s.executed)
      else Run(c, selfPrompt, After(s), i + 1, limit, used || s.executed)
  }

  /** `max_responses` after defaulting: a count, or Infinity. */
  datatype Budget = Finite(n: int) | Infinite

  /** A null `max_responses` takes `settings.max_commands`, where -1 means no bound. */
  function DefaultBudget(maxResponses: Option<int>, maxCommands: int): (b: Budget)
    ensures maxResponses.Some? ==> b == Finite(maxResponses.value)
    ensures maxResponses.None? ==> (b.Infinite? <==> maxCommands == -1)
    ensures maxResponses.None? && b.Finite? ==> b.n == maxCommands
  {
    match maxResponses
    case Some(n) => Finite(n)
    case None => if maxCommands == -1 then Infinite else Finite(maxCommands)
  }

  /** A message from someone else while self-prompting gets one reply, then self-prompting resumes. */
  function LoopBudget(b: Budget, selfPrompt: bool, selfPromptOn: bool): Budget {
    if !selfPrompt && selfPromptOn then Finite(1) else b
  }

  /** How many iterations `for (i = 0; i < max_responses; i++)` may make. */
  function Limit(b: Budget, horizon: nat): (n: nat)
    ensures b.Finite? ==> n == (if b.n > 0 then b.n else 0)
  {
    match b
    case Finite(n) => if n > 0 then n else 0
    case Infinite => horizon
  }

  function IsSelfPrompt(c: Setup, source: string): bool {
    source == SYSTEM || source == c.name
  }

  function UserUnknownNote(name: string): string { "Command '" + name + "' does not exist." }
  function UserUsedNote(source: string, name: string): string
    requires name != ""
  {
    "*" + source + " used " + name[1..] + "*"
  }
  function UserUnsafeNote(name: string): string {
    "Command '" + name + "' was deemed unsafe and will not be executed."
  }

  /** A message from someone else that names a command: vet it and run it directly, no loop. */
  function UserCommand(c: Setup, source: string, message: string, name: string, st: State): Outcome
    requires name != ""
  {
    if !c.env.commandExists(name) then
      Outcome(st.(calls := st.calls + [Chat(UserUnknownNote(name))]), false)
    else
      var calls1 := st.calls + [Chat(UserUsedNote(source, name))];
      // only !newAction keeps the user's message, as context for the code it writes
      var history := if name == NEW_ACTION then st.history + [Turn(source, message)] else st.history;
      var safe := Verdict(c.env.safetyModel(|calls1|));
      var calls2 := calls1 + [Evaluate(message, safe)];
      if !safe then
        Outcome(State(history, st.scriptIndex, calls2 + [Chat(UserUnsafeNote(name))]), false)
      else
        var result := c.env.executeCommand(|calls2|);
        var calls3 := calls2 + [Execute(message, result)];
        Outcome(State(history, st.scriptIndex,
                      if result != "" then calls3 + [Chat(CleanChat(result))] else calls3), true)
  }

  /** `handleMessage(source, message, max_responses)`: the new state and the returned `used_command`. */
  function Handle(c: Setup, source: string, message: string, maxResponses: Option<int>, st: State): (o: Outcome)
    requires Ready(c, st)
    ensures Ready(c, o.st)
  {
    var selfPrompt := IsSelfPrompt(c, source);
    var userCommand := c.env.containsCommand(message);
    if !selfPrompt && userCommand != "" then
      UserCommand(c, source, message, userCommand, st)
    else
      var history := st.history + [Turn(source, message)];
      var st1 := State(history, st.scriptIndex, st.calls + [Save(history)]);
      var budget := LoopBudget(DefaultBudget(maxResponses, c.maxCommands), selfPrompt, c.selfPromptOn);
      var o := Run(c, selfPrompt, st1, 0, Limit(budget, c.env.horizon), false);
      Outcome(o.st.(calls := o.st.calls + [Finished]), o.used)
  }
}
