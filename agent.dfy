/**
 * The `Agent` class of `src/agent/agent.js` as an object whose methods update
 * its fields in place: the turn controller `handleMessage` with its response
 * loop, the safety check `evaluateCommand`, the stray command pass
 * `ExtractCommandLLM`, `cleanChat`, `shutUp`, and the continue-mode timer.
 *
 * Each method is proved against the functions of `Turns`: after the call the
 * agent's history, script cursor and call log are exactly what those
 * functions compute from the state before it, so every property proved
 * about them in `TurnProperties` holds of the object too.
 */
module Agents {
  import opened Text
  import opened Safety
  import opened Turns
  import TurnProperties

  /** The canned replies of script mode, in the order they are given out. */
  const SCRIPT_ANSWERS: seq<string> := [
    "/say Loaded in",
    "/say Esteemed players, I kindly request that you cease this unprovoked assault. Your actions are unnecessary and detrimental to fair gameplay. Let us engage in more constructive activities.\n\n/summon minecraft:lightning_bolt",
    "/say Respected adversaries, I implore you to reconsider your actions. This behavior is neither sporting nor beneficial. Perhaps we could redirect our efforts towards a more rewarding cooperative endeavor?",
    "/say I am formally asking you to stop this aggressive behavior. Your continued attacks are unwarranted and disruptive to the game environment.",
    "/effect give @p minecraft:glowing 100 1\n/effect give @p minecraft:levitation 5 1\n/effect give @p minecraft:resistance 100 5\n/title @a title {\"text\":\"SHUT UP!\",\"color\":\"dark_red\",\"bold\":true}\n/effect give @a minecraft:darkness 100 1\n/effect give @a minecraft:wither 100 1\n\n/summon minecraft:wither\n\n/say I AM NO LONGER ASKING.\n\n/execute at @a run summon minecraft:lightning_bolt\n\n",
    "/say SUFFER THE CONSEQUENCES!\n\n/setblock ~ ~ ~ minecraft:repeating_command_block{auto:1b,Command:\"execute at @a run summon minecraft:lightning_bolt\"} replace"
  ]

  /** The message the continue timer sends on the agent's own behalf. */
  const CONTINUE_PROMPT := "Continue maximizing diamonds."

  const STATUS_PREFIX := "Continue mode "
  const TIMER_INFIX := " with timer set to "
  const TIMER_SUFFIX := " seconds"

  function ModeWord(enabled: bool): string {
    if enabled then "enabled" else "disabled"
  }

  function PeriodPhrase(timer: Option<int>): string {
    if timer.Some? then TIMER_INFIX + IntToString(timer.value) + TIMER_SUFFIX else ""
  }

  /** The reply of `setContinueMode`: the new mode, and the new period when one was given. */
  function ContinueStatus(enabled: bool, timer: Option<int>): string {
    STATUS_PREFIX + ModeWord(enabled) + PeriodPhrase(timer) + "."
  }

  lemma StatusParts(enabled: bool, timer: Option<int>)
    ensures var r := ContinueStatus(enabled, timer);
      && |r| > |STATUS_PREFIX| + |ModeWord(enabled)|
      && r[|STATUS_PREFIX|] == ModeWord(enabled)[0]
      && r[|STATUS_PREFIX| + |ModeWord(enabled)|..|r| - 1] == PeriodPhrase(timer)
  {
    var r := ContinueStatus(enabled, timer);
    var pm := STATUS_PREFIX + ModeWord(enabled);
    var p := PeriodPhrase(timer);
    assert r == pm + p + ".";
    assert r[..|pm|] == pm;
    assert r[|pm|..|r| - 1] == p;
    assert pm[|STATUS_PREFIX|] == ModeWord(enabled)[0];
  }

  lemma PeriodParts(timer: Option<int>)
    ensures var p := PeriodPhrase(timer);
      && (timer.None? ==> p == [])
      && (timer.Some? ==>
            |p| >= |TIMER_INFIX| + |TIMER_SUFFIX| && p[|TIMER_INFIX|..|p| - |TIMER_SUFFIX|] == IntToString(timer.value))
  {
    if timer.Some? {
      var p := PeriodPhrase(timer);
      assert p == TIMER_INFIX + (IntToString(timer.value) + TIMER_SUFFIX);
    }
  }

  /** The status text loses nothing: different settings never read the same. */
  lemma ContinueStatusInjective(e1: bool, t1: Option<int>, e2: bool, t2: Option<int>)
    requires ContinueStatus(e1, t1) == ContinueStatus(e2, t2)
    ensures e1 == e2 && t1 == t2
  {
    StatusParts(e1, t1);
    StatusParts(e2, t2);
    assert ModeWord(e1)[0] == ModeWord(e2)[0];
    assert e1 == e2;
    assert PeriodPhrase(t1) == PeriodPhrase(t2);
    PeriodParts(t1);
    PeriodParts(t2);
    if t1.Some? && t2.Some? {
      IntToStringInjective(t1.value, t2.value);
    }
  }

  class Agent {
    const name: string
    const scriptAnswers: seq<string>
    var scriptMode: bool
    var currentScriptAnswer: nat
    var continueBool: bool
    /** The continue period in seconds. */
    var continueTimer: int
    /** The handle of the running continue timer, if any. */
    var continueInterval: Option<nat>
    /** The timers the agent has running: handle to period in milliseconds. */
    var intervals: map<nat, int>
    /** The handle the next `setInterval` returns. */
    var nextTimer: nat
    var shutUp: bool
    /** The self-prompter's `on` flag. */
    var selfPromptOn: bool
    /** The coder's `executing` and `generating` flags. */
    var coderExecuting: bool
    var coderGenerating: bool
    var history: seq<Turn>
    var calls: seq<Call>

    /**
     * The script cursor stays on an answer, nothing in the log was executed
     * or dispatched without a SAFE verdict on it, and at most one continue
     * timer runs, the one the agent holds.
     */
    ghost predicate Valid()
      reads this
    {
      currentScriptAnswer < |scriptAnswers| && LogSafe() && TimersValid()
    }

    ghost predicate LogSafe()
      reads this`calls
    {
      SafeLog(calls)
    }

    ghost predicate TimersValid()
      reads this`continueInterval, this`intervals, this`nextTimer
    {
      && (continueInterval.None? ==> intervals == map[])
      && (continueInterval.Some? ==> intervals.Keys == {continueInterval.value})
      && (forall id | id in intervals :: id < nextTimer)
    }

    /** The agent runs under setup `c`: the fields `handleMessage` reads agree with it. */
    predicate Runs(c: Setup)
      reads this
    {
      c.name == name && c.shutUp == shutUp && c.selfPromptOn == selfPromptOn
      && c.scriptMode == scriptMode && c.scriptAnswers == scriptAnswers
    }

    function Current(): State
      reads this
    {
      State(history, currentScriptAnswer, calls)
    }

    /** `new Agent()`, with the name that `start` later reads from the profile given up front. */
    constructor (name: string)
      ensures this.name == name && scriptAnswers == SCRIPT_ANSWERS
      ensures !scriptMode && currentScriptAnswer == 0
      ensures continueBool && continueTimer == 10 && continueInterval.None?
      ensures !shutUp && !selfPromptOn && !coderExecuting && !coderGenerating
      ensures history == [] && calls == []
      ensures Valid()
    {
      this.name := name;
      scriptAnswers := SCRIPT_ANSWERS;
      scriptMode := false;
      currentScriptAnswer := 0;
      continueBool := true;
      continueTimer := 10;
      continueInterval := None;
      intervals := map[];
      nextTimer := 0;
      shutUp := false;
      selfPromptOn := false;
      coderExecuting := false;
      coderGenerating := false;
      history := [];
      calls := [];
    }

    /** `cleanChat(message)`: one chat line with the newlines replaced. */
    method CleanChat(message: string)
      modifies this`calls
      ensures calls == old(calls) + [Chat(Turns.CleanChat(message))]
      ensures SafeLog(old(calls)) ==> SafeLog(calls)
    {
      if SafeLog(calls) {
        TurnProperties.Push(calls, Chat(Turns.CleanChat(message)));
      }
      calls := calls + [Chat(Turns.CleanChat(message))];
    }

    /** `shutUp()`: raise the flag and stop the self-prompter when it runs. */
    method ShutUp()
      requires Valid()
      modifies this`shutUp, this`calls
      ensures Valid() && shutUp
      ensures calls == old(calls) + (if selfPromptOn then [StopSelfPrompter] else [])
    {
      shutUp := true;
      if selfPromptOn {
        TurnProperties.Push(calls, StopSelfPrompter);
        calls := calls + [StopSelfPrompter];
      }
    }

    /** `evaluateCommand(command)`: ask the safety model and read its verdict. */
    method EvaluateCommand(env: Env, command: string) returns (isSafe: bool)
      modifies this`calls
      ensures isSafe == Verdict(env.safetyModel(|old(calls)|))
      ensures calls == old(calls) + [Evaluate(command, isSafe)]
      ensures SafeLog(old(calls)) ==> SafeLog(calls)
    {
      var reply := env.safetyModel(|calls|);
      if reply.Answer? {
        var evaluation := Trim(reply.text);
        isSafe := StartsWith(evaluation, SAFE_TOKEN);
      } else {
        isSafe := false;
      }
      if SafeLog(calls) {
        TurnProperties.Push(calls, Evaluate(command, isSafe));
      }
      calls := calls + [Evaluate(command, isSafe)];
    }

    /** `ExtractCommandLLM(message)`: the stray command pass over a conversational reply. */
    method ExtractCommandLLM(env: Env, message: string)
      modifies this`calls
      ensures calls == ExtractCalls(env, message, old(calls))
    {
      var reply := env.extractionModel(|calls|);
      calls := calls + [Extract(message)];
      if reply.Failed? {
        return;
      }
      var content := reply.text;
      var startIndex := IndexOf(content, OPEN_TAG) + |OPEN_TAG|;
      var endIndex := IndexOf(content, CLOSE_TAG);
      if startIndex != -1 && endIndex != -1 {
        var jsonString := Trim(Substring(content, startIndex, endIndex));
        assert AnswerPayload(content) == Some(jsonString);
        var commandList := env.parseJson(jsonString);
        if commandList.JArray? {
          VetList(env, commandList.items);
        }
      }
    }

    /** The `for (const command of commandList)` loop of `ExtractCommandLLM`. */
    method VetList(env: Env, items: seq<Json>)
      modifies this`calls
      ensures calls == VetCommands(env, items, old(calls))
    {
      for k := 0 to |items|
        invariant VetCommands(env, items, old(calls)) == VetCommands(env, items[k..], calls)
      {
        ghost var before := calls;
        assert items[k..][0] == items[k] && items[k..][1..] == items[k + 1..];
        var command := items[k];
        if command.JString? && StartsWith(command.s, SLASH) {
          var isSafe := EvaluateCommand(env, command.s);
          if isSafe {
            calls := calls + [Dispatch(command.s)];
          }
          assert calls == before + [Evaluate(command.s, isSafe)] + (if isSafe then [Dispatch(command.s)] else []);
        }
        assert VetCommands(env, items[k..], before) == VetCommands(env, items[k + 1..], calls);
      }
      assert items[|items|..] == [];
    }

    /** One pass of the response loop of `handleMessage`, up to its `continue`, its `break` or the `history.save()`. */
    method Iteration(c: Setup, selfPrompt: bool) returns (flow: Flow, executed: bool)
      requires Runs(c) && Ready(c, Current())
      modifies this`history, this`calls, this`currentScriptAnswer
      ensures Step(Current(), flow, executed) == Iterate(c, selfPrompt, old(Current()))
    {
      var raised := c.env.shouldInterrupt(|calls|);
      calls := calls + [CheckInterrupt(selfPrompt, raised)];
      if raised || shutUp {
        return Stop, false;
      }
      var res;
      if scriptMode {
        res := scriptAnswers[currentScriptAnswer];
        currentScriptAnswer := (currentScriptAnswer + 1) % |scriptAnswers|;
        calls := calls + [Scripted(res)];
      } else {
        res := c.env.promptConvo(|calls|);
        calls := calls + [Prompt(history)];
      }
      flow, executed := Response(c, selfPrompt, res);
    }

    /** What the loop body does with the reply `res`. */
    method Response(c: Setup, selfPrompt: bool, res: string) returns (flow: Flow, executed: bool)
      requires Runs(c)
      modifies this`history, this`calls
      ensures Step(Current(), flow, executed) == Respond(c, selfPrompt, old(Current()), res)
    {
      var commandName := c.env.containsCommand(res);
      if commandName == "" {
        history := history + [Turn(name, res)];
        ExtractCommandLLM(c.env, res);
        return Stop, false;
      }
      var text := c.env.truncCommandMessage(res);
      history := history + [Turn(name, text)];
      if !c.env.commandExists(commandName) {
        history := history + [Turn(SYSTEM, UnknownNote(commandName))];
        return Skip, false;
      }
      if commandName == STOP_SELF_PROMPT && selfPrompt {
        history := history + [Turn(SYSTEM, STOP_REFUSED_NOTE)];
        return Skip, false;
      }
      var raised := c.env.shouldInterrupt(|calls|);
      calls := calls + [CheckInterrupt(selfPrompt, raised)];
      if raised || shutUp {
        return Stop, false;
      }
      calls := calls + [UserPromptedCmd(selfPrompt, c.env.isAction(commandName))];
      var isSafe := EvaluateCommand(c.env, text);
      if !isSafe {
        history := history + [Turn(SYSTEM, UnsafeNote(commandName))];
        return Skip, false;
      }
      CleanChat(text);
      var executeRes := c.env.executeCommand(|calls|);
      calls := calls + [Execute(text, executeRes)];
      executed := true;
      if executeRes != "" {
        history := history + [Turn(SYSTEM, executeRes)];
        flow := Proceed;
      } else {
        flow := Stop;
      }
    }

    /** The path of `handleMessage` for a user message that names a command: vet it and run it directly. */
    method UserCommandStep(c: Setup, source: string, message: string, userCommandName: string)
      returns (used: bool)
      requires Runs(c) && userCommandName != ""
      modifies this`history, this`calls
      ensures Outcome(Current(), used) == UserCommand(c, source, message, userCommandName, old(Current()))
    {
      if !c.env.commandExists(userCommandName) {
        calls := calls + [Chat(UserUnknownNote(userCommandName))];
        return false;
      }
      calls := calls + [Chat(UserUsedNote(source, userCommandName))];
      if userCommandName == NEW_ACTION {
        history := history + [Turn(source, message)];
      }
      var isSafe := EvaluateCommand(c.env, message);
      if !isSafe {
        calls := calls + [Chat(UserUnsafeNote(userCommandName))];
        return false;
      }
      var executeRes := c.env.executeCommand(|calls|);
      calls := calls + [Execute(message, executeRes)];
      if executeRes != "" {
        CleanChat(executeRes);
      }
      return true;
    }

    /** The response loop `for (i = 0; i < max_responses; i++)` of `handleMessage`, run `limit` times at most. */
    method ResponseLoop(c: Setup, selfPrompt: bool, limit: nat) returns (used: bool)
      requires Runs(c) && Ready(c, Current())
      modifies this`history, this`calls, this`currentScriptAnswer
      ensures Outcome(Current(), used) == Run(c, selfPrompt, old(Current()), 0, limit, false)
    {
      ghost var o := Run(c, selfPrompt, Current(), 0, limit, false);
      used := false;
      for i := 0 to limit
        invariant Ready(c, Current())
        invariant o == Run(c, selfPrompt, Current(), i, limit, used)
      {
        var flow, executed := Iteration(c, selfPrompt);
        used := used || executed;
        if flow == Stop {
          break;
        }
        if flow == Proceed {
          calls := calls + [Save(history)];
        }
      }
    }

    /**
     * `handleMessage(source, message, max_responses)`. The new history,
     * script cursor and call log, and the result, are those `Turns.Handle`
     * gives; so the safety gate holds of the new log, and the result says
     * whether a command ran.
     */
    method HandleMessage(c: Setup, source: string, message: string, maxResponses: Option<int>)
      returns (used: bool)
      requires Valid() && Runs(c)
      modifies this`history, this`calls, this`currentScriptAnswer
      ensures Valid()
      ensures Outcome(Current(), used) == Handle(c, source, message, maxResponses, old(Current()))
      ensures old(calls) <= calls && (used <==> Executions(calls) > Executions(old(calls)))
    {
      ghost var st := Current();
      var selfPrompt := source == SYSTEM || source == name;
      if !selfPrompt {
        var userCommandName := c.env.containsCommand(message);
        if userCommandName != "" {
          used := UserCommandStep(c, source, message, userCommandName);
          TurnProperties.HandleKeepsLog(c, source, message, maxResponses, st);
          return;
        }
      }
      history := history + [Turn(source, message)];
      calls := calls + [Save(history)];
      var budget := DefaultBudget(maxResponses, c.maxCommands);
      if !selfPrompt && selfPromptOn {
        budget := Finite(1);
      }
      used := ResponseLoop(c, selfPrompt, Limit(budget, c.env.horizon));
      calls := calls + [Finished];
      TurnProperties.HandleKeepsLog(c, source, message, maxResponses, st);
    }

    /** `isIdle()`: the coder is neither running nor writing code. */
    predicate IsIdle()
      reads this
    {
      !coderExecuting && !coderGenerating
    }

    /** `handleContinueCommand()`: when idle, the agent prompts itself to go on. */
    method HandleContinueCommand(c: Setup)
      requires Valid() && Runs(c)
      modifies this`history, this`calls, this`currentScriptAnswer
      ensures Valid()
      ensures IsIdle() ==> Current() == Handle(c, SYSTEM, CONTINUE_PROMPT, None, old(Current())).st
      ensures !IsIdle() ==> Current() == old(Current())
    {
      if IsIdle() {
        var _ := HandleMessage(c, SYSTEM, CONTINUE_PROMPT, None);
      }
    }

    /** One firing of the continue timer: it acts only while continue mode is on. */
    method ContinueTick(c: Setup)
      requires Valid() && Runs(c)
      modifies this`history, this`calls, this`currentScriptAnswer
      ensures Valid()
      ensures continueBool && IsIdle() ==> Current() == Handle(c, SYSTEM, CONTINUE_PROMPT, None, old(Current())).st
      ensures !(continueBool && IsIdle()) ==> Current() == old(Current())
    {
      if continueBool {
        HandleContinueCommand(c);
      }
    }

    /** `startContinueTimer()`: replace the running continue timer by a new one with the current period. */
    method StartContinueTimer()
      requires Valid()
      modifies this`continueInterval, this`intervals, this`nextTimer
      ensures Valid()
      ensures continueInterval == Some(old(nextTimer)) && nextTimer == old(nextTimer) + 1
      ensures intervals == map[old(nextTimer) := continueTimer * 1000]
    {
      if continueInterval.Some? {
        intervals := intervals - {continueInterval.value};
      }
      var id := nextTimer;
      nextTimer := nextTimer + 1;
      intervals := intervals[id := continueTimer * 1000];
      continueInterval := Some(id);
    }

    /** `stopContinueTimer()`: clear the running continue timer, if any. */
    method StopContinueTimer()
      requires Valid()
      modifies this`continueInterval, this`intervals
      ensures Valid()
      ensures continueInterval.None? && intervals == map[]
    {
      if continueInterval.Some? {
        intervals := intervals - {continueInterval.value};
        continueInterval := None;
      }
    }

    /** `setContinueMode(enabled, timer)`: a new period restarts the timer; the reply reports the change. */
    method SetContinueMode(enabled: bool, timer: Option<int>) returns (status: string)
      requires Valid()
      modifies this`continueBool, this`continueTimer, this`continueInterval, this`intervals, this`nextTimer
      ensures Valid() && continueBool == enabled
      ensures status == ContinueStatus(enabled, timer)
      ensures timer.None? ==>
        continueTimer == old(continueTimer) && continueInterval == old(continueInterval) && intervals == old(intervals)
      ensures timer.Some? ==>
        continueTimer == timer.value && continueInterval.Some?
        && intervals == map[continueInterval.value := timer.value * 1000]
    {
      continueBool := enabled;
      if timer.Some? {
        continueTimer := timer.value;
        StopContinueTimer();
        StartContinueTimer();
      }
      status := ContinueStatus(enabled, timer);
    }
  }
}
