/**
 * What the turn controller of `src/agent/agent.js` guarantees, proved
 * about the functions of `Turns`: the safety gate, the reply budget, the
 * `used_command` report, and the effect of each branch of the response loop.
 */
module TurnProperties {
  import opened Text
  import opened Safety
  import opened Turns

  // ---------------------------------------------------------------- log bookkeeping

  /** `SafeLog` read over all positions: each execution or dispatch is gated by what precedes it. */
  lemma {:induction false} SafeLogMeans(calls: seq<Call>)
    ensures SafeLog(calls) <==>
      forall k :: 0 <= k < |calls| && IsAction(calls[k]) ==> Gated(calls[..k], ActionText(calls[k]))
    decreases |calls|
  {
    if calls != [] {
      var p := calls[..|calls| - 1];
      SafeLogMeans(p);
      assert forall k :: 0 <= k < |p| ==> calls[k] == p[k] && calls[..k] == p[..k];
    }
  }

  /** One more log entry: the gate holds if the entry is gated, and the counters move by its kind. */
  lemma Push(calls: seq<Call>, e: Call)
    requires SafeLog(calls)
    requires IsAction(e) ==> Gated(calls, ActionText(e))
    ensures SafeLog(calls + [e])
    ensures Replies(calls + [e]) == Replies(calls) + (if IsReply(e) then 1 else 0)
    ensures Executions(calls + [e]) == Executions(calls) + (if e.Execute? then 1 else 0)
  {
    assert (calls + [e])[..|calls|] == calls;
  }

  /**
   * `after` extends `before`, keeps the gate, records no reply, and
   * records `runs` more executions.
   */
  predicate QuietStep(before: seq<Call>, after: seq<Call>, runs: nat) {
    SafeLog(after) && before <= after
    && Replies(after) == Replies(before) && Executions(after) == Executions(before) + runs
  }

  /** Entries that are neither replies, executions nor dispatches leave the gate and the counters alone. */
  lemma {:induction false} QuietEntries(calls: seq<Call>, added: seq<Call>)
    requires SafeLog(calls)
    requires forall k :: 0 <= k < |added| ==> !IsReply(added[k]) && !IsAction(added[k])
    ensures QuietStep(calls, calls + added, 0)
    decreases |added|
  {
    if added != [] {
      var front := added[..|added| - 1];
      var last := added[|added| - 1];
      QuietEntries(calls, front);
      Push(calls + front, last);
      assert added == front + [last];
      assert calls + added == (calls + front) + [last];
    } else {
      assert calls + added == calls;
    }
  }

  /** `r` extends `calls` with verdicts on, and dispatches of, strings starting with '/' only. */
  predicate StrayOnly(calls: seq<Call>, r: seq<Call>) {
    calls <= r &&
    forall k :: |calls| <= k < |r| ==>
      (r[k].Evaluate? || r[k].Dispatch?) && StartsWith(r[k].command, SLASH)
  }

  // ---------------------------------------------------------------- stray commands

  /**
   * The stray pass adds only verdicts on, and dispatches of, strings that
   * start with '/', and every dispatch directly follows a SAFE verdict on the
   * same string.
   */
  lemma {:induction false} VetCommandsStray(env: Env, items: seq<Json>, calls: seq<Call>)
    ensures var r := VetCommands(env, items, calls);
      StrayOnly(calls, r)
      && forall k :: |calls| <= k < |r| && r[k].Dispatch? ==> |calls| < k && r[k - 1] == Evaluate(r[k].command, true)
    decreases |items|
  {
    if items != [] {
      var calls' := VetItem(env, items[0], calls);
      VetCommandsStray(env, items[1..], calls');
      var r := VetCommands(env, items[1..], calls');
      forall k | |calls| <= k < |calls'| ensures r[k] == calls'[k] { }
    }
  }

  /** A verdict, followed by a dispatch of the same text only when it is SAFE, keeps the gate. */
  lemma VerdictThenDispatch(calls: seq<Call>, s: string, safe: bool)
    requires SafeLog(calls)
    ensures QuietStep(calls, calls + [Evaluate(s, safe)] + (if safe then [Dispatch(s)] else []), 0)
  {
    var a := calls + [Evaluate(s, safe)];
    Push(calls, Evaluate(s, safe));
    if safe {
      assert Gated(a, s) by { assert a[|a| - 1] == Evaluate(s, true); }
      Push(a, Dispatch(s));
    } else {
      assert a + [] == a;
    }
  }

  /** One element of the stray pass keeps the gate and records no reply and no execution. */
  lemma VetItemGated(env: Env, item: Json, calls: seq<Call>)
    requires SafeLog(calls)
    ensures QuietStep(calls, VetItem(env, item, calls), 0)
  {
    if IsSlashCommand(item) {
      VerdictThenDispatch(calls, item.s, Verdict(env.safetyModel(|calls|)));
    }
  }

  /** The stray pass keeps the gate and records no reply and no execution. */
  lemma {:induction false} VetCommandsGated(env: Env, items: seq<Json>, calls: seq<Call>)
    requires SafeLog(calls)
    ensures QuietStep(calls, VetCommands(env, items, calls), 0)
    decreases |items|
  {
    if items != [] {
      var calls' := VetItem(env, items[0], calls);
      VetItemGated(env, items[0], calls);
      VetCommandsGated(env, items[1..], calls');
    }
  }

  /** The list the stray pass vets, when the extraction reply yields one. */
  predicate ListReply(env: Env, calls: seq<Call>) {
    env.extractionModel(|calls|).Answer?
    && AnswerPayload(env.extractionModel(|calls|).text).Some?
    && env.parseJson(AnswerPayload(env.extractionModel(|calls|).text).value).JArray?
  }

  /** `ExtractCommandLLM` keeps the gate and records no reply and no execution. */
  lemma ExtractCallsGated(env: Env, message: string, calls: seq<Call>)
    requires SafeLog(calls)
    ensures QuietStep(calls, ExtractCalls(env, message, calls), 0)
  {
    var calls1 := calls + [Extract(message)];
    Push(calls, Extract(message));
    var reply := env.extractionModel(|calls|);
    if reply.Answer? && AnswerPayload(reply.text).Some? && env.parseJson(AnswerPayload(reply.text).value).JArray? {
      var items := env.parseJson(AnswerPayload(reply.text).value).items;
      assert ExtractCalls(env, message, calls) == VetCommands(env, items, calls1);
      VetCommandsGated(env, items, calls1);
    } else {
      assert ExtractCalls(env, message, calls) == calls1;
    }
  }

  /**
   * Every string the stray pass dispatches starts with '/' and received a
   * SAFE verdict immediately before; a failed call, a reply without a
   * closing tag, or a payload that is not a list dispatches nothing at all.
   */
  lemma StrayDispatchVetted(env: Env, message: string, calls: seq<Call>)
    ensures var r := ExtractCalls(env, message, calls);
      forall k :: |calls| <= k < |r| && r[k].Dispatch? ==>
        StartsWith(r[k].command, SLASH) && |calls| < k && r[k - 1] == Evaluate(r[k].command, true)
    ensures !ListReply(env, calls) ==> ExtractCalls(env, message, calls) == calls + [Extract(message)]
  {
    var calls1 := calls + [Extract(message)];
    if ListReply(env, calls) {
      var reply := env.extractionModel(|calls|);
      var items := env.parseJson(AnswerPayload(reply.text).value).items;
      assert ExtractCalls(env, message, calls) == VetCommands(env, items, calls1);
      VetCommandsStray(env, items, calls1);
    } else {
      assert ExtractCalls(env, message, calls) == calls1;
    }
  }

  // ---------------------------------------------------------------- the branches of one response

  /** A conversational reply is recorded once under the agent's name, then the stray pass runs and the loop ends. */
  lemma ConversationEndsLoop(c: Setup, selfPrompt: bool, st: State, reply: string)
    requires c.env.containsCommand(reply) == ""
    ensures var s := Respond(c, selfPrompt, st, reply);
      s.st.history == st.history + [Turn(c.name, reply)] && s.flow == Stop && !s.executed
      && s.st.calls == ExtractCalls(c.env, reply, st.calls)
  {
  }

  /**
   * A reply naming an unregistered command records the truncated reply and
   * then a system note, calls nothing, and the loop goes on.
   */
  lemma UnknownCommandNoted(c: Setup, selfPrompt: bool, st: State, reply: string)
    requires c.env.containsCommand(reply) != "" && !c.env.commandExists(c.env.containsCommand(reply))
    ensures var name := c.env.containsCommand(reply);
      var s := Respond(c, selfPrompt, st, reply);
      s.st.history == st.history + [Turn(c.name, c.env.truncCommandMessage(reply)), Turn(SYSTEM, UnknownNote(name))]
      && s.st.calls == st.calls && s.flow == Skip && !s.executed
  {
  }

  /** While self-prompting, the model cannot switch self-prompting off: the command is refused with a note. */
  lemma StopSelfPromptRefused(c: Setup, st: State, reply: string)
    requires c.env.containsCommand(reply) == STOP_SELF_PROMPT && c.env.commandExists(STOP_SELF_PROMPT)
    ensures var s := Respond(c, true, st, reply);
      s.st.history == st.history + [Turn(c.name, c.env.truncCommandMessage(reply)), Turn(SYSTEM, STOP_REFUSED_NOTE)]
      && s.st.calls == st.calls && s.flow == Skip && !s.executed
  {
  }

  /** The command branch: a registered command that is not a refused `!stopSelfPrompt`. */
  predicate CommandBranch(c: Setup, selfPrompt: bool, reply: string) {
    var name := c.env.containsCommand(reply);
    name != "" && c.env.commandExists(name) && !(name == STOP_SELF_PROMPT && selfPrompt)
  }

  /**
   * The second interrupt check comes before the safety call: when it fires
   * (or the agent was told to shut up), the command is neither evaluated nor
   * executed and the loop ends.
   */
  lemma LateInterruptDropsCommand(c: Setup, selfPrompt: bool, st: State, reply: string)
    requires CommandBranch(c, selfPrompt, reply)
    requires c.env.shouldInterrupt(|st.calls|) || c.shutUp
    ensures var s := Respond(c, selfPrompt, st, reply);
      s.st.history == st.history + [Turn(c.name, c.env.truncCommandMessage(reply))]
      && s.st.calls == st.calls + [CheckInterrupt(selfPrompt, c.env.shouldInterrupt(|st.calls|))]
      && s.flow == Stop && !s.executed
  {
  }

  /** A command the safety model does not call SAFE is recorded with a system note and skipped; the loop goes on. */
  lemma UnsafeCommandNoted(c: Setup, selfPrompt: bool, st: State, reply: string)
    requires CommandBranch(c, selfPrompt, reply)
    requires !c.env.shouldInterrupt(|st.calls|) && !c.shutUp
    requires !Verdict(c.env.safetyModel(|st.calls| + 2))
    ensures var name := c.env.containsCommand(reply);
      var text := c.env.truncCommandMessage(reply);
      var s := Respond(c, selfPrompt, st, reply);
      s.st.history == st.history + [Turn(c.name, text), Turn(SYSTEM, UnsafeNote(name))]
      && s.st.calls == st.calls + [CheckInterrupt(selfPrompt, false),
                                   UserPromptedCmd(selfPrompt, c.env.isAction(name)), Evaluate(text, false)]
      && s.flow == Skip && !s.executed
  {
  }

  /**
   * A SAFE command is chatted and executed: a non-empty result is recorded
   * as a system turn and the loop goes on (the only way to reach the
   * `history.save()` at the end of the body); an empty result ends the loop.
   */
  lemma ExecutedCommandResult(c: Setup, selfPrompt: bool, st: State, reply: string)
    requires CommandBranch(c, selfPrompt, reply)
    requires !c.env.shouldInterrupt(|st.calls|) && !c.shutUp
    requires Verdict(c.env.safetyModel(|st.calls| + 2))
    ensures var name := c.env.containsCommand(reply);
      var text := c.env.truncCommandMessage(reply);
      var result := c.env.executeCommand(|st.calls| + 4);
      var s := Respond(c, selfPrompt, st, reply);
      s.st.history == st.history + [Turn(c.name, text)] + (if result != "" then [Turn(SYSTEM, result)] else [])
      && s.st.calls == st.calls + [CheckInterrupt(selfPrompt, false),
                                   UserPromptedCmd(selfPrompt, c.env.isAction(name)), Evaluate(text, true),
                                   Chat(CleanChat(text)), Execute(text, result)]
      && s.executed
      && (s.flow == Proceed <==> result != "")
      && (s.flow == Stop <==> result == "")
  {
  }

  // ---------------------------------------------------------------- one iteration and the loop

  /** A SAFE command in the loop: the gate holds over its execution, which is the one execution recorded. */
  lemma RespondExecutedLogged(c: Setup, selfPrompt: bool, st: State, reply: string)
    requires SafeLog(st.calls) && CommandBranch(c, selfPrompt, reply)
    requires !c.env.shouldInterrupt(|st.calls|) && !c.shutUp
    requires Verdict(c.env.safetyModel(|st.calls| + 2))
    ensures var s := Respond(c, selfPrompt, st, reply);
      QuietStep(st.calls, s.st.calls, 1) && s.executed
  {
    var name := c.env.containsCommand(reply);
    var text := c.env.truncCommandMessage(reply);
    ExecutedCommandResult(c, selfPrompt, st, reply);
    var calls3 := st.calls + [CheckInterrupt(selfPrompt, false),
                              UserPromptedCmd(selfPrompt, c.env.isAction(name)), Evaluate(text, true)];
    var calls4 := calls3 + [Chat(CleanChat(text))];
    QuietEntries(st.calls, [CheckInterrupt(selfPrompt, false),
                            UserPromptedCmd(selfPrompt, c.env.isAction(name)), Evaluate(text, true),
                            Chat(CleanChat(text))]);
    assert calls4 == st.calls + [CheckInterrupt(selfPrompt, false),
                                 UserPromptedCmd(selfPrompt, c.env.isAction(name)), Evaluate(text, true),
                                 Chat(CleanChat(text))];
    assert calls4[..|calls4| - 1] == calls3;
    assert Gated(calls4, text);
    var result := c.env.executeCommand(|st.calls| + 4);
    Push(calls4, Execute(text, result));
    assert calls4 + [Execute(text, result)] == Respond(c, selfPrompt, st, reply).st.calls;
  }

  /** What one response adds to the log: no model reply, and one execution exactly when it executed. */
  lemma RespondCounts(c: Setup, selfPrompt: bool, st: State, reply: string)
    requires SafeLog(st.calls)
    ensures var s := Respond(c, selfPrompt, st, reply);
      QuietStep(st.calls, s.st.calls, if s.executed then 1 else 0)
  {
    var name := c.env.containsCommand(reply);
    var text := c.env.truncCommandMessage(reply);
    if name == "" {
      ConversationEndsLoop(c, selfPrompt, st, reply);
      ExtractCallsGated(c.env, reply, st.calls);
    } else if !c.env.commandExists(name) {
      UnknownCommandNoted(c, selfPrompt, st, reply);
    } else if name == STOP_SELF_PROMPT && selfPrompt {
      StopSelfPromptRefused(c, st, reply);
    } else if c.env.shouldInterrupt(|st.calls|) || c.shutUp {
      LateInterruptDropsCommand(c, selfPrompt, st, reply);
      QuietEntries(st.calls, [CheckInterrupt(selfPrompt, c.env.shouldInterrupt(|st.calls|))]);
    } else if !Verdict(c.env.safetyModel(|st.calls| + 2)) {
      UnsafeCommandNoted(c, selfPrompt, st, reply);
      QuietEntries(st.calls, [CheckInterrupt(selfPrompt, false),
                              UserPromptedCmd(selfPrompt, c.env.isAction(name)), Evaluate(text, false)]);
    } else {
      RespondExecutedLogged(c, selfPrompt, st, reply);
    }
  }

  /** What one iteration adds to the log: at most one model reply; one execution exactly when it executed. */
  lemma IterateCounts(c: Setup, selfPrompt: bool, st: State)
    requires Ready(c, st) && SafeLog(st.calls)
    ensures var s := Iterate(c, selfPrompt, st);
      SafeLog(s.st.calls) && st.calls <= s.st.calls
      && Replies(s.st.calls) <= Replies(st.calls) + 1
      && Executions(s.st.calls) == Executions(st.calls) + (if s.executed then 1 else 0)
  {
    var raised := c.env.shouldInterrupt(|st.calls|);
    var e := CheckInterrupt(selfPrompt, raised);
    var st1 := st.(calls := st.calls + [e]);
    Push(st.calls, e);
    if !(raised || c.shutUp) {
      var f := Fetch(c, st1);
      Push(st1.calls, if c.scriptMode then Scripted(f.reply) else Prompt(st1.history));
      RespondCounts(c, selfPrompt, f.st, f.reply);
    }
  }

  /** One more iteration of the loop, with the `history.save()` that follows a Proceed. */
  lemma NextCounts(c: Setup, selfPrompt: bool, st: State)
    requires Ready(c, st) && SafeLog(st.calls)
    ensures var s := Iterate(c, selfPrompt, st);
      Ready(c, After(s)) && SafeLog(After(s).calls) && st.calls <= After(s).calls
      && Replies(After(s).calls) <= Replies(st.calls) + 1
      && Executions(After(s).calls) == Executions(st.calls) + (if s.executed then 1 else 0)
  {
    var s := Iterate(c, selfPrompt, st);
    IterateCounts(c, selfPrompt, st);
    if s.flow == Proceed {
      Push(s.st.calls, Save(s.st.history));
    }
  }

  /** One unfolding of the loop. */
  lemma RunUnfolds(c: Setup, selfPrompt: bool, st: State, i: nat, limit: nat, used: bool)
    requires Ready(c, st) && i < limit
    ensures var s := Iterate(c, selfPrompt, st);
      Run(c, selfPrompt, st, i, limit, used)
        == if s.flow == Stop then Outcome(s.st, used || s.executed)
           else Run(c, selfPrompt, After(s), i + 1, limit, used || s.executed)
  {
  }

  lemma {:induction false} RunCounts(c: Setup, selfPrompt: bool, st: State, i: nat, limit: nat, used: bool)
    requires Ready(c, st) && SafeLog(st.calls)
    ensures var o := Run(c, selfPrompt, st, i, limit, used);
      SafeLog(o.st.calls) && st.calls <= o.st.calls
      && Replies(o.st.calls) <= Replies(st.calls) + (if i < limit then limit - i else 0)
      && Executions(o.st.calls) >= Executions(st.calls)
      && (o.used <==> used || Executions(o.st.calls) > Executions(st.calls))
    decreases limit - i
  {
    if i < limit {
      var s := Iterate(c, selfPrompt, st);
      NextCounts(c, selfPrompt, st);
      RunUnfolds(c, selfPrompt, st, i, limit, used);
      if s.flow != Stop {
        RunCounts(c, selfPrompt, After(s), i + 1, limit, used || s.executed);
      }
    }
  }

  // ---------------------------------------------------------------- the user path

  /** A user's command the safety model does not call SAFE: a notice, the verdict, a refusal; nothing runs. */
  lemma UserUnsafeRefused(c: Setup, source: string, message: string, name: string, st: State)
    requires name != "" && c.env.commandExists(name)
    requires !Verdict(c.env.safetyModel(|st.calls| + 1))
    ensures var o := UserCommand(c, source, message, name, st);
      o.st.calls == st.calls + [Chat(UserUsedNote(source, name)), Evaluate(message, false), Chat(UserUnsafeNote(name))]
      && !o.used
  {
  }

  /** A user's SAFE command: a notice, the verdict, the execution of the whole message, and its result if any. */
  lemma UserCommandExecuted(c: Setup, source: string, message: string, name: string, st: State)
    requires name != "" && c.env.commandExists(name)
    requires Verdict(c.env.safetyModel(|st.calls| + 1))
    ensures var result := c.env.executeCommand(|st.calls| + 2);
      var o := UserCommand(c, source, message, name, st);
      o.st.calls == st.calls + [Chat(UserUsedNote(source, name)), Evaluate(message, true), Execute(message, result)]
                    + (if result != "" then [Chat(CleanChat(result))] else [])
      && o.used
  {
    var calls1 := st.calls + [Chat(UserUsedNote(source, name))];
    var calls2 := calls1 + [Evaluate(message, true)];
    var result := c.env.executeCommand(|calls2|);
    var calls3 := calls2 + [Execute(message, result)];
    assert calls3 == st.calls + [Chat(UserUsedNote(source, name)), Evaluate(message, true), Execute(message, result)];
    var o := UserCommand(c, source, message, name, st);
    if result != "" {
      assert o.st.calls == calls3 + [Chat(CleanChat(result))];
    } else {
      assert o.st.calls == calls3;
      assert calls3 + [] == calls3;
    }
  }

  /** A user's SAFE command: the gate holds over its execution, which is the one execution recorded. */
  lemma UserExecutedLogged(c: Setup, source: string, message: string, name: string, st: State)
    requires name != "" && SafeLog(st.calls) && c.env.commandExists(name)
    requires Verdict(c.env.safetyModel(|st.calls| + 1))
    ensures var o := UserCommand(c, source, message, name, st);
      QuietStep(st.calls, o.st.calls, 1) && o.used
  {
    var used := Chat(UserUsedNote(source, name));
    UserCommandExecuted(c, source, message, name, st);
    var calls2 := st.calls + [used, Evaluate(message, true)];
    QuietEntries(st.calls, [used, Evaluate(message, true)]);
    var result := c.env.executeCommand(|st.calls| + 2);
    Push(calls2, Execute(message, result));
    var calls3 := calls2 + [Execute(message, result)];
    assert calls3 == st.calls + [used, Evaluate(message, true), Execute(message, result)];
    if result != "" {
      Push(calls3, Chat(CleanChat(result)));
    } else {
      assert calls3 + [] == calls3;
    }
  }

  /** The user path of `handleMessage` keeps the gate, asks no model, and executes once exactly when it reports so. */
  lemma UserCommandCounts(c: Setup, source: string, message: string, name: string, st: State)
    requires name != "" && SafeLog(st.calls)
    ensures var o := UserCommand(c, source, message, name, st);
      QuietStep(st.calls, o.st.calls, if o.used then 1 else 0)
  {
    var used := Chat(UserUsedNote(source, name));
    if !c.env.commandExists(name) {
      QuietEntries(st.calls, [Chat(UserUnknownNote(name))]);
    } else if !Verdict(c.env.safetyModel(|st.calls| + 1)) {
      UserUnsafeRefused(c, source, message, name, st);
      QuietEntries(st.calls, [used, Evaluate(message, false), Chat(UserUnsafeNote(name))]);
    } else {
      UserExecutedLogged(c, source, message, name, st);
    }
  }

  // ---------------------------------------------------------------- handleMessage

  lemma HandleCounts(c: Setup, source: string, message: string, maxResponses: Option<int>, st: State)
    requires Ready(c, st) && SafeLog(st.calls)
    ensures var o := Handle(c, source, message, maxResponses, st);
      var selfPrompt := IsSelfPrompt(c, source);
      var budget := LoopBudget(DefaultBudget(maxResponses, c.maxCommands), selfPrompt, c.selfPromptOn);
      SafeLog(o.st.calls) && st.calls <= o.st.calls
      && Replies(o.st.calls) <= Replies(st.calls) + Limit(budget, c.env.horizon)
      && (o.used <==> Executions(o.st.calls) > Executions(st.calls))
  {
    var selfPrompt := IsSelfPrompt(c, source);
    var name := c.env.containsCommand(message);
    if !selfPrompt && name != "" {
      UserCommandCounts(c, source, message, name, st);
      assert Handle(c, source, message, maxResponses, st) == UserCommand(c, source, message, name, st);
    } else {
      var history := st.history + [Turn(source, message)];
      var st1 := State(history, st.scriptIndex, st.calls + [Save(history)]);
      Push(st.calls, Save(history));
      var budget := LoopBudget(DefaultBudget(maxResponses, c.maxCommands), selfPrompt, c.selfPromptOn);
      var limit := Limit(budget, c.env.horizon);
      LoopCounts(c, selfPrompt, st1, limit);
      var o := Run(c, selfPrompt, st1, 0, limit, false);
      assert Handle(c, source, message, maxResponses, st) == Outcome(o.st.(calls := o.st.calls + [Finished]), o.used);
    }
  }

  /** The loop of `handleMessage` with the `finished_executing` that follows it. */
  lemma LoopCounts(c: Setup, selfPrompt: bool, st: State, limit: nat)
    requires Ready(c, st) && SafeLog(st.calls)
    ensures var o := Run(c, selfPrompt, st, 0, limit, false);
      var calls := o.st.calls + [Finished];
      SafeLog(calls) && st.calls <= calls
      && Replies(calls) <= Replies(st.calls) + limit
      && (o.used <==> Executions(calls) > Executions(st.calls))
  {
    RunCounts(c, selfPrompt, st, 0, limit, false);
    var o := Run(c, selfPrompt, st, 0, limit, false);
    Push(o.st.calls, Finished);
  }

  /**
   * The safety invariant: whatever `handleMessage` executes or dispatches,
   * on the user path, in the loop, or in the stray pass, got a SAFE verdict
   * on exactly that text in the same step, with nothing but chat in between.
   */
  lemma HandleKeepsGate(c: Setup, source: string, message: string, maxResponses: Option<int>, st: State)
    requires Ready(c, st) && SafeLog(st.calls)
    ensures var r := Handle(c, source, message, maxResponses, st).st.calls;
      forall k :: 0 <= k < |r| && IsAction(r[k]) ==> Gated(r[..k], ActionText(r[k]))
  {
    HandleCounts(c, source, message, maxResponses, st);
    SafeLogMeans(Handle(c, source, message, maxResponses, st).st.calls);
  }

  /**
   * The budget: at most `max_responses` replies, from the language model or
   * the script alike, `settings.max_commands` when it is null, and one when
   * someone else speaks while self-prompting.
   */
  lemma HandleBudget(c: Setup, source: string, message: string, maxResponses: Option<int>, st: State)
    requires Ready(c, st) && SafeLog(st.calls)
    ensures var o := Handle(c, source, message, maxResponses, st);
      var added := Replies(o.st.calls) - Replies(st.calls);
      var forced := !IsSelfPrompt(c, source) && c.selfPromptOn;
      && (maxResponses.Some? && !forced ==> added <= if maxResponses.value > 0 then maxResponses.value else 0)
      && (maxResponses.None? && c.maxCommands != -1 && !forced ==>
            added <= if c.maxCommands > 0 then c.maxCommands else 0)
      && (forced ==> added <= 1)
  {
    HandleCounts(c, source, message, maxResponses, st);
  }

  /** What an object running `handleMessage` keeps: the gate, a log that only grows, and an honest result. */
  lemma HandleKeepsLog(c: Setup, source: string, message: string, maxResponses: Option<int>, st: State)
    requires Ready(c, st) && SafeLog(st.calls)
    ensures var o := Handle(c, source, message, maxResponses, st);
      SafeLog(o.st.calls) && st.calls <= o.st.calls && (o.used <==> Executions(o.st.calls) > Executions(st.calls))
  {
    HandleCounts(c, source, message, maxResponses, st);
  }

  /** `handleMessage` returns true exactly when it executed at least one command. */
  lemma HandleReportsExecution(c: Setup, source: string, message: string, maxResponses: Option<int>, st: State)
    requires Ready(c, st) && SafeLog(st.calls)
    ensures var o := Handle(c, source, message, maxResponses, st);
      o.used <==> Executions(o.st.calls) > Executions(st.calls)
  {
    HandleCounts(c, source, message, maxResponses, st);
  }

  /**
   * A user message naming a command runs no loop and asks the language
   * model nothing: an unknown name or an unsafe verdict returns false, a SAFE
   * verdict executes the message once and returns true. Only `!newAction`
   * adds the message to the history.
   */
  lemma UserCommandPath(c: Setup, source: string, message: string, maxResponses: Option<int>, st: State)
    requires Ready(c, st)
    requires !IsSelfPrompt(c, source) && c.env.containsCommand(message) != ""
    ensures var name := c.env.containsCommand(message);
      var o := Handle(c, source, message, maxResponses, st);
      && o.st.history == (if c.env.commandExists(name) && name == NEW_ACTION
                          then st.history + [Turn(source, message)] else st.history)
      && (!c.env.commandExists(name) ==> !o.used && o.st.calls == st.calls + [Chat(UserUnknownNote(name))])
      && (c.env.commandExists(name) ==> (o.used <==> Verdict(c.env.safetyModel(|st.calls| + 1))))
  {
  }

  /** Only an executed command with a result reaches the `history.save()` at the end of the loop body. */
  lemma ProceedOnlyAfterResult(c: Setup, selfPrompt: bool, st: State)
    requires Ready(c, st)
    ensures var s := Iterate(c, selfPrompt, st);
      s.flow == Proceed ==> s.executed && s.st.calls[|s.st.calls| - 1].Execute? && s.st.calls[|s.st.calls| - 1].result != ""
  {
    var raised := c.env.shouldInterrupt(|st.calls|);
    if !(raised || c.shutUp) {
      var f := Fetch(c, st.(calls := st.calls + [CheckInterrupt(selfPrompt, raised)]));
      var reply := f.reply;
      var name := c.env.containsCommand(reply);
      if CommandBranch(c, selfPrompt, reply) && !c.env.shouldInterrupt(|f.st.calls|) && !c.shutUp
         && Verdict(c.env.safetyModel(|f.st.calls| + 2)) {
        ExecutedCommandResult(c, selfPrompt, f.st, reply);
      }
    }
  }

  /**
   * After `shutUp`, a message that reaches the loop is still recorded and
   * saved, but the first interrupt check ends the loop: no model is asked and
   * nothing runs.
   */
  lemma ShutUpSilencesLoop(c: Setup, source: string, message: string, maxResponses: Option<int>, st: State)
    requires Ready(c, st) && SafeLog(st.calls) && c.shutUp
    requires IsSelfPrompt(c, source) || c.env.containsCommand(message) == ""
    ensures var o := Handle(c, source, message, maxResponses, st);
      && !o.used && o.st.history == st.history + [Turn(source, message)]
      && Replies(o.st.calls) == Replies(st.calls) && Executions(o.st.calls) == Executions(st.calls)
  {
    var selfPrompt := IsSelfPrompt(c, source);
    var history := st.history + [Turn(source, message)];
    var st1 := State(history, st.scriptIndex, st.calls + [Save(history)]);
    var budget := LoopBudget(DefaultBudget(maxResponses, c.maxCommands), selfPrompt, c.selfPromptOn);
    var limit := Limit(budget, c.env.horizon);
    var o := Run(c, selfPrompt, st1, 0, limit, false);
    var added: seq<Call>;
    if limit > 0 {
      RunUnfolds(c, selfPrompt, st1, 0, limit, false);
      var raised := c.env.shouldInterrupt(|st1.calls|);
      assert o == Outcome(st1.(calls := st1.calls + [CheckInterrupt(selfPrompt, raised)]), false);
      added := [Save(history), CheckInterrupt(selfPrompt, raised), Finished];
    } else {
      assert o == Outcome(st1, false);
      added := [Save(history), Finished];
    }
    assert Handle(c, source, message, maxResponses, st).st.calls == st.calls + added;
    QuietEntries(st.calls, added);
  }
}
