# A verified model of the Minecraft agent's turn controller

This project models the decision core of a Minecraft bot agent built around large language models. The model is written in Dafny.

## What is modelled

**The turn controller (`handleMessage`).** The bot receives a chat message. If someone else sent it and it names a command, the bot runs that command directly. Otherwise the bot enters a bounded response loop. Each pass of the loop does the following:

- checks whether it must stop (the self-prompter's interrupt, or `shut_up`);
- takes the next reply, either a scripted answer or the language model's;
- classifies the reply as a command or as conversation;
- has every command vetted by a separate safety model before running it;
- appends turns to the history.

**Collaborators as inputs.** Every collaborator the controller calls is an input, gathered in `Turns.Env`:

- the language model, the safety model and the extraction model;
- the command registry;
- the executor;
- the self-prompter's interrupt test;
- `JSON.parse`.

**The call log.** Every call to the outside world is recorded, in order, in a call log (`calls`). So is each scripted answer handed out in script mode, so that replies from the script and from the language model can be counted alike. The model answers given in a run are indexed by their position in that log.

**Main results.** These are stated over the log:

- **The safety gate.** Nothing is ever executed or dispatched unless the entry before it is a SAFE verdict on exactly that text, with only chat lines in between (`TurnProperties.HandleKeepsGate`). This covers all three places:
  - the user path;
  - the response loop;
  - the stray-command pass, which takes slash commands that the extraction model finds in a conversational reply.
- **The budget.** At most `max_responses` replies are taken, whether from the language model or from the script. A null budget becomes `settings.max_commands`. The budget is forced to one when someone else speaks while the agent is self-prompting.
- **The result.** `handleMessage` returns true exactly when it executed a command.
- **Branch effects.** Each branch of the loop has a lemma giving its exact effect on the history and on the log:
  - an unknown command;
  - a refused `!stopSelfPrompt`;
  - a late interrupt;
  - an unsafe command;
  - an executed command with and without a result;
  - a conversational reply.

**Module layout.**

- `Turns`: the controller as functions over the agent's state.
- `TurnProperties`: the properties above, proved about those functions.
- `Agents.Agent`: the JavaScript `Agent` class as a Dafny class whose methods update its fields. Each method is proved to leave the object in exactly the state the corresponding function computes. This includes `HandleMessage` with its `for` loop and the stray-command loop.
- `Safety`: the two text rules around the foreign models:
  - the verdict `startsWith("SAFE")` on the trimmed reply, where a failed call is a denial;
  - how the JSON payload is cut out of `<answer>` tags.
- `Agents`: also holds the continue-mode timer and its status reply.
- `Events`: the `time` and `health` handlers, and the delay arithmetic of the fixed-delay update loop.
- `Gpt`: the OpenAI client's constructor defaults, and `sendRequest` reshaping the caller's message list in place. The request body holds a reference to that same list.
- `Keys`: the API-key lookup (`getKey`, `hasKey`).
- `Text`: the JavaScript string operations these rely on: `indexOf`, `trim`, `substring`, `startsWith`, and number rendering.

**Conventions.**

- A JavaScript value that is `null`, `undefined` or the empty string is falsy. Strings stand for all of them with `""`.
- Integers are unbounded.

**Quirks modelled as written.**

- `indexOf('<answer>') + 8` is never -1. So a reply without an opening tag is read from index 7, and when its closing tag starts before index 7, `substring` swaps its bounds and reads from the tag to index 7 (`Safety.MissingOpenTagReadsFromSeven`).
- The second interrupt check comes before the safety call.
- `history.save()` at the end of the loop body runs only after a command returned a result.
- The non-verbose branch builds a short chat message but chats the full reply, so both branches chat the same text.
- `!newAction` adds the user's message to the history before the safety check.

## Model

| member | source | states |
|---|---|---|
| Text.IndexOfFirst | src/agent/agent.js:225-226 | `indexOf` finds the first occurrence: there is no match before the index it returns, and none at all when it returns -1 |
| Text.TrimStartShape | src/agent/agent.js:524 | the start of `trim` removes exactly a leading run of whitespace and leaves a suffix that starts with a non-space |
| Text.TrimEndShape | src/agent/agent.js:524 | the end of `trim` removes exactly a trailing run of whitespace and leaves a prefix that ends with a non-space |
| Text.NatToStringRoundTrip | src/agent/agent.js:488 | the decimal rendering of a timer below 10^21 in a template literal reads back as the same number |
| Text.IntToStringInjective | src/agent/agent.js:488 | two different numbers never render as the same text, negatives included |
| Keys.GetKey | src/utils/keys.js:13-22 | a truthy key in the file wins; otherwise a truthy environment variable is used; otherwise the lookup fails with the not-found message; a returned key is never empty |
| Keys.HasKeyIffGetKeySucceeds | src/utils/keys.js:24-26 | `hasKey` is true exactly when `getKey` would return rather than throw |
| Keys.NoKeysFileFallsThrough | src/utils/keys.js:4-21 | without a usable keys file, every lookup is answered by the environment alone |
| Gpt.Shaped | src/models/gpt.js:24-34 | no system message leaves the list unchanged; ordinary models get a system entry in front with the old list after it; o1 models merge the text into a leading user message, or else put it in front as a user message |
| Gpt.ShapedKeepsConversation | src/models/gpt.js:24-34 | shaping never loses the conversation: dropping the front entry gives back the old list, or its tail plus a first message that still ends with the old content |
| Gpt.GPT.constructor | src/models/gpt.js:5-14 | a falsy model name becomes gpt-3.5-turbo and a falsy url becomes the OpenAI url; the endpoints are fixed; the o1 flag holds exactly when the name starts with `o1-`; the client key is the non-empty value `getKey` returns |
| Gpt.GPT.SendRequest | src/models/gpt.js:16-62 | the caller's list is reshaped in place as `Shaped` says; the body holds that same list object with temperature 0.7 and 1000 tokens; the answer is the reply content, or the fixed apology on any failure |
| Safety.VerdictReadsFirstWord | src/agent/agent.js:524-530 | a failed safety call is never SAFE; otherwise the verdict is SAFE exactly when the reply, with leading whitespace removed, starts with SAFE, whatever trails |
| Safety.UnsafeIsDenied | src/agent/agent.js:524-526 | an answer whose first word is UNSAFE is a denial, although it contains SAFE |
| Safety.SafeWithRationale | src/agent/agent.js:524-526 | SAFE after any leading whitespace and followed by any rationale is an approval |
| Safety.AnswerPayload | src/agent/agent.js:224-229 | a payload is found exactly when the reply has a closing answer tag; the opening tag's absence does not matter |
| Safety.WellTaggedAnswer | src/agent/agent.js:224-229 | a reply laid out as instructed yields the trimmed text between the tags, whatever the payload holds, provided the first closing tag is the one after it |
| Safety.MissingOpenTagReadsFromSeven | src/agent/agent.js:225-229 | without an opening tag, the payload is read from index 7 up to the first closing tag; a closing tag that starts before index 7 makes `substring` read from the tag to index 7 instead |
| Turns.CleanChat | src/agent/agent.js:159-163 | the chatted text has no newline, is never shorter than the message, and is the message itself when it had none |
| Turns.CleanChatChar | src/agent/agent.js:159-163 | a newline becomes exactly two spaces, and every other character is kept |
| Turns.CleanChatAppend | src/agent/agent.js:159-163 | the text of a concatenation is the concatenation of the texts, so characters are replaced one by one and kept in order |
| Turns.Fetch | src/agent/agent.js:299-304 | the script cursor stays within the script answers, fetching a reply does not change the history, and exactly one reply is logged: the scripted answer handed out, or the language-model request |
| Turns.Run | src/agent/agent.js:295-362 | the script cursor stays within the script answers through the whole loop |
| Turns.Handle | src/agent/agent.js:255-366 | the script cursor stays within the script answers after a whole `handleMessage` |
| TurnProperties.SafeLogMeans | src/agent/agent.js:276-281 | the step-by-step gate predicate means: every execution or dispatch in the log follows a SAFE verdict on the same text, with only chat lines in between |
| TurnProperties.VetCommandsStray | src/agent/agent.js:232-246 | the stray pass adds only verdicts on, and dispatches of, strings starting with '/', and every dispatch directly follows a SAFE verdict on that string |
| TurnProperties.VetCommandsGated | src/agent/agent.js:232-246 | the stray loop keeps the gate, takes no reply and executes nothing |
| TurnProperties.VetItemGated | src/agent/agent.js:233-244 | one element of the parsed list keeps the gate, takes no reply and executes nothing |
| TurnProperties.ExtractCallsGated | src/agent/agent.js:216-252 | the whole stray pass keeps the gate |
| TurnProperties.StrayDispatchVetted | src/agent/agent.js:228-246 | every dispatch is of a string starting with '/' and directly follows a SAFE verdict on it; a failed call, a missing closing tag or a parse result that is not a list adds nothing but the request |
| TurnProperties.ConversationEndsLoop | src/agent/agent.js:352-359 | a reply without a command is appended once under the agent's name, runs the stray pass and ends the loop without executing anything |
| TurnProperties.UnknownCommandNoted | src/agent/agent.js:310-316 | an unknown command appends the truncated reply and then the does-not-exist note, calls nothing and continues |
| TurnProperties.StopSelfPromptRefused | src/agent/agent.js:317-320 | `!stopSelfPrompt` while self-prompting is never run: the refusal note is appended and the loop continues |
| TurnProperties.LateInterruptDropsCommand | src/agent/agent.js:322 | an interrupt raised at the second check ends the loop before the safety call, with nothing run |
| TurnProperties.UnsafeCommandNoted | src/agent/agent.js:322-329 | an unsafe verdict appends the not-executed note and continues, with nothing run |
| TurnProperties.ExecutedCommandResult | src/agent/agent.js:331-350 | a SAFE command is chatted and then executed; a non-empty result is appended as a system turn and the loop goes on, an empty one ends it |
| TurnProperties.RespondExecutedLogged | src/agent/agent.js:325-345 | an executed command keeps the gate and is the one execution the pass records |
| TurnProperties.RespondCounts | src/agent/agent.js:306-360 | any response keeps the gate, takes no further reply, and records one execution exactly when it reports one |
| TurnProperties.IterateCounts | src/agent/agent.js:296-360 | one pass of the loop keeps the gate and takes at most one reply, scripted or from the language model |
| TurnProperties.RunCounts | src/agent/agent.js:295-362 | the loop keeps the gate, only extends the log, takes at most one reply per pass, and its used flag is set exactly when something was executed |
| TurnProperties.UserUnsafeRefused | src/agent/agent.js:276-279 | on the user path, an unsafe verdict is chatted back and nothing runs |
| TurnProperties.UserCommandExecuted | src/agent/agent.js:281-284 | on the user path, a SAFE command runs once, and a non-empty result is chatted |
| TurnProperties.UserExecutedLogged | src/agent/agent.js:276-284 | a user's SAFE command keeps the gate and is the one execution recorded |
| TurnProperties.UserCommandCounts | src/agent/agent.js:263-285 | the user path keeps the gate, takes no reply, and reports use exactly when it executed |
| TurnProperties.HandleKeepsLog | src/agent/agent.js:255-366 | `handleMessage` keeps the gate, only extends the log, and returns true exactly when it executed |
| TurnProperties.HandleCounts | src/agent/agent.js:255-366 | `handleMessage` keeps the gate, only extends the log, takes no more replies than its pass limit, and returns true exactly when it executed |
| TurnProperties.HandleKeepsGate | src/agent/agent.js:255-366 | every execution or dispatch of a `handleMessage` follows a SAFE verdict on exactly that text in the same step |
| TurnProperties.HandleBudget | src/agent/agent.js:257-296 | at most `max_responses` replies, scripted or from the language model, or `settings.max_commands` when it is null, and at most one when someone else speaks while self-prompting |
| TurnProperties.HandleReportsExecution | src/agent/agent.js:255-366 | the result is true exactly when at least one command was executed |
| TurnProperties.UserCommandPath | src/agent/agent.js:263-285 | a user command runs no loop: only `!newAction` adds the message to the history; an unknown name returns false after one chat line; a known one returns the safety verdict |
| TurnProperties.ProceedOnlyAfterResult | src/agent/agent.js:347-361 | only an executed command with a non-empty result reaches the `history.save()` at the end of the loop body |
| TurnProperties.ShutUpSilencesLoop | src/agent/agent.js:288-296 | with `shut_up` set, a message that reaches the loop is recorded, but no reply is taken, nothing runs and the result is false |
| Agents.ContinueStatusInjective | src/agent/agent.js:488 | the status reply determines the mode and the timer: different settings never read the same |
| Agents.Agent.constructor | src/agent/agent.js:53-75 | script mode off, the six scripted answers, cursor 0, continue mode on with a 10-second timer and no interval running |
| Agents.Agent.CleanChat | src/agent/agent.js:159-163 | one chat line with the newlines replaced is sent, and the gate over the log is kept |
| Agents.Agent.ShutUp | src/agent/agent.js:165-170 | the flag is raised, the self-prompter is told to stop exactly when it is on, and the object invariant is kept |
| Agents.Agent.EvaluateCommand | src/agent/agent.js:497-531 | one safety call is made, its verdict is the one `Verdict` reads from the reply, and the gate over the log is kept |
| Agents.Agent.ExtractCommandLLM | src/agent/agent.js:172-253 | the log grows exactly as the stray pass `ExtractCalls` says |
| Agents.Agent.VetList | src/agent/agent.js:232-246 | the loop over the parsed list logs exactly what `VetCommands` says |
| Agents.Agent.Iteration | src/agent/agent.js:296-304 | one pass updates the history, cursor and log exactly as `Iterate` says |
| Agents.Agent.Response | src/agent/agent.js:306-360 | the handling of a reply updates the object exactly as `Respond` says |
| Agents.Agent.UserCommandStep | src/agent/agent.js:263-285 | the user path updates the object and returns exactly as `UserCommand` says |
| Agents.Agent.ResponseLoop | src/agent/agent.js:295-362 | the `for` loop with its `continue` and `break` ends in the state `Run` computes |
| Agents.Agent.HandleMessage | src/agent/agent.js:255-366 | the new history, cursor and log, and the result, are those of `Handle`; the object invariant, which includes the gate over the whole log, is kept; the log only grows and the result is true exactly when a command was executed |
| Agents.Agent.HandleContinueCommand | src/agent/agent.js:475-479 | when idle, the agent handles the continue prompt as a system message; otherwise nothing changes |
| Agents.Agent.ContinueTick | src/agent/agent.js:461-465 | a firing of the continue timer acts only in continue mode and when idle |
| Agents.Agent.StartContinueTimer | src/agent/agent.js:457-466 | the running continue timer is replaced by a new one with the current period in milliseconds, so at most one runs |
| Agents.Agent.StopContinueTimer | src/agent/agent.js:468-473 | no continue timer runs afterwards and the handle is cleared |
| Agents.Agent.SetContinueMode | src/agent/agent.js:481-489 | the mode is set; a given timer sets the period and restarts the one timer with it; without one the timer is untouched; the reply is the status text |
| Events.TimeEventExact | src/agent/agent.js:370-379 | each of sunrise, noon, sunset and midnight is emitted exactly at its own tick |
| Events.TimeEventSilent | src/agent/agent.js:370-379 | every other time of day emits nothing |
| Events.DamageTracker.constructor | src/agent/agent.js:381-383 | the tracker starts from the current health with no damage recorded |
| Events.DamageTracker.OnHealth | src/agent/agent.js:384-390 | a drop records its time and its positive size; a rise or no change keeps the last record; the new health is remembered either way |
| Events.GapBounds | src/agent/agent.js:428-434 | consecutive updates start at least the 300 ms interval apart and never overlap; with an exact timer the gap is the longer of the interval and the update |
| Events.UpdateLoop | src/agent/agent.js:423-436 | each update receives the time since the previous one began, which is the gap `Gap` gives; the first starts after the initial 300 ms timeout |

## Left out

- Unbounded budget: when `settings.max_commands` is -1 and no `max_responses` is given, the loop is unbounded. The model stops it after `Env.horizon` passes as if the budget had run out: `Handle` then logs `finished_executing` and returns, which the program never does with an unbounded budget while the loop goes on.
- `shut_up` is read once per `handleMessage`. A command executor that calls `shutUp` while the loop runs is not modelled.
- Not part of this model: `History`, `SelfPrompter`, `Prompter` and the command registry in `commands/index.js`. Their calls are inputs, or entries in the call log.
- Agents.Agent.ShutUp: `self_prompter.stop(false)` is recorded in the log. Its effect on the self-prompter's `on` flag is not modelled, because `SelfPrompter` is not part of this model.
- Collaborators that throw: `handleMessage` has no `try`/`catch`. When `executeCommand`, `history.add` or `promptConvo` throws, the call is rejected, and `finished_executing` is never emitted. The model assumes every collaborator returns; only the model calls inside `evaluateCommand`, `ExtractCommandLLM` and `sendRequest`, which catch their errors, have a failure case.
- Concurrency: `await` points, messages arriving while a `handleMessage` is still running, and timers firing in between are not modelled. Each method runs to completion.
- Network and SDK calls are inputs: the Anthropic client, `openai.chat.completions.create` and `fetch`. A reply is a value, or a failure.
- Gpt.GPT.SendRequest: the choice between the SDK and `fetch`, the URL, and the headers are not modelled (src/models/gpt.js:40-55). Both routes collapse into one `ApiReply`.
- Gpt.GPT.SendRequest: for o1 models, `messages[0].content` is assigned in place (src/models/gpt.js:27), so the caller's first message object changes, and so does every other holder of that object. Messages are values here: the list holds the rewritten message, but other references to the old message object are not modelled.
- Gpt.GPT.constructor: the requirement that a key exists stands for the exception `getKey` throws. The throwing path itself is not modelled.
- `GPT.embed` is not modelled. It is a network call with no logic of its own.
- The prompt texts sent to the models are not modelled. They are opaque strings.
- Logging is not modelled: the `console.log` replacement, the log directory and the file appends.
- Process lifecycle is not modelled: `start`, `cleanKill` with `process.exit`, and the `main.js` bootstrap.
- Agents.Agent.constructor: the agent's name is a constructor parameter rather than being read in `start`. The Anthropic clients are not built.
- Event wiring is not modelled:
  - the `bot.on` subscriptions;
  - the chat listener that resets `shut_up` and filters messages;
  - the `error`, `end`, `death`, `kicked`, `messagestr` and `idle` handlers;
  - `initModes`, the auto-eat options and the NPC controller.
- Events.UpdateLoop: the `while (true)` loop is followed for finitely many rounds. The `update` calls into the modes and the self-prompter are not modelled, only the times at which they happen. The clock is given by the durations and the timer lateness.
- `JSON.parse` and the reading of `keys.json` are inputs.
- Keys.GetKey: values in `keys.json` are taken to be strings. A non-string value, such as a number, is not modelled.
- JavaScript numbers are not modelled exactly:
  - Text.NatToStringRoundTrip: a number is rendered in plain decimal; JavaScript writes values of 10^21 and above in exponent form (`1e+21`), which is not modelled;
  - timer periods and times are integers;
  - health is a real number;
  - `NaN` and `Infinity` as inputs are not modelled.
- Timer handles are numbers handed out by a counter, standing for the objects `setInterval` returns.
- The coder's `executing` and `generating` flags are fields set from outside. The coder is not part of this model.
