# ts.llm-playground, modelled in Dafny

A Dafny model of the core of *ts.llm-playground*, a relay between a chat front end (a Telegram bot, or a terminal) and a large language model. What is modelled:

- the chat transcript: a prompt plus user, assistant and system messages, with undo, and save/load as a JSON document (`chat.ts`, and the richer chat the interpreters use, with a story, summaries and a model name);
- how a chat becomes a completion request (`LlmClient`, `TtyCore.ToCompletionRequest`);
- the slash-command interpreters: the terminal's (`src/tty/command.ts`, `src/core/tty/command-handler.ts`), the Telegram command service (`src/service/chat-command.ts`) and the Telegram worker's (`src/worker/telegram-command.ts`). Each covers parsing, session file names, prompt and model choice, retry, history and debug output;
- the terminal loop with its ping latch and `/exit`, and the pipeline of input handlers (`src/core/tty`);
- the Telegram client's splitting of long text into chunks no longer than the configured limit, each cut made at the last line break or space within the limit, whichever comes later, or at the limit when there is neither;
- the Telegram and queue workers: the per-chat lock, loading or creating the chat entity, routing a command or a message, persisting the chat and releasing the lock.

Side effects are confined to one class, `Effects.World`. It holds a trace of the calls made (Telegram sends, LLM requests, file reads and writes, repository saves, terminal writes), a map of files and a map of stored rows. A fallible external call returns an arbitrary outcome. Every contract about an operation is therefore stated as the events it adds to the trace and the state it leaves behind.

## Model

| member | source | states |
|---|---|---|
| ChatCommand.ActionOf | src/service/chat-command.ts:37-74 | a verb is handled exactly when it is one of the twelve case labels; "p", "prompts" and "prompt" all list prompts, "h" and "history" both show the history; verbs are case-sensitive |
| ChatCommand.SavedSessionLoads | src/service/chat-command.ts:77-97 | a chat saved under a name that `load` accepts is read back from the same file and hydrates to the same chat |
| ChatCommand.Service.Handle | src/service/chat-command.ts:31-75 | as `Handled` states: input that is not a command fails with "Invalid input" with nothing done; a command is dispatched on its verb with the whole effect `Dispatched` gives it; `done` is set exactly for `/exit`; the stored entity under the context's remote id is removed exactly by a `/reset` whose removal passes, and no other stored chat changes; the trace only grows |
| ChatCommand.Service.Dispatch | src/service/chat-command.ts:37-74 | each verb as `Dispatched` states: `/exit` does nothing more; `/save` and `/load` as their handlers, then "Chat saved" or "Chat loaded" only when they passed; `/undo` undoes once and repaints; `/retry`, `/prompts` and `/history` as their handlers; `/reset` runs the context's `reset`, which removes the stored entity and then clears the chat, and writes "Chat reset" only when that succeeds; `/debug` writes the dehydrated document as one quoted JSON string; an unknown verb only writes "Invalid command" |
| ChatCommand.Service.Save | src/service/chat-command.ts:77-88 | a bad name fails with "Invalid file name" before anything is written; otherwise exactly the dehydrated chat is written to `<sessions>/<name>.json` (name "last_session" for no argument), and the file holds it when the write succeeds |
| ChatCommand.Service.Load | src/service/chat-command.ts:90-97 | a bad name fails with "Invalid sessions id" before any read; otherwise `<sessions>/<name>.json` is read; a missing file or an unreadable document leaves the chat as it was, and a readable one becomes the chat |
| ChatCommand.Service.Reset | src/service/chat-command.ts:65-67 | the context's `reset` runs first: the stored entity under the context's remote id is removed and, only when that passes, the chat cleared and "Chat reset" written; a failed removal leaves the store and the chat as they were; the files are unchanged |
| ChatCommand.Context.Reset | src/bin/worker/telegram-queue-worker.ts:67-70 | the entity is removed from the store first, and the chat is cleared only when that succeeds; a failed removal leaves the store and the chat as they were |
| ChatCommand.StoreAfter | src/bin/worker/telegram-queue-worker.ts:67-70 | after a command, the entity's key is gone exactly when it was absent or a `/reset` passed; every other key and row is kept |
| ChatCommand.Service.Retry | src/service/chat-command.ts:99-109 | without a user message nothing happens; otherwise the chat is undone once, the last user message is added back, and `retry` is called with a chat whose last message is that message |
| ChatCommand.Service.Prompts | src/service/chat-command.ts:112-148 | the folder is listed first; for no argument the sorted prompt names are written joined by newlines; otherwise the choice (1-based offset or exact name) fails with its error or its file becomes the prompt; a failed listing changes nothing |
| ChatCommand.Service.Choose | src/service/chat-command.ts:121-146 | a bad offset or an unknown name fails with its message and does nothing; otherwise the chosen file is loaded as `PromptLoaded` states |
| ChatCommand.Service.LoadPrompt | src/service/chat-command.ts:137-146 | a missing file fails with "File not found" and leaves the prompt; a present one becomes the prompt and "Prompt loaded." is written |
| ChatCommand.Service.History | src/service/chat-command.ts:150-158 | "History is empty" without histories; otherwise "History:" and then the histories joined by newlines, the second write only when the first succeeds |
| TelegramCommand.ActionOf | src/worker/telegram-command.ts:33-70 | a verb is handled exactly when it is one of the fifteen case labels |
| TelegramCommand.Aliases | src/worker/telegram-command.ts:44-67 | "p"/"prompt"/"prompts", "h"/"history", "s"/"story" and "m"/"model"/"models" reach the same handler |
| TelegramCommand.ResetAbbreviation | src/worker/telegram-command.ts:188-214 | every non-empty prefix of "history", "story", "prompt" or "messages" resets exactly that field |
| TelegramCommand.ResetTrailingSpace | src/worker/telegram-command.ts:189-214 | a reset word followed by a space resets nothing, because only blank arguments are trimmed |
| TelegramCommand.Interpreter.Handle | src/worker/telegram-command.ts:27-71 | as `Handled` states: input that is not a command fails with "Invalid input" with nothing done; a command is dispatched on its verb with the whole effect `Dispatched` gives it for the bot's prompts folder; `done` is set exactly by `/exit`; the stored chats are untouched and the trace only grows |
| TelegramCommand.Interpreter.Dispatch | src/worker/telegram-command.ts:41-67 | each verb as `Dispatched` states: `/undo` undoes once and replies "Message undone."; `/retry`, `/prompts`, `/history`, `/model`, `/debug` and `/reset` as their handlers; `/story` with arguments sets the story and nothing else; an unknown verb replies "Invalid command" |
| TelegramCommand.HandledKeepsFiles | src/worker/telegram-command.ts:27-71 | no command, handled as `Handled` states, changes the files |
| TelegramCommand.Interpreter.Retry | src/worker/telegram-command.ts:73-84 | without a user message nothing happens; otherwise the chat is undone once, the last user message added back, "Retrying" replied and, when that reply succeeds, the chat handed to `sendRequest` ending with that message |
| TelegramCommand.Interpreter.Prompts | src/worker/telegram-command.ts:87-126 | the bot's folder is created and listed; no prompt files replies "No prompt available."; no argument replies the names numbered from 0; otherwise the choice (0-based offset or exact name) fails with its error or its file becomes the prompt |
| TelegramCommand.Interpreter.Choose | src/worker/telegram-command.ts:93-125 | once the folder is listed: no prompt file replies "No prompt available.", no argument replies the names numbered from 0, a bad choice fails with its error and does nothing, and a good one is loaded as `PromptLoaded` says |
| TelegramCommand.PromptsAsWrittenSilent | src/worker/telegram-command.ts:88-90 | as written, `/prompts` fails at `mkdir` with nothing listed, replied or loaded, where the intended handler always lists the bot's folder |
| TelegramCommand.Interpreter.LoadPrompt | src/worker/telegram-command.ts:115-124 | a missing file fails with "File not found" and leaves the prompt; a present one becomes the prompt and "Prompt loaded." is replied |
| TelegramCommand.Interpreter.History | src/worker/telegram-command.ts:128-136 | "History is empty" without histories; otherwise "History:" and the histories joined by newlines, the second reply only after the first succeeds |
| TelegramCommand.Interpreter.Story | src/worker/telegram-command.ts:138-143 | empty arguments change nothing; otherwise the story becomes the arguments and nothing else changes |
| TelegramCommand.Interpreter.Model | src/worker/telegram-command.ts:145-169 | the provider's models are asked for; none replies "No models available."; no argument replies the numbered list; a choice that is not one of the models replies "Invalid models selected"; otherwise it becomes the chat's model and "Model selected." is replied |
| TelegramCommand.Interpreter.Debug | src/worker/telegram-command.ts:178-186 | exactly one reply: the document of prompt, story, shortened messages and model |
| TelegramCommand.Interpreter.Reset | src/worker/telegram-command.ts:188-214 | blank arguments clear the chat; otherwise the first field among history, story, prompt and messages that the arguments abbreviate is cleared with its confirmation; none changes nothing and replies nothing |
| CmdStack.DefaultTable | src/core/chat/cmd/index.ts:39-45 | the default table has exactly the keys "/undo", "/save", "/load", "/exit" and "/retry" |
| CmdStack.DefaultKey | src/core/chat/cmd/index.ts:26-34 | the lookup key is the slash and the verb, so a command reaches a default handler exactly when its verb is one of the five |
| CmdStack.DigitEndsVerb | src/core/chat/cmd/index.ts:26-31 | the verb is only letters: "/cmd2" looks up "/cmd" with the argument "2", so a table key holding a digit is never reached |
| CmdStack.UndoCountDefault | src/core/chat/cmd/handler/undo-handler.ts:14 | no argument and "0" both give a count of 2 |
| CmdStack.UndoCountOf | src/core/chat/cmd/handler/undo-handler.ts:14 | a positive number written in decimal is the count |
| CmdStack.UndoCountNegative | src/core/chat/cmd/handler/undo-handler.ts:14-17 | a negative number is read as such, so the handler refuses it |
| CmdStack.SavedLoads | src/core/chat/cmd/handler/save-handler.ts:12-23 | a conversation saved under a name `load` accepts is read back from `<var>/session/<name>.json`, restores prompt and messages, and calls the follow-up callback |
| CmdStack.SaveThenLoad | src/core/chat/cmd/handler/load-handler.ts:13-21 | with the path the handler tests expect, `/save` then `/load` with the same accepted name restores the saved conversation, whatever it became in between, and calls `print` |
| CmdStack.SaveThenLoadAsWritten | src/core/chat/cmd/handler/save-handler.ts:21-22 | as written, the path is handed to the file system as an array, so `/save` fails with the files unchanged and `/load` of the same name fails leaving the conversation as it was, not the saved one |
| CmdStack.CmdHandlerStack.Handle | src/core/chat/cmd/index.ts:25-36 | input that is not a slash and letters fails with "Invalid input", a key missing from the table with "Invalid command", both with nothing done; otherwise exactly the handler under the key runs with the arguments, as `Handled` states |
| CmdStack.Run | src/core/chat/cmd/index.ts:35 | the handler found runs as `Handled` states; `/exit` and `/retry` only call the context's `exit` and `retry` |
| CmdStack.Undo | src/core/chat/cmd/handler/undo-handler.ts:11-20 | a count that is not positive fails with "Invalid undo count" and changes nothing; otherwise the last `count` messages (all, when fewer) are dropped and `print` is called |
| CmdStack.Save | src/core/chat/cmd/handler/save-handler.ts:12-23 | a bad name fails with "Invalid file name" and writes nothing; otherwise exactly one write of the dehydrated conversation to `<var>/session/<name>.json` |
| CmdStack.Load | src/core/chat/cmd/handler/load-handler.ts:13-21 | a bad name fails with "Invalid session id" before any read; otherwise `<var>/session/<name>.json` is read, the conversation becomes its contents and `print` is called; a missing file or an unreadable document changes nothing |
| CmdStack.DefaultStack | src/core/chat/cmd/index.ts:39-45 | the exported stack holds the default table and the variable-data folder it is given |
| TtyPipeline.PipelineRequestVsTty | src/core/tty/handler/completion-handler.ts:5-17 | the request always leads with the prompt as a system message, even an empty one, then the messages (length 1 + messages); it equals the TTY's own request for a chat without histories exactly when the prompt is set |
| TtyPipeline.RetryIdempotent | src/core/tty/handler/input-handler.ts:76-86 | after a retry the last message is the last user message, so a second retry changes nothing more and asks the same again |
| TtyPipeline.SaveThenLoadInput | src/core/tty/handler/input-handler.ts:52-74 | `/save` then `/load` with the same name, which load accepts, restores the saved conversation |
| TtyPipeline.SayThenUndo | src/core/tty/handler/input-handler.ts:17-41 | a plain line then `/undo` leaves the messages before the line minus the last one, with `request`, `next`, `next` called |
| TtyPipeline.InputHandler.Handle | src/core/tty/handler/input-handler.ts:15-50 | a line without "/" becomes a user message, then `request()` and `next()`; a malformed command fails with "Invalid input" and changes nothing; commands go as `CommandHandled` states |
| TtyPipeline.InputHandler.Command | src/core/tty/handler/input-handler.ts:28-49 | `exit` only calls `done()`; `save`/`load` call `next()` only once they succeed; `undo` drops two messages and calls `next()`; `retry` retries then calls `next()`; other verbs fail with "Invalid command" and change nothing |
| TtyPipeline.InputHandler.Save | src/core/tty/handler/input-handler.ts:52-64 | a bad name fails with "Invalid file name"; otherwise the dehydrated conversation is written to `<sessions>/<name>.json` and `next()` follows only a successful write |
| TtyPipeline.InputHandler.Load | src/core/tty/handler/input-handler.ts:66-74 | a bad name fails with "Invalid sessions id" before any read; otherwise the file is read and hydrated, and `next()` follows only success |
| TtyPipeline.InputHandler.Retry | src/core/tty/handler/input-handler.ts:76-86 | without a user message nothing happens; otherwise the messages become the prefix up to and including the last user message and `request()` is called |
| TtyPipeline.Complete | src/core/tty/handler/completion-handler.ts:22-30 | without a pending request only `next()` is called; otherwise exactly one completion of `[system prompt] + messages`, and the answer, when there is one, is added as one assistant message, with no `next()` |
| TtyPipeline.PingHandler.Handle | src/core/tty/handler/ping-handler.ts:7-15 | once `isDone`, only `next()`; before that one ping, and only a successful one sets `isDone` and calls `next()`; a failed ping leaves `isDone` false so the next call pings again |
| TtyCore.ToCompletionRequest | src/core/tty/index.ts:6-28 | the request holds one system message for a non-empty prompt, one for non-empty histories, and ends with exactly the chat's messages |
| TtyCore.ClientRequest | src/core/tty/index.ts:6-28 | the terminal's request of a chat is the completion client's request of the same chat with its story setting cleared |
| TtyCore.StoryNotSent | src/core/tty/index.ts:6-28 | changing only the story setting does not change the request |
| TtyCore.SummaryRequest | src/core/tty/index.ts:106-120 | the summariser is asked with its prompt first, the earlier summaries as one history message when there are any, and last the request to summarise the given text |
| TtyCore.Summarised | src/core/tty/index.ts:99-103 | a story summarised as `handleHistory` does is, once repainted after a success, handled as the answer step of `handleRequest` |
| TtyCore.Answered | src/core/tty/index.ts:95-99 | a request that was answered and then handled as the answer step is handled as `handleRequest` as a whole: the chat is sent first |
| TtyCore.AnswerSummarised | src/core/tty/index.ts:98-120 | after an answer the summariser is asked about exactly that answer, and the answer stays the chat's last message whether or not a summary came |
| TtyCore.TtyContext.Done | src/core/tty/index.ts:46-48 | `done()` sets the flag |
| TtyCore.TtyContext.Repaint | src/core/tty/index.ts:50-55 | the screen is cleared, then every message is written once, in order |
| TtyCore.TtyContext.Retry | src/core/tty/index.ts:57-59 | `retry()` runs the terminal's `handleRequest` on the context's chat, as `RequestHandled` states: the chat is sent, the answer added, the story summarised and the screen repainted, with exactly those events |
| TtyCore.ActionOf | src/core/tty/command-handler.ts:29-57 | a verb is unknown exactly when it is none of the ten the switch names, aliases included |
| TtyCore.ExitIsExitCommand | src/core/tty/command-handler.ts:24-31 | a line stops the loop exactly when it parses as a command whose verb is "exit" |
| TtyCore.PlainLineNotExit | src/core/tty/index.ts:83-87 | a line that does not start with a slash is never `/exit` |
| TtyCore.CommandHandler.Handle | src/core/tty/command-handler.ts:23-59 | as `Handled` states: input that is not a command fails with "Invalid input" with nothing done; a command is dispatched on its verb as `Dispatched` states; only `/exit` sets the flag |
| TtyCore.CommandHandler.Dispatch | src/core/tty/command-handler.ts:33-54 | each verb as `Dispatched` states: `/exit` only calls `done()`; `/undo` undoes once and repaints; `/save`, `/load`, `/retry`, `/prompts` and `/history` as their handlers; an unknown verb fails with "Invalid command" and does nothing |
| TtyCore.CommandHandler.Save | src/core/tty/command-handler.ts:61-72 | a bad name fails with "Invalid file name" and writes nothing; otherwise exactly one write of the dehydrated chat to `<sessions>/<name>.json`, "last_session" when no name is given |
| TtyCore.CommandHandler.Load | src/core/tty/command-handler.ts:74-81 | a bad name fails with "Invalid sessions id" before any read; otherwise `<sessions>/<name>.json` is read and, when present and readable, becomes the chat; any failure leaves the chat as it was |
| TtyCore.CommandHandler.Retry | src/core/tty/command-handler.ts:83-93 | without a user message nothing happens; otherwise the chat is undone once, the last user message is added back, and that chat is handled as `handleRequest` does (`RetryDone`): the request sent ends with the message, and the answer, summary and repaint follow |
| TtyCore.RetryAnswered | src/core/tty/command-handler.ts:88-92 | a `/retry` that passes leaves the last user message followed by the new answer, one more summary, and the screen repainted with the resulting chat |
| TtyCore.RequestPassed | src/core/tty/index.ts:95-104 | a `handleRequest` that passes adds exactly the answer and one summary, and ends by repainting the chat |
| TtyCore.CommandHandler.Prompts | src/core/tty/command-handler.ts:96-131 | the folder is listed first; no argument writes the prompt names in sorted order, one per line; otherwise an offset counted from 1 or a name chooses the prompt file, whose text becomes the prompt with "Prompt loaded." written, and a missing file fails with "File not found" |
| TtyCore.CommandHandler.Choose | src/core/tty/command-handler.ts:105-130 | a bad offset or an unknown name fails with its message and does nothing; otherwise the chosen file is loaded as `PromptLoaded` says |
| TtyCore.CommandHandler.History | src/core/tty/command-handler.ts:133-141 | "History is empty", or "History:" followed by the summaries joined by line breaks |
| TtyCore.ExitFlags | src/core/tty/index.ts:82 | one flag per input line |
| TtyCore.LinesRead | src/core/tty/index.ts:79-92 | the loop never reads more lines than there are |
| TtyCore.LinesReadExit | src/core/tty/index.ts:79-92 | the loop reads every line up to and including the first `/exit`, and none after it |
| TtyCore.NoExitReadsAll | src/core/tty/index.ts:79-92 | without an `/exit` every line is read |
| TtyCore.LinesReadAt | src/core/tty/index.ts:79-92 | a line the loop reaches is the last one read exactly when it is an `/exit` |
| TtyCore.Tty.HandleHistory | src/core/tty/index.ts:106-122 | nothing for a story without messages; otherwise exactly the summariser chat about the last message is sent, and its answer, when there is one, becomes one more history; nothing else of the story changes |
| TtyCore.Tty.HandleRequest | src/core/tty/index.ts:95-104 | the chat is sent; a failed answer ends it with the chat unchanged; otherwise the answer is added as an assistant message, the story is summarised and, when that succeeds, the screen is repainted |
| TtyCore.Tty.HandleAnswer | src/core/tty/index.ts:99-103 | the part of `handleRequest` after the answer is added, as the answer step states |
| TtyCore.Tty.Start | src/core/tty/index.ts:76-93 | the provider is pinged before anything else; a failed ping reads no line and changes nothing; otherwise exactly the lines up to the first `/exit` are read |
| TtyCore.Tty.Turn | src/core/tty/index.ts:79-92 | one turn of the loop stops it exactly when its line is `/exit` |
| TtyCore.Tty.Step | src/core/tty/index.ts:80-91 | a turn reports exit exactly for a trimmed line that parses as a command with the verb "exit", such as "/exit now"; a plain line has the request's effect as `RequestHandled` states and a command line the interpreter's as `Handled` states; a failed turn ends with its error printed; stored chats are untouched |
| TtyCore.Tty.Say | src/core/tty/index.ts:83-85 | a plain line is added as a user message, the chat including it is the first thing sent, and the rest follows `RequestHandled`; files and stored chats are untouched |
| TtyCore.Tty.Command | src/core/tty/index.ts:86-88 | a command line is handled in a fresh context whose flag ends up set exactly for `/exit`, with the whole effect the command handler's `Handled` states |
| TtyCore.Tty.Report | src/core/tty/index.ts:89-91 | a failed turn writes exactly its error message as one more line; a passing one writes nothing; files and stored chats are untouched |
| TtyCommand.ActionOf | src/tty/command.ts:34-82 | a verb is unknown exactly when it is none of the seventeen the switch names, aliases included |
| TtyCommand.Interpreter.Handle | src/tty/command.ts:28-83 | as `Handled` states: input that is not a command fails with "Invalid input" with nothing done; a command is dispatched on its verb as `Dispatched` states; `done` is set exactly by `/exit` |
| TtyCommand.Interpreter.Dispatch | src/tty/command.ts:38-79 | each verb as `Dispatched` states: `/exit` does nothing more; `/undo` and `/reset` as below; `/save`, `/load`, `/retry`, `/prompts`, `/history`, `/story`, `/model` and `/debug` as their handlers; an unknown verb only writes "Invalid command" and does not fail |
| TtyCommand.Interpreter.Undo | src/tty/command.ts:44-49 | the chat is undone once, then the screen is cleared and every remaining message written, in order |
| TtyCommand.Interpreter.Reset | src/tty/command.ts:62-66 | the chat is cleared, then the screen, then "Chat reset" is written; the files are untouched |
| TtyCommand.Interpreter.Save | src/tty/command.ts:85-98 | a bad name fails with "Invalid file name" and does nothing; otherwise the folder is made, the dehydrated chat is written to `<sessions>/<name>.json` ("last_session" without a name), and "Chat saved" follows only a successful write |
| TtyCommand.Interpreter.Load | src/tty/command.ts:100-108 | a bad name fails with "Invalid sessions id" before any read; otherwise the file is read and, when present and readable, becomes the chat and "Chat loaded" is written; any failure leaves the chat as it was |
| TtyCommand.Interpreter.Retry | src/tty/command.ts:110-120 | without a user message nothing happens; otherwise the chat is undone once, the last user message is added back, and the chat handed to `sendRequest` ends with that message |
| TtyCommand.Interpreter.Prompts | src/tty/command.ts:123-162 | the folder is made and listed first; no prompt files writes "No prompt available."; no argument writes the numbered listing in folder order; otherwise an offset from 0 or a name chooses the prompt, loaded as `PromptLoaded` says |
| TtyCommand.SaveAsWrittenKeepsNothing | src/tty/command.ts:94-96 | as written, `/save` with a name it accepts fails at `mkdir` with nothing written or printed, where the intended handler first makes the folder and leaves the chat's document at the session's path |
| TtyCommand.BadNameAsWrittenSame | src/tty/command.ts:87-91 | for a name `/save` refuses, the handler as written and as intended fail alike with "Invalid file name" and nothing done |
| TtyCommand.PromptsAsWrittenSilent | src/tty/command.ts:124-126 | as written, `/prompts` fails at `mkdir` with nothing listed, printed or loaded, where the intended handler always lists the folder |
| TtyCommand.Interpreter.LoadPrompt | src/tty/command.ts:151-160 | a readable file becomes the prompt and "Prompt loaded." is written; a missing one fails with "File not found" and changes nothing |
| TtyCommand.Interpreter.History | src/tty/command.ts:164-172 | "History is empty", or "History:" followed by the summaries joined by line breaks |
| TtyCommand.Interpreter.Story | src/tty/command.ts:174-179 | a non-empty argument becomes the story setting; an empty one changes nothing |
| TtyCommand.Interpreter.Model | src/tty/command.ts:181-205 | the models are asked for once; none gives "No models available."; no argument writes the numbered listing; an offset from 0 or a name that is one of the models becomes the chat's model with "Model selected.", anything else writes "Invalid models selected" and changes nothing |
| TtyCommand.Interpreter.Debug | src/tty/command.ts:214-221 | one write of the prompt, the story and the shortened messages, without the model |
| LlmClient.ToCompletionRequest | src/client/llm/index.ts:27-55 | the request is a run of system messages (the prompt, the story setting, the history block, each only when present, in that order) followed by exactly the chat's messages |
| LlmClient.BareTranscript | src/client/llm/index.ts:27-55 | a chat without prompt, story or histories is sent as its bare messages |
| LlmClient.RequestAppend | src/client/llm/index.ts:49-51 | one more message in the chat is one more message at the end of the request, with nothing before it changed |
| LlmClient.SelectProvider | src/client/llm/index.ts:57-70 | exactly "ollama", "openai" and "mock" select a client, each its own; any other name fails with "Invalid chat completion provider" |
| LlmClient.SelectByName | src/client/llm/index.ts:58-67 | every provider is selected by its own name |
| ChatEntities.GetNewChat | src/database/entity/chat.entity.ts:48-58 | the entity of the given conversation always has a lock and a document; the lock expires exactly `ttl` seconds after now when a non-zero ttl is given, and is released otherwise |
| ChatEntities.NewChatHydrates | src/database/entity/chat.entity.ts:51-55 | the stored document is the parsed dehydrated chat, and hydrates back to the given chat, or to an empty chat when none is given |
| ChatEntities.NewChatTtl | src/database/entity/chat.entity.ts:56 | a ttl of 0 is the same as none, without a ttl the lock is released, and the ttl changes nothing but the lock |
| ChatEntities.NewChatDefault | src/database/entity/chat.entity.ts:51 | no chat given is the same as an empty chat given |
| MessageQueue.ExpiryAtNowHolds | src/http/route/webhook/middleware/message-queue.ts:50-53 | a lock expiring exactly now still holds the conversation, and frees it the moment after |
| MessageQueue.Acquired | src/http/route/webhook/middleware/message-queue.ts:30 | taking the lock keeps the conversation and its document, and holds it at that moment |
| MessageQueue.AcquiredHolds | src/http/route/webhook/middleware/message-queue.ts:29-53 | a message admitted at `now` holds the conversation exactly until `now + 60` inclusive |
| MessageQueue.NewChatAdmitted | src/http/route/webhook/middleware/message-queue.ts:44-48 | the entity `initChat` creates is free at any time, so the first message of a conversation is admitted |
| MessageQueue.ReleasedAdmits | src/http/route/webhook/middleware/message-queue.ts:50-53 | a released lock admits; a lock just taken refuses |
| MessageQueue.AdmittedPublishesLast | src/http/route/webhook/middleware/message-queue.ts:29-41 | the update is published at most once, as the last event, right after the store received the entity with the lock taken; a free conversation whose steps all succeed is published |
| MessageQueue.PublishDoneNew | src/http/route/webhook/middleware/message-queue.ts:23-28 | a conversation without an entity is looked up, then created, then admitted |
| MessageQueue.PublishDoneStored | src/http/route/webhook/middleware/message-queue.ts:23-29 | a stored conversation is looked up, then admitted |
| MessageQueue.MessageQueue.Publish | src/http/route/webhook/middleware/message-queue.ts:21-42 | the stored entity is looked up first, created with a released lock when missing; a free conversation is saved with its lock taken for 60 seconds and only then published; a held one is told "A message already in queue. Please wait" with nothing saved or published; a failed step ends the call |
| MessageQueue.MessageQueue.PublishNew | src/http/route/webhook/middleware/message-queue.ts:26-28 | a new entity is stored, then admitted |
| MessageQueue.MessageQueue.Admit | src/http/route/webhook/middleware/message-queue.ts:29-41 | the lock step as intended, as `Admitted` states: a held conversation is told "A message already in queue. Please wait" in its own chat |
| MessageQueue.HeldAsWrittenSilent | src/http/route/webhook/middleware/message-queue.ts:35-40 | as written, a held conversation's chat id is read where the payload has none, so the step fails with nothing replied, saved or published, where the intended step replies |
| MessageQueue.FreeAsWrittenSame | src/http/route/webhook/middleware/message-queue.ts:29-34 | for a free conversation the step as written is exactly the intended one |
| MessageQueue.MessageQueue.InitChat | src/http/route/webhook/middleware/message-queue.ts:44-48 | the new entity with a released lock is saved, once, and stored when the save succeeds |
| CoreChat.HydrateDehydrate | src/core/chat/chat.ts:38-49 | reading back what `dehydrate()` wrote restores exactly the prompt and the messages |
| CoreChat.HydrateDefaults | src/core/chat/chat.ts:45-49 | a document without `prompt` and `messages` (or one that is not an object) gives the empty prompt and no messages |
| CoreChat.Chat.constructor | src/core/chat/chat.ts:6-8 | a new chat has the empty prompt and no messages |
| CoreChat.Chat.AddSysMsg | src/core/chat/chat.ts:10-15 | one system message with the text is appended and the prompt is kept |
| CoreChat.Chat.AddUserMsg | src/core/chat/chat.ts:17-22 | one user message with the text is appended and the prompt is kept |
| CoreChat.Chat.AddAssistantMsg | src/core/chat/chat.ts:24-29 | one assistant message with the text is appended and the prompt is kept |
| CoreChat.Chat.Undo | src/core/chat/chat.ts:31-36 | a negative count fails with "Illegal input" and changes nothing; 0 empties the messages (`slice(0, -0)`); a positive count drops the last `count` messages, all of them when there are fewer |
| CoreChat.Chat.Hydrate | src/core/chat/chat.ts:45-49 | readable text assigns the prompt and the messages it holds; unreadable text (including a raw control character inside a string) fails and leaves both fields as they were |
| CoreChat.Chat.SetPrompt | src/core/chat/chat.ts:51-53 | the prompt becomes the given text and the messages are kept |
| DebugView.Previews | src/worker/telegram-command.ts:179 | one preview per message, in order, each the content shortened as `Preview` states |
| DebugView.DebugTextReadable | src/worker/telegram-command.ts:178-186 | the `/debug` reply parses back to its document, whose fields are the prompt, the story and the previews, each preview at most 103 characters |
| DebugView.DebugDocFields | src/tty/command.ts:214-221 | the debug document's `prompt`, `story` and `message` fields read back as the chat's prompt, story and previews |
| DebugView.QuotedDocumentReadable | src/service/chat-command.ts:69-71 | the session service's `/debug` output is a JSON string literal that reads back as the dehydrated text itself, not as its object |
| Messages.FindLastUser | src/worker/telegram-command.ts:75 | -1 when no message is from the user, otherwise the index of a user message after which no user message follows |
| Terminal.FormatMsgInjective | src/core/tty/index.ts:30-32 | two messages that format to the same line are the same message |
| Terminal.Lines | src/core/tty/index.ts:52-54 | one printed line per message, in order, each the formatted message |
| Terminal.LinesAppend | src/core/tty/index.ts:52-54 | after one more message the repaint writes the same lines and one more at the end |
| Terminal.Repaint | src/core/tty/index.ts:50-55 | the screen is cleared, then each message is written as one formatted line; files and stored chats are untouched |
| Terminal.PrintedLines | src/core/tty/command-handler.ts:102 | one printed line per text, in order |
| Terminal.WriteLines | src/core/tty/command-handler.ts:102 | exactly the given lines are written, in order, and nothing else changes |
| TelegramCommand.CaseSensitive | src/worker/telegram-command.ts:41-70 | verbs are matched as written: "Exit" and "HISTORY" are unknown commands |
| TtyCore.Tty.Loop | src/core/tty/index.ts:77-91 | the loop reads the lines up to and including the first `/exit`, or all of them when there is none; the trace only grows and stored chats are untouched |
| TtyPipeline.PipelineContext.Done | src/core/tty/handler/input-handler.ts:29-31 | `done()`, which `/exit` calls, sets `isDone` and changes nothing else |
| CommandSyntax.ParseCommand | src/worker/telegram-command.ts:28-31 | a command is found exactly when the input is a slash followed by a letter; its verb is the whole run of letters after the slash, and its arguments hold no line break and do not start with a space |
| CommandSyntax.ParseCommandLine | src/service/chat-command.ts:32-35 | a slash, a verb, any spaces and one line of arguments parse back to exactly that verb and those arguments, whatever lines follow |
| CommandSyntax.SaveName | src/service/chat-command.ts:77-85 | a name is refused only with "Invalid file name" |
| CommandSyntax.LoadNameSaved | src/service/chat-command.ts:77-97 | every name `load` accepts is accepted by `save` and stored under the same name |
| CommandSyntax.SpacedNameNotLoadable | src/service/chat-command.ts:80-91 | a name with a space is saved under that name but refused by `load` |
| CommandSyntax.SessionNamesNonEmpty | src/service/chat-command.ts:78-94 | the name saved or loaded is the argument itself, or "last_session" for no argument, and never empty |
| CommandSyntax.SessionPathInjective | src/service/chat-command.ts:87-95 | different names are kept in different files of the sessions folder |
| CommandSyntax.PrintArray | src/worker/telegram-command.ts:171-176 | the loop builds the listing: one line `<offset>. <item>` per item, numbered from 0 |
| CommandSyntax.ListingAppend | src/worker/telegram-command.ts:171-176 | one more item adds exactly its own numbered line after the earlier lines |
| CommandSyntax.Preview | src/worker/telegram-command.ts:179 | content shorter than 100 characters is kept; longer content becomes its first 100 characters and "...", 103 in all |
| NumberText.NatToString | src/worker/telegram-command.ts:174 | the decimal form of a number is a non-empty run of digits without a leading zero |
| NumberText.NatToStringValue | src/worker/telegram-command.ts:174 | the decimal form reads back as the number |
| NumberText.TrailingNumber | src/worker/telegram-command.ts:101-104 | there is a trailing number exactly when the text ends in a digit |
| NumberText.TrailingNumberOf | src/worker/telegram-command.ts:101-104 | a text ending in the decimal form of `n`, after something that is not a digit, has the trailing number `n` |
| NumberText.UnsignedOfNat | src/core/chat/cmd/handler/undo-handler.ts:14 | a decimal form is read whole and never taken as hexadecimal |
| NumberText.ParseIntOfNat | src/core/chat/cmd/handler/undo-handler.ts:14 | `parseInt` of a decimal form, after any whitespace, is the number |
| NumberText.ParseIntOfNegative | src/core/chat/cmd/handler/undo-handler.ts:14 | a minus sign before the decimal form gives the negative number |
| NumberText.ParseIntNaN | src/core/chat/cmd/handler/undo-handler.ts:14 | text whose first visible character is neither a sign nor a digit is NaN |
| Json.ParseEncode | src/core/chat/chat.ts:39-46 | `JSON.parse` of what `JSON.stringify` wrote gives back the same value |
| Json.ValueRoundTrip | src/core/chat/chat.ts:39-46 | reading an encoded value gives back the value and leaves exactly the text that followed it |
| Json.StringRoundTrip | src/core/chat/chat.ts:39-46 | an escaped string literal, with its two-character and `\u00XX` escapes, reads back as the string itself, whatever characters it holds |
| Json.RawControlRefused | src/core/chat/chat.ts:45-46 | a control character written raw inside a string literal, after any escaped text, makes the literal unreadable, as `JSON.parse` refuses it |
| Json.RawControlDocument | src/core/chat/chat.ts:45-46 | a session document whose first field holds a raw control character in its string, such as a raw tab in the prompt, is unreadable, so hydrating it fails |
| Json.SkipWs | src/core/chat/chat.ts:39-46 | what is left after skipping is no longer than the text and is empty or starts with a character that is not JSON whitespace |
| Json.SkipWsSuffix | src/core/chat/chat.ts:39-46 | the whitespace skipped before a token is all whitespace (space, tab, line feed, carriage return), and what follows it is the rest of the text, unchanged |
| Json.ParseSpaced | src/core/chat/chat.ts:39-46 | `JSON.parse` reads an encoded value back with any whitespace before and after it |
| Json.SpacedFieldRoundTrip | src/core/chat/chat.ts:39-46 | a field reads back with any whitespace before its key, around its colon and before its value, and leaves the text after the value |
| Json.SpacedObjectRoundTrip | src/core/chat/chat.ts:39-46 | an object of one field reads back with whitespace between every two tokens, as in `{ "prompt" : "" }` |
| PromptFiles.PromptFileName | src/worker/telegram-command.ts:9 | a prompt file is its name followed by ".txt", so the name found is the file without its extension |
| PromptFiles.PromptFilesOf | src/worker/telegram-command.ts:90-91 | the kept entries are exactly the prompt files among the entries, none added |
| PromptFiles.PromptNamesListed | src/worker/telegram-command.ts:90-92 | a name is listed exactly when the folder holds the prompt file of that name |
| PromptFiles.SortedPromptNamesPermutation | src/service/chat-command.ts:113-116 | sorting lists the same names, each as often, with their files in character order |
| PromptFiles.Sort | src/service/chat-command.ts:115 | `sort()` returns the same strings, each as often, in character order |
| PromptFiles.SortUnique | src/service/chat-command.ts:115 | two sorted orderings of the same strings are the same list, so the sorted listing depends only on the folder's contents |
| PromptFiles.InsertSorted | src/service/chat-command.ts:115 | inserting into a sorted list keeps it sorted and adds exactly the one string |
| PromptFiles.AtOffset | src/worker/telegram-command.ts:104-108 | an offset picks a listed, non-empty name or nothing |
| PromptFiles.ChoosePrompt | src/worker/telegram-command.ts:100-114 | a chosen prompt is always listed; by offset it is non-empty, by name it is the argument itself; a failure is "Invalid prompt offset" when the argument ends in a digit and "Invalid prompt name" otherwise |
| PromptFiles.ChoosePromptByOffset | src/service/chat-command.ts:122-130 | every listed non-empty name is chosen by its offset (from 1 in the session service, from 0 in the Telegram worker) after text not ending in a digit |
| PromptFiles.ChoosePromptByName | src/worker/telegram-command.ts:109-113 | every listed name that does not end in a digit is chosen by itself |
| PromptFiles.ChoosePromptZero | src/service/chat-command.ts:126-129 | with 1-based offsets, "0" fails with "Invalid prompt offset" |
| PromptFiles.ChooseModel | src/worker/telegram-command.ts:155-166 | a selected model is one of the non-empty models, and when chosen by name it is the argument itself |
| PromptFiles.ChooseModelByOffset | src/worker/telegram-command.ts:155-160 | every non-empty model is selected by its 0-based offset |
| PromptFiles.ModelNameEndingInDigit | src/worker/telegram-command.ts:155-166 | a model named with a trailing digit, such as "llama3" alone, cannot be chosen by its name: the digit is read as an offset |
| RichChat.HydrateDocument | src/worker/telegram-worker.ts:85-90 | the document of a conversation, read field by field, is that conversation: prompt, story, histories, model and messages |
| RichChat.DocumentText | src/worker/telegram-worker.ts:85-90 | `JSON.parse(dehydrate())` is the document, and hydrating the text of a stored document reads that document |
| RichChat.HydrateDehydrate | src/core/tty/command-handler.ts:70-80 | reading back what `dehydrate()` wrote restores every field of the conversation |
| RichChat.Chat.constructor | src/worker/telegram-worker.ts:74 | a new conversation is empty: no prompt, story, histories, model or messages, and no call yet |
| RichChat.Chat.AddUserMsg | src/worker/telegram-worker.ts:52 | one user message with the text is appended and no other field changes |
| RichChat.Chat.AddAssistantMsg | src/worker/telegram-worker.ts:115 | one assistant message with the text is appended and no other field changes |
| RichChat.Chat.AddHistory | src/core/tty/index.ts:118-121 | one summary is appended to the histories and no other field changes |
| RichChat.Chat.Undo | src/worker/telegram-command.ts:38 | the call to `undo()` is recorded |
| RichChat.Chat.Clear | src/worker/telegram-command.ts:190 | the call to `clear()` is recorded |
| RichChat.Chat.ClearMessages | src/worker/telegram-command.ts:210 | the call to `clearMessages()` is recorded |
| RichChat.Chat.Hydrate | src/core/tty/command-handler.ts:80 | readable text becomes the conversation it holds; unreadable text (including a raw control character inside a string) fails and changes nothing |
| RichChat.Chat.HydrateStored | src/bin/worker/telegram-queue-worker.ts:31 | hydrating the text of a stored document gives the conversation the document holds, or fails and changes nothing |
| SessionDoc.LookupNone | src/core/chat/chat.ts:47-48 | a key reads as absent exactly when no field of the object has it |
| SessionDoc.LookupSome | src/core/chat/chat.ts:47-48 | a key that is present reads as the value of its last occurrence |
| SessionDoc.MessageRoundTrip | src/core/chat/chat.ts:39-48 | a message written as `{role, content}` reads back as the same message |
| SessionDoc.MessagesRoundTrip | src/core/chat/chat.ts:39-48 | a list of messages written out reads back as the same list, in order |
| SessionDoc.StringsRoundTrip | src/core/tty/index.ts:118 | a list of strings written out reads back as the same list |
| SessionDoc.CoreDocRoundTrip | src/core/chat/chat.ts:38-49 | the prompt and messages fields of the written document read back as the prompt and messages written |
| SessionDoc.RichDocRoundTrip | src/worker/telegram-worker.ts:85-90 | every field of the richer document reads back as written: prompt, messages, story, histories and the optional model |
| Text.TrimStart | src/client/telegram/index.ts:59 | exactly the leading whitespace is dropped: what remains is a suffix that does not start with whitespace |
| Text.TrimEnd | src/client/telegram/index.ts:59 | exactly the trailing whitespace is dropped: what remains is a prefix that does not end with whitespace |
| Text.Trim | src/client/telegram/index.ts:59 | the result is no longer than the text and neither starts nor ends with whitespace |
| Text.TrimEmpty | src/client/telegram/index.ts:59-60 | trimming gives the empty string exactly for text made only of whitespace |
| Text.TrimKeepsFirst | src/core/tty/index.ts:82-83 | text whose first character is not whitespace keeps that character first |
| Text.TrimTrimmed | src/client/telegram/index.ts:70-71 | trimming leaves text that neither starts nor ends with whitespace unchanged |
| Text.RemoveWsTrim | src/client/telegram/index.ts:59 | trimming only ever removes whitespace: the visible characters stay, in order |
| Text.UpperOfLower | src/client/telegram/index.ts:88 | lower-casing first does not change the upper-case form, so a namespace lower-cased on the way in still finds its bot |
| TelegramClient.ChunkSize | src/client/telegram/index.ts:57 | the limit used is at least 1; a positive configured limit is kept, as the code as written keeps it |
| TelegramClient.LastIndexOf | src/client/telegram/index.ts:79 | `lastIndexOf(c, from)` finds the last position at or before the clamped start holding `c`, or -1 when none does |
| TelegramClient.LastIndexOfAnySpec | src/client/telegram/index.ts:76-85 | the last position at or before the search start holding any of the needles, and -1 exactly when there is none |
| TelegramClient.LastIndexOfAny | src/client/telegram/index.ts:76-85 | the loop over the needles returns the largest index found, as `LastIndexOfAnySpec` states |
| TelegramClient.CutIndex | src/client/telegram/index.ts:66-69 | the cut lies in 1..limit; before the limit it falls on a break with no break after it up to the limit; at the limit either that position is a break or there is no break at all |
| TelegramClient.FindCut | src/client/telegram/index.ts:66-69 | the cut the loop computes is `CutIndex` |
| TelegramClient.ChunksFromBounded | src/client/telegram/index.ts:60-72 | every chunk is non-empty, at most the limit long and trimmed; there are chunks exactly when the remainder is not empty |
| TelegramClient.ChunksFromStep | src/client/telegram/index.ts:61-71 | one round pushes the trimmed head up to the cut and goes on with the trimmed tail, which is strictly shorter |
| TelegramClient.ChunksEmpty | src/client/telegram/index.ts:59-60 | empty or all-whitespace text gives no chunk, any other text at least one |
| TelegramClient.ChunksBounded | src/client/telegram/index.ts:56-74 | every chunk sent is non-empty, trimmed and no longer than the limit |
| TelegramClient.ChunksKeepText | src/client/telegram/index.ts:56-74 | the chunks, read in order, hold exactly the text's non-whitespace characters: cutting loses only whitespace |
| TelegramClient.TextToChunk | src/client/telegram/index.ts:56-74 | the loop returns the chunks `Chunks` defines; it ends because the remainder never starts with whitespace and so is never cut at 0 |
| TelegramClient.RoundAtLimit | src/client/telegram/index.ts:61-71 | a word as long as the limit followed by a break is sent as it is |
| TelegramClient.RoundBeforeLimit | src/client/telegram/index.ts:66-71 | a break before the limit, with none after it up to the limit, ends the chunk and is dropped |
| TelegramClient.RoundNoBreak | src/client/telegram/index.ts:67-69 | with no break up to the limit, the word is cut hard at the limit |
| TelegramClient.LastRound | src/client/telegram/index.ts:62-64 | a remainder no longer than the limit is sent whole |
| TelegramClient.FullWords | src/client/telegram/index.ts:56-74 | words exactly as long as the limit, separated by breaks, are sent one chunk each, then the last word |
| TelegramClient.MultiLineExample | src/client/telegram/index.spec.ts:28-42 | with the limit 4, "some text\nsome test two" is sent as "some", "text", "some", "test", "two" |
| TelegramClient.SplitWordExample | src/client/telegram/index.spec.ts:44-59 | with the limit 4, "so me-text\nsome test two" is sent as "so", "me-t", "ext", "some", "test", "two" |
| TelegramClient.FindBotFirst | src/client/telegram/index.ts:87-89 | no bot is found exactly when no namespace matches ignoring case; a bot found is the first that matches |
| TelegramClient.Posts | src/client/telegram/index.ts:44-49 | one post per chunk, in order, each to the bot's token and the chat |
| TelegramClient.PostChunks | src/client/telegram/index.ts:43-49 | the chunks are posted in order, each after the previous one; a failed post ends the loop, and the posts made are then a non-empty prefix of the chunks' posts |
| TelegramClient.SendMessage | src/client/telegram/index.ts:32-50 | an unknown namespace fails with "Invalid Telegram bot namespace" and sends nothing; empty text sends nothing; otherwise the text's chunks are posted in order, all of them or a prefix ending at the failing one |
| TelegramClient.SendText | src/client/telegram/index.ts:37-49 | once the bot is found: empty text sends nothing, otherwise the chunks are posted as `PostChunks` states |
| TelegramClient.NegativeSizeStalls | src/client/telegram/index.ts:57-71 | as written, a negative limit no longer than the remainder pushes an empty chunk and leaves the remainder unchanged, so the loop never ends |
| TelegramClient.NegativeSizeExample | src/client/telegram/index.ts:57-71 | with the limit -3 the remainder "def" gives an empty chunk and stays "def" |
| TelegramWorker.FirstBot | src/worker/telegram-worker.ts:128 | no bot is found exactly when no namespace equals the key; a bot found is configured and has that namespace |
| TelegramWorker.MissingBotAsWritten | src/worker/telegram-worker.ts:129-131 | as written, every unknown namespace gives the same message, "Cannot find provider by name undefined" |
| TelegramWorker.GetBotEnv | src/worker/telegram-worker.ts:127-133 | a bot is found exactly when one has the message's namespace lower-cased; a miss names the namespace; found exactly when the code as written finds one |
| TelegramWorker.MissingBotNamed | src/worker/telegram-worker.ts:129-131 | two different unknown namespaces give two different messages |
| TelegramWorker.AcceptedNamespaceReplies | src/worker/telegram-worker.ts:119-124 | a namespace the worker accepts is one the Telegram client accepts, so replies are never refused for their namespace |
| TelegramWorker.ReleasedAdmitsNext | src/worker/telegram-worker.ts:89-93 | the entity written back holds the chat as the worker left it, keeps its chat id, and its lock admits the next update at any time |
| TelegramWorker.NewEntityHeld | src/worker/telegram-worker.ts:75-83 | a conversation seen for the first time is held until 60 seconds after its creation, and starts empty |
| TelegramWorker.NewEntityAsWrittenReleased | src/worker/telegram-worker.ts:76-82 | as written, `getNewChat` receives one object as its chat id, so the new entity's lock is already free and it is not found under the conversation's chat id, where the intended entity is held |
| TelegramWorker.Worker.Handle | src/worker/telegram-worker.ts:31-44 | the message is acknowledged exactly once, after everything else; a message that is not JSON does nothing else; otherwise the store and the trace change as `Processed` states: the load's events, the routed text's events as `Routed` states (the completion request for plain text, the interpreter's `Handled` for a command), the error reply, and the save releasing the lock |
| TelegramWorker.Worker.Process | src/worker/telegram-worker.ts:32-40 | the parsed message is handled as `Processed` states; a failed load is only logged, with no reply |
| TelegramWorker.ProcessedReleases | src/worker/telegram-worker.ts:63-65 | a loaded conversation whose entity has a lock ends with the save of its final chat, and that lock admits any later update |
| TelegramWorker.PlainTextAsked | src/worker/telegram-worker.ts:51-53 | plain text for a known bot is asked of the model right after the load, as the stored chat followed by the text as a user message, and the final chat begins with those messages |
| TelegramWorker.Worker.GetEntityAndChat | src/worker/telegram-worker.ts:68-87 | the stored entity with a document is used as it is; otherwise a new one (60-second lock, empty chat) is saved first; on success the events are the lookup and that save and the store is the loaded one; the new chat holds what the entity's document holds |
| TelegramWorker.Worker.GetEntity | src/worker/telegram-worker.ts:69-84 | the lookup comes first; only a missing entity, or one without a document, is replaced by a new one and saved; on success the events and the store are the load's |
| TelegramWorker.Worker.HandleWithEntityAndChat | src/worker/telegram-worker.ts:47-66 | the text is routed as `Routed` states; an error is replied as "Error: " and its message; then the entity is written back with the chat's document and a released lock, and an entity without a lock fails there with the store unchanged |
| TelegramWorker.Worker.Route | src/worker/telegram-worker.ts:48-57 | as `Routed` states: an unknown namespace fails before anything happens; plain text is added as a user message and the chat sent; a command is handled as the interpreter's `Handled` states for the bot's prompts folder; the files are untouched |
| TelegramWorker.Worker.UpdateEntityAndReleaseLock | src/worker/telegram-worker.ts:89-93 | the entity is saved with the chat's document and a released lock, and nothing else is saved; without a lock it fails before saving |
| TelegramWorker.Worker.SendRequest | src/worker/telegram-worker.ts:107-117 | exactly one completion request for the chat as it is; an empty answer is reported with "**Error: LLM engine return empty content**" and not added; a non-empty answer is added as an assistant message, then replied |
| TelegramWorker.Worker.Interpret | src/worker/telegram-worker.ts:55-56 | the command is handled as the interpreter's `Handled` states, with the prompts folder of the message's bot |
| QueueWorker.NewQueueEntity | src/bin/worker/telegram-queue-worker.ts:33-35 | the entity created for a new conversation has its chat id, no lock, and a document that reads as the empty chat |
| QueueWorker.PersistedReads | src/bin/worker/telegram-queue-worker.ts:45 | the entity written back holds `JSON.parse(chat.dehydrate())`, reads back as the chat the worker left, and keeps its lock and chat id |
| QueueWorker.QueueHandledStores | src/bin/worker/telegram-queue-worker.ts:45-49 | after a successful update the stored entity reads back as the final chat and keeps its lock; every other conversation is untouched |
| QueueWorker.QueuePlainTextAsked | src/bin/worker/telegram-queue-worker.ts:38-40 | plain text is asked of the model right after the load, as the stored chat followed by the text as a user message, and the final chat begins with those messages |
| QueueWorker.Worker.Handle | src/bin/worker/telegram-queue-worker.ts:23-59 | a message that is not JSON is neither handled nor acknowledged; otherwise it is acknowledged exactly once, after everything else, and the store and trace change as `QueueHandled` states: the load's events, the routed text's events as `QueueRouted` states, and the save of the final chat into the loaded entity |
| QueueWorker.Worker.Process | src/bin/worker/telegram-queue-worker.ts:25-54 | the update is handled as `QueueHandled` states: on success the routed chat is written back into the loaded entity; on failure the error is replied, and the store is as it was, holds the new entity, or has lost the loaded entity to a `/reset` |
| QueueWorker.Worker.Attempt | src/bin/worker/telegram-queue-worker.ts:26-49 | the lookup comes first; on success the events are the load's, then the routed ones as `QueueRouted` states, then the save of the final chat into the loaded entity, which the store holds; on failure the store is as it was, holds the new entity, or has lost the loaded entity to a `/reset` |
| QueueWorker.Worker.Load | src/bin/worker/telegram-queue-worker.ts:26-37 | the stored entity with a document is hydrated into a new chat; otherwise a new entity holding the empty chat is saved; nothing else is written |
| QueueWorker.Worker.Route | src/bin/worker/telegram-queue-worker.ts:38-44 | as `QueueRouted` states: plain text is added as a user message and the chat sent; a command is handled as the command service's `Handled` states, with the loaded entity's remote id as the context's key; the store changes only by a passing `/reset`, which removes that entity |
| QueueWorker.Worker.HandleChat | src/bin/worker/telegram-queue-worker.ts:75-88 | the update's text is added as a user message and the chat sent; an empty answer is reported and not added; a non-empty one is added as an assistant message, then replied |
| QueueWorker.Worker.RetryContext | src/bin/worker/telegram-queue-worker.ts:65 | as written, `retry` runs `handleChat` again, which adds the update's text ("/retry") as a further user message before sending |
| QueueWorker.Worker.RetryResend | src/service/chat-command.ts:99-109 | the intended `retry` sends the chat as the service left it, ending with the message put back |
| QueueWorker.RetryAsksCommand | src/bin/worker/telegram-queue-worker.ts:65-88 | as written, the model is asked with the command text as the last user message, right after the message the service put back |
| QueueWorker.RetryResendAsksLast | src/service/chat-command.ts:99-109 | the intended retry asks the model with the chat ending in the message put back |

## Left out

- `setAllWebhook` (src/client/telegram/index.ts:23-30): it only forwards each bot's URL to the Telegram HTTP API; there is nothing in it to state beyond the call itself.
- HTTP, AMQP, the vendor LLM clients (OpenAI, Ollama, ArliAI, mock), the database driver, environment parsing and logging: each is an `Effects.World` call that returns an arbitrary outcome, or a parameter.
- Concurrency: every operation runs to completion before the next starts. The lock field is modelled, but two workers racing for it are not.
- Time is an integer `now` parameter. Input lines of the terminal are a finite sequence parameter, so the read loop ends when they run out.
- `src/core/tty/handler/print-handler.ts`: output formatting for the terminal is not part of this model beyond the repaint and line writes of `Terminal`.
- The `@core/chat` module is not part of this model. `RichChat.Chat` stands in for it:
  - its `undo()`, `clear()` and `clearMessages()` change the state arbitrarily and only record that they were called;
  - its saved document is taken to be the `chat.ts` document extended with story, histories and model.
- The `@core/tty` pipeline context is not part of this model: `request()` and `next()` are recorded as events, and whether a request is pending is a parameter.
- The summariser's prompt text is a constant field of the terminal class, not its literal wording.
- The terminal context's `retry` is modelled as `handleRequest` on the context's chat; what the chat is after `@core/chat`'s `undo()` is left open (see RichChat.Chat.Undo), so `RetryDone` states `handleRequest` from some chat ending in the re-added message.
- Callbacks handed to the interpreters are recorded as events rather than run: the command service's `retry` and `repaint`, and the `sendRequest` of the Telegram and terminal interpreters (`CalledOn`, with the chat handed over). `done` is a flag of the context. The command service's `reset` is modelled as the queue worker defines it (`ChatCommand.Context.Reset`): the stored entity is removed, then the chat cleared.
- The terminal context is created afresh for every command line.
- JSON: a concrete subset of JSON (strings, arrays, objects) with a proved parse/encode round trip stands in for `JSON.stringify`/`JSON.parse`. Saved sessions are written compactly, as `JSON.stringify` without indentation writes them. `Parse` reads whitespace between tokens as `JSON.parse` does, but not numbers, booleans or `null`: a hand-edited document holding one is refused.
- Json.Parse: reads a `\uXXXX` escape only for a code outside the surrogate range; `JSON.parse` also accepts escaped surrogates, which a Dafny `char` cannot hold alone.
- TtyCommand.Interpreter.Debug: writes the compact document; the source writes it with `JSON.stringify(..., null, 4)` (src/tty/command.ts:216-220), so its four-space indentation and line breaks are not modelled. The fields and their values are.
- TelegramCommand.Interpreter.Debug: replies the compact document; the source indents it by four spaces (src/worker/telegram-command.ts:180-185), which is not modelled. The fields and their values are.
- CommandSyntax.Preview: counts characters (Unicode scalar values), where `slice(0, 100)` counts UTF-16 code units; the two differ only for text outside the Basic Multilingual Plane.
- TelegramClient.TextToChunk: lengths and cut positions are counted in characters, where the source counts UTF-16 code units; the two differ only for text outside the Basic Multilingual Plane.
- PromptFiles.Sort: compares characters, where `sort()` compares UTF-16 code units; the orders agree for names within the Basic Multilingual Plane.
- Text.UpperOfLower: case mapping covers the ASCII letters only; `toUpperCase`/`toLowerCase` map all of Unicode.
- TelegramClient.FindBotFirst: namespaces are matched ignoring ASCII case only, where the source upper-cases both sides with the full Unicode mapping.
- TelegramWorker.GetBotEnv: lower-cases the namespace's ASCII letters only, where the source uses the full Unicode mapping.
- TelegramWorker.AcceptedNamespaceReplies: is proved for the ASCII case mapping; with the full Unicode mapping, where a character can change length (`"ß".toUpperCase()` is "SS"), it is not.
- Text.PathJoin: is `dir + "/" + name`; `path.join` also collapses repeated separators, resolves `.` and `..` segments and drops an empty folder ("a/" with "x" gives "a/x", "" with "x" gives "x"), which is not modelled. Session and prompt names hold no separators, so only a folder setting with a trailing slash, or an empty one, is affected.
- CmdStack.Save: writes the file the handler tests expect; as written the write always fails (see Findings, `CmdStack.HandledAsWritten`).
- CmdStack.Load: reads the file the handler tests expect; as written the read always fails (see Findings, `CmdStack.HandledAsWritten`).
- MessageQueue.MessageQueue.Admit: replies to a held conversation as intended; as written that branch fails before replying (see Findings, `MessageQueue.AdmittedAsWritten`).
- TelegramWorker.Worker.GetEntity: creates the new entity as intended, with the chat id and a 60-second lock; as written its lock is already free and its remote id is the argument object (see Findings, `TelegramWorker.NewEntityAsWritten`).
- TtyCommand.Interpreter.Save: makes the sessions folder and writes the session as intended; as written the file IO has no `mkdir`, so the call fails before anything is written (see Findings, `TtyCommand.SaveDoneAsWritten`).
- TtyCommand.Interpreter.Prompts: makes and lists the prompts folder as intended; as written the file IO has no `mkdir` or `ls`, so the call fails before anything is listed (see Findings, `TtyCommand.PromptsDoneAsWritten`).
- TelegramCommand.Interpreter.Prompts: makes and lists the bot's prompts folder as intended; as written the file IO has no `mkdir` or `ls`, so the call fails before anything is listed or replied (see Findings, `TelegramCommand.PromptsDoneAsWritten`).
- CmdStack.CmdHandlerStack: the handler tests join the session path under `PATH_TO_VAR`, which src/env.ts does not define; the variable-data folder is therefore a parameter, `varPath`.
- CoreChat.Chat.Hydrate: rejects a document whose messages are not role/content pairs, where the JavaScript would copy any object through.
- QueueWorker.Worker.Handle: replies go through an abstract `Reply` event. As written, the queue worker calls `sendMessage` without a namespace, which the Telegram client would fail on when it upper-cases it; that failure is not modelled.
- The store is keyed by `remoteId` alone: the model assumes the `namespace` the Telegram worker passes to `findOneBy` plays no part in the lookup, since the entity declares no such column; how the ORM treats a where-property without a column is outside these sources.
- Entities are values copied in and out of the store. The lock's back-reference to its entity and the identity of new objects are not modelled.
- `getClient` is taken to always return a client.

## Findings

| source | as written | input that shows it | evidently intended | confidence | as-written member | corrected member |
|---|---|---|---|---|---|---|
| src/client/telegram/index.ts:57 | the limit is `TELEGRAM_MAX_TEXT_LENGTH \|\| 4000`, and the setting is a bare `parseInt` (src/env.ts:152), so only 0 and NaN fall back to 4000 | `TELEGRAM_BATCH_LENGTH=-3` and the text "def": each round pushes an empty chunk and keeps "def", so `sendMessage` never returns | a limit of at least 1 (a non-positive setting falls back to 4000) | not executed | TelegramClient.NegativeSizeStalls | TelegramClient.ChunkSize |
| src/worker/telegram-worker.ts:129-131 | the error interpolates `provider`, which is always undefined on that branch | any namespace no bot has, e.g. "a" and "b", both give "Cannot find provider by name undefined" | the message names the namespace that was looked up | not executed | TelegramWorker.MissingBotAsWritten | TelegramWorker.MissingBotNamed |
| src/bin/worker/telegram-queue-worker.ts:65 | the context's `retry` is `handleChat(request, chat)`, which adds the update's text as a new user message before asking the model | the message "/retry" after a chat ending in user message "hi": the service undoes and puts back "hi", then `handleChat` adds "/retry" and the model is asked with "/retry" last | `retry` sends the chat as the service left it, ending in the message put back | not executed | QueueWorker.RetryAsksCommand | QueueWorker.RetryResendAsksLast |
| src/core/chat/cmd/handler/save-handler.ts:22 | the path is passed to `io.write` as the array `['session', name + '.json']`, and `load-handler.ts:18` does the same for `io.read`; `src/core/io/file-io.ts:8-14` hands it to the file system, which refuses an array path | "/save a" then "/load a": the save fails with no file written and the load fails, so the conversation is not restored | the file `path.join(PATH_TO_VAR, 'session', 'a.json')`, as src/core/chat/cmd/handler/load-handler.test.ts:28 expects | not executed | CmdStack.SaveThenLoadAsWritten | CmdStack.SaveThenLoad |
| src/http/route/webhook/middleware/message-queue.ts:37 | the busy reply reads the chat id from `req.payload.message.chat.id`, where line 24 reads the same update as `payload.request.message.chat.id`; the payload has no `message` field, so the read throws | any update for a conversation whose lock is held: nothing is replied, where the user should be told to wait | `payload.request.message.chat.id`, so the conversation is told "A message already in queue. Please wait" | not executed | MessageQueue.HeldAsWrittenSilent | MessageQueue.MessageQueue.Admit |
| src/worker/telegram-worker.ts:76-82 | `ChatEntity.getNewChat` (src/database/entity/chat.entity.ts:48-58) takes the remote id and then an options object with `ttl` and `chat`, but is called with one object holding all of them, so no `ttl` reaches it | a first update from chat 42: the new entity's remote id is the object, not "42", and its lock has no expiry, so a second update is admitted while the first is being handled | a new entity with remote id 42 whose lock holds for 60 seconds | not executed | TelegramWorker.NewEntityAsWrittenReleased | TelegramWorker.NewEntityHeld |
| src/tty/command.ts:94-95 | `/save` calls `this.fileIO.mkdir`, but the file IO every interpreter is built with, `LocalFileIO` (src/core/io/index.ts:12), defines only `write` and `read` (src/core/io/file-io.ts:4-15), though the interface it implements declares `mkdir` and `ls` (src/core/io/index.ts:8-9) | "/save a" in the terminal: `mkdir` is not a function, so the call throws and no session is written | the sessions folder is made and the chat's document written to `<sessions>/a.json` | not executed | TtyCommand.SaveAsWrittenKeepsNothing | TtyCommand.Interpreter.Save |
| src/tty/command.ts:125-126 | the terminal's `/prompts` calls `mkdir` and `ls` on the same `LocalFileIO`, which has neither | "/prompts" in the terminal: the first call throws, so no prompt is listed or loaded | the folder is made and listed, and the names printed or the chosen prompt loaded | not executed | TtyCommand.PromptsAsWrittenSilent | TtyCommand.Interpreter.Prompts |
| src/worker/telegram-command.ts:89-90 | the Telegram worker's `/prompts` calls `mkdir` and `ls` on the same `LocalFileIO` (src/worker/telegram-command.ts:217) | "/prompts" to a bot: the first call throws, so nothing is listed or replied | the bot's folder is made and listed, and the names replied or the chosen prompt loaded | not executed | TelegramCommand.PromptsAsWrittenSilent | TelegramCommand.Interpreter.Prompts |
