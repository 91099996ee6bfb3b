# Constable: a verified model

Constable is an authorization server. It compiles a policy language to
bytecode, runs that bytecode as handlers for the decision requests of a kernel,
and keeps two structures of authority: the role hierarchy and the members of
spaces. This project models its core in Dafny and proves what the parts promise.
`dafny verify dfyconfig.toml` checks all of it.

The parts, and what is proved of each:

1. **Compiler and interpreter.** `Grammar`, `Engine`, `Compiling` (the tables
   and the LL(1) engine), `Layout`, `Settling`, `BackPatch`, `BackPatcher`
   (labels and the queue of pending words), `Source`, `Postfix`, `Codegen`
   (handlers as trees, their actions, their code), `Machine`, `Registers`,
   `ExecuteStack`, `Interpreter` (the virtual machine), `Semantics` and
   `Meanings` (what a handler means, without code, and what it sees of
   registers). `Parsing*` and `Precedence` show that the engine turns the tokens
   of a tree into its actions, `Placing*` and `Misplaced` that the back-patcher
   turns the actions into its code or reports an error, `Execution`,
   `Correctness` and `EndToEnd` that the interpreter, run on the code, does what
   the handler means.
2. **Deciding an event.** `Events`, `EventOrder`, `EventFates` and
   `EventBuffer`: do_event as a coroutine against the uninterrupted run, which
   handlers that run calls and in which order, and what becomes of a handler
   whose tree node vanishes while it waits.
3. **Protocol.** `Queues` (the linked queues), `Protocol` (readers, workers and
   writers as one state machine, a step for what a thread does under a lock),
   `ProtocolPlaces`, `ProtocolSafety`, `ProtocolGate` (what every step keeps),
   `ProtocolRuns`, `ProtocolFirst`, `ProtocolProgress`, `ProtocolResume` (what
   follows for every run), `ProtocolHistory`, `ProtocolUpdates`,
   `ProtocolRequests` (what every message comes from), `ProtocolLimits`,
   `ProtocolRefusals` and `ProtocolAnswers` (what must be so for the rest to
   follow, exactly).
4. **Roles.** `RoleStore`, `RoleAdmin` (the store and its operations),
   `RoleHistory` (any sequence of them), `RoleText`, `RoleSaving`,
   `RoleLoading`, `RoleRoundTrip`, `RoleWords` (the role file), `Vs` (sets of
   spaces as words), `Authority` (sessions) and `Decisions` (roles, spaces and
   nodes together).
5. **Spaces.** `Trees`, `SpaceRules` (what includes and excludes mean), `Spaces`
   and `SpaceApply` (how members are found, and the worklist).
6. **Attributes.** `Codec`: integers in either byte order, bitmaps, strings.

Classes follow the source where it updates state in place (the back-patcher, the
compiler, the segmented stack, the interpreter, the request buffer, the linked
queues, the role store with its loader and saver, the evaluation of spaces, kernel
objects). Their methods are proved against functions of the old state, and the
theorems are lemmas about those functions.

Where the code does not keep what it promises, the model keeps the code, and two
kinds of lemma say so: one with an input for which the promise fails, and one that
says exactly when it holds.

- A denial is lost when a tree node vanishes under a suspended handler
  (`Events.LostDenial`; exactly when: `EventFates.CompletesIff`). If another
  compiled handler is then tried in the same buffer, execute_handler puts the
  buffer into its own queue, and the request is never answered. A run that comes to
  this is `ProtocolRefusals.SelfWaited`. Exactly when: a live request can still be
  answered if and only if it does not wait for itself
  (`ProtocolAnswers.AnswerableExactly`), and none is lost in all the runs with n
  suspensions at most if and only if n is 0 (`ProtocolAnswers.NoneLostExactly`).
- A kernel that asks for READY too often gets as many answers, and with `_init`
  configured its requests can overtake each other, and one can be handled while an
  `_init` of its connection is suspended (`ProtocolLimits.AskedTooOften`,
  `AskedAgain`, `Overtaken`, `OldOvertaken`, `Ungated`; exactly when:
  `ProtocolLimits.ReadyExactly`, `OrderExactly`, `GateExactly`). However often it
  asks, some `_init` has ended before a request is handled
  (`ProtocolFirst.SomeInitFirst`).
- `<<=` and `>>=` are rejected, because their rows expect the token `%=`
  (`EndToEnd.CompileHandler` says which handlers are accepted).
- A counter that is referred to before it is counted yields the count at the next
  output (`BackPatch.CountedLate`; what any list of actions outputs:
  `BackPatch.BackPatched`).

## Model

| member | source | states |
|---|---|---|
| Words.JumpLands | constable/language/execute.c:605-607 | a jump over a stored offset lands on the target of the label, for every address |
| Words.DecodeOpcode | constable/language/execute.c:340-684 | every instruction is recovered from its opcode |
| Engine.FoundShrinks | libmcompiler/compiler/synt.c:86-167 | expanding any state by any row of any table makes the parse stack cheaper, so the engine ends on every token string |
| Engine.TableShrinks | constable/language/expression.c:68-182 | every row of the tables of the model shrinks the stack that way; the rows for local, transparent and aliased variables, switch, typeof, commof, space constants and builtins are not in them |
| Compiling.Lookup | libmcompiler/compiler/synt.c:10-39 | the row found is the first one whose terminals admit the lookahead |
| Compiling.Compiler.Output | libmcompiler/compiler/special_out.c:210-271 | a run of output symbols does to the back-patcher what its actions do, and never sets a label outside of a section |
| Compiling.Compiler.Compile | libmcompiler/compiler/synt.c:86-167 | for every token string the loop accepts, rejects and outputs exactly as the engine's function says |
| Compiling.CompileText | libmcompiler/compiler/synt.c:86-167 | a whole text yields the words of EndToEnd.Compile, or an error exactly where that has none |
| NestingRules.TableNested | constable/language/language.c:31-87 | every row opens and closes sections in balance, given what its state needs and leaves |
| Nesting.NeverStray | libmcompiler/compiler/special_out.c:144-170 | on any token string, accepted or not by the meaning of the language, no label is set or counted while no section is open |
| Parsing.Parsed | constable/language/expression.c:68-182 | on the tokens of any expression, with the parentheses its precedences need and any more, the engine consumes exactly those tokens and emits its postfix actions, or rejects it exactly for <<= and >>= |
| Parsing.ParsedLeft | constable/language/expression.c:85-152 | operators of one level associate to the left, and a chain of && or of two bars shares one section |
| Parsing.ParsedCond | constable/language/expression.c:155-158 | ?: associates to the right and spells the branches between its labels |
| Parsing.ParsedCompound | constable/language/expression.c:161-173 | a compound assignment is read exactly if its row expects its own token |
| Parsing.ParsedApply | constable/language/data.c:43-62 | a call counts its arguments in its own section and emits count, jump and removal |
| Parsing.ParsedSelect | constable/language/data.c:30-41 | an attribute behind an argument or a call emits its selection |
| Precedence.FirstApplied | constable/language/expression.c:85-131 | of two binary operators between three numbers without parentheses, the engine applies the one first that binds tighter, and the left one of two that bind alike: * / %, then + -, << >>, comparisons, == !=, &, ^ and the single bar |
| ParsingCommands.ParsedCmd | constable/language/language.c:31-87 | the engine turns the tokens of any command into its actions |
| ParsingCommands.ParsedLoop | constable/language/language.c:39-48 | so for while and do loops, with and without else |
| ParsingCommands.ParsedFor | constable/language/language.c:49-58 | so for the for loop, with its test, step and body in the order of the table |
| ParsingCommands.ParsedHandler | constable/language/language.c:77-84 | a handler up to its closing brace is accepted exactly if every assignment in it can be, with the actions of its commands and a default return |
| BackPatch.DrainTotal | libmcompiler/compiler/special_out.c:44-54 | flushing moves the words that are known, in order, and changes none of what the queue will become |
| BackPatch.EndAdvances | libmcompiler/compiler/special_out.c:90-119 | closing a section settles every reference to it; an undefined label is reported and counts as 0 |
| BackPatch.StepAdvances | libmcompiler/compiler/special_out.c:210-271 | every action that reports no error of its own adds exactly its words, as they will be, and keeps those before, a counter that is counted late included |
| BackPatch.BackPatched | libmcompiler/compiler/special_out.c:13-78 | every sequence of actions runs through exactly if no label is set or counted outside of all sections; then the flushed output is its words in order, each once, every reference with the value its label has when labels are next applied, next-occurrence labels and counters included; errors are reported exactly as laid out |
| BackPatch.CountedLate | libmcompiler/compiler/special_out.c:171-182 | whatever the open sections and the increments, a word that waits for a counter takes the count reached when labels are next applied, modulo the word size |
| Settling.Simply | libmcompiler/compiler/special_out.c:171-208 | where no counter is counted after it was referred to, a reference holds the value its section gives the label next |
| BackPatcher.Patcher.ApplyLabels | libmcompiler/compiler/special_out.c:13-42 | every waiting word whose label is defined is replaced by its value, and no other |
| BackPatcher.Patcher.DataFlush | libmcompiler/compiler/special_out.c:44-54 | the queue is drained from its front up to the first word that waits |
| BackPatcher.Patcher.SectEnd | libmcompiler/compiler/special_out.c:90-119 | the loop over the labels of the innermost section closes it as the state function does |
| BackPatcher.Patcher.SetLabelTo | libmcompiler/compiler/special_out.c:144-170 | old references are settled before a label is redefined; a next-occurrence label is undefined again afterwards |
| BackPatcher.Patcher.SectIncVal | libmcompiler/compiler/special_out.c:171-182 | a counter starts at 0 and wraps at the word size; a position is an error |
| BackPatcher.Patcher.GetSection | libmcompiler/compiler/special_out.c:120-128 | finds the innermost section of a type |
| BackPatcher.Patcher.SectOutVal | libmcompiler/compiler/special_out.c:198-208 | refers to a label of that section, or reports an error |
| BackPatcher.Patcher.SpecialOut | libmcompiler/compiler/special_out.c:210-271 | every output symbol is handled as its action |
| BackPatcher.Patcher.TheEnd | libmcompiler/compiler/special_out.c:261-265 | at the end all sections are closed, innermost first, and the queue is flushed |
| PlacingExprs.Spelled | constable/language/expression.c:68-182 | the actions of every expression lay out as its code, wherever they stand, with every short-circuit jump to its exit |
| PlacingExprs.SpelledAnd | constable/language/expression.c:133-139 | a chain of && lays out with all its jumps to the one exit behind the chain |
| PlacingExprs.SpelledCall | constable/language/data.c:43-62 | the count of a call is the number of its arguments |
| PlacingCode.LayCmd | constable/language/language.c:31-87 | the actions of every command lay out as its code, break and continue at the labels of the enclosing loop |
| PlacingCode.LayLoop | constable/language/language.c:39-48 | loops with their back jumps, exits and else parts |
| PlacingCode.LayFor | constable/language/language.c:49-58 | for loops: test, step and body, and the three jumps between them |
| PlacingCode.HandlerPlaced | constable/language/language.c:84 | the actions of a handler lay out as its code, without an error |
| Misplaced.HandlerMisplaced | constable/language/language.c:59-62 | a break or continue outside of every loop is reported |
| EndToEnd.CompileHandler | libmcompiler/compiler/synt.c:86-167 | from tokens to words: the compiler outputs the code of a handler exactly if it has no <<= or >>= and no break or continue outside of a loop, and rejects it otherwise |
| EndToEnd.HandlerCorrect | constable/language/execute.c:686-716 | compiled from its tokens and run from any stack, a handler ends with the result and in the world its meaning says, with the stack below it as it was; when its meaning still runs after some steps, so does the interpreter |
| Correctness.EvalRuns | constable/language/execute.c:331-684 | the code of any expression, wherever it is loaded, leaves its value on top of the untouched stack and ends just behind itself |
| Correctness.CmdRuns | constable/language/language.c:31-87 | the code of any command has the outcome of the command: it falls through, breaks, continues or returns |
| Correctness.LogicRuns | constable/language/expression.c:133-152 | && and the two bars evaluate exactly the operands their meaning does |
| Correctness.CallRuns | constable/language/execute.c:622-637 | a call evaluates its arguments, runs the function, removes arguments and count, and leaves one result |
| Correctness.SelectRuns | constable/language/execute.c:452-463 | an attribute of an object replaces it; of anything else, 0 does |
| Correctness.LoopRuns | constable/language/language.c:39-48 | loops, with break, continue and else, for any number of rounds |
| Correctness.ForRuns | constable/language/language.c:49-58 | for loops, where continue goes to the step |
| Correctness.BodyRuns | constable/language/execute.c:638-654 | the body of a function or handler, to any depth of recursion, leaves its frame with its result |
| Correctness.NoEscapes | constable/language/language.c:59-62 | the meaning of a handler never ends in a break or continue |
| Meanings.NumberTruth | constable/language/alu.c:289-299 | a number as a condition holds exactly if one of its lower 32 bits is set, a path exactly if it is not null |
| Meanings.DataTruth | constable/language/alu.c:289-299 | a variable held in a register is true exactly if one of the words that hold its bytes is not 0 |
| Meanings.DataComesBack | constable/language/execute.c:80-169 | data that went over the stack comes back with the words that hold its bytes, and with its class only if its attribute marks a whole object |
| Meanings.StringComesBack | constable/language/execute.c:80-169 | a string comes back at its place with the attribute of a string of its own length |
| Execution.GetArgOf | constable/language/execute.c:198-222 | the i-th argument read from the stack is the i-th argument of the call |
| Execution.LeaveCall | constable/language/execute.c:638-654 | a return restores position and base and puts the result in place of the frame |
| Registers.PopPush | constable/language/execute.c:80-169 | R_pop undoes R_push for every shape of register, whatever lies beneath |
| ExecuteStack.SegmentedStack.Push | constable/language/execute_stack.c:49-64 | a push appends one cell, into a new segment where needed |
| ExecuteStack.SegmentedStack.Pop | constable/language/execute_stack.c:66-81 | a pop takes the last cell; an empty stack yields 0; segments are kept or freed as keep_stack says |
| ExecuteStack.SegmentedStack.ReadStack | constable/language/execute_stack.c:83-101 | a cell at a position from 1 is that of the sequence, beyond the segments 0 |
| ExecuteStack.SegmentedStack.GetStack | constable/language/execute_stack.c:17-38 | a segment comes from the free list or is new, and is in no stack |
| Interpreter.RPush | constable/language/execute.c:134-169 | registers are pushed on the segmented stack as their cells |
| Interpreter.RPopFrom | constable/language/execute.c:80-132 | and popped as the function says |
| Interpreter.Handler.GetArgument | constable/language/execute.c:198-222 | the i-th argument is read by popping down to it, and the stack is restored |
| Interpreter.Handler.DoCall | constable/language/execute.c:622-637 | a call saves position and base and opens a frame, or yields 0 for a function not defined |
| Interpreter.Handler.DoLeave | constable/language/execute.c:638-654 | a frame is left for its caller, or the run ends at its start |
| Interpreter.Handler.Step | constable/language/execute.c:331-684 | one round of the interpreter is one step of the machine |
| Interpreter.Handler.Execute | constable/language/execute.c:314-684 | the loop of the interpreter is a run of the machine |
| Events.StrongestWins | constable/event.c:331-356 | the result of a decision is the strongest thing any handler said, whatever their order; what no handler may say counts as DENY |
| Events.EntriesPass | constable/event.c:358-392 | one pass over a list of handlers goes as far as the uninterrupted run up to the first that waits |
| Events.NodesPass | constable/event.c:482-546 | so for the nodes of a subject or object |
| Events.EventPass | constable/event.c:579-639 | one call of do_event takes the uninterrupted run up to the next wait, or to its end |
| Events.NeverRetry | constable/event.c:596-632 | the result RETRY is never reached |
| Events.SuspensionInvisible | constable/event.c:358-639 | however often handlers wait, do_event called again and again runs the same handlers in the same order, each to completion once, to the same state and result, if no node vanishes at a wake-up |
| Events.LostDenial | constable/event.c:515-546 | if one does, a denial can be lost |
| EventOrder.ListHeard | constable/event.c:414-577 | where no handler waits, one list calls the accepted handlers of the event, then those for this event at each node of the subject that is found, then those at each node of the object, and reports -1 if none completed |
| EventOrder.OneNodeEach | constable/event.c:482-577 | with one node on each side: the handlers of the event, the subject handlers of the one node, the object handlers of the other |
| EventOrder.EventHeard | constable/event.c:579-639 | after list 0 the notification list is 3 exactly for the results 1 and 2, and 2 otherwise; after list 1 it is 3; after a notification there is none |
| EventOrder.ResultNumber | constable/event.c:331-356 | the number answered: 1 if a handler said 1 or what it may not say, otherwise 2 if one said 2, otherwise 0 if one said 0, otherwise 3; -1 if none said anything |
| EventFates.TakenUpOrLost | constable/event.c:482-546 | for subject and object: a suspended handler is called again if its node is found; otherwise neither it nor those left behind it are |
| EventFates.RunsOn | constable/event.c:482-639 | over all further calls the run goes on behind the handler if it was brought to its end, and behind all that was left under its class handler, with nothing said, if it was dropped |
| EventFates.CompletesIff | constable/event.c:482-546 | a suspended handler is brought to its end exactly if its node is found at every one of its wake-ups, and is dropped otherwise |
| EventFates.InvisibleWhereNodesStay | constable/event.c:358-639 | where no call and no wait takes a node away, suspension is invisible |
| EventBuffer.Buffer.DoEventHandler | constable/event.c:358-392 | one call of a handler, and its evaluated result |
| EventBuffer.Buffer.DoNodes | constable/event.c:482-546 | the loop over class handlers leaves do_phase, hh and ch as the pass does |
| EventBuffer.Buffer.DoEventList | constable/event.c:414-577 | the whole list, entered anew or where it was left |
| EventBuffer.Buffer.DoEvent | constable/event.c:579-639 | decision and notification |
| Queues.Queue.ToQueue | constable/comm_buf.c:225-236 | a buffer is appended to the linked queue |
| Queues.Queue.FromQueue | constable/comm_buf.c:238-253 | the first is taken |
| Queues.Queue.Del | constable/comm_buf.c:259-280 | an item is unlinked wherever it stands, and the others keep their order |
| Queues.Queue.TakeMatch | constable/mcp/mcp.c:933-945 | the first buffer that matches is taken, and no other |
| Queues.ChainRemoved | constable/comm_buf.c:259-280 | relinking around an item leaves a chain of all the others |
| ProtocolPlaces.StepOrdered | constable/comm.c:169-293 | every step of every thread keeps each live buffer in one place |
| ProtocolSafety.StepAnswers | constable/mcp/mcp.c:538-680 | every step keeps that a request has one live buffer or one answer |
| ProtocolSafety.StepKeys | constable/mcp/mcp.c:867-1118 | every step keeps that every waiter has sent a request of its own that is not answered |
| ProtocolSafety.AnswerFindsWaiter | constable/mcp/mcp.c:922-981 | an answer removes precisely the buffer that asked, and no two waiters of one kind share a number |
| ProtocolGate.StepGate | constable/comm.c:211-227 | every step keeps the gate of _init, as long as _init was started once at most |
| ProtocolGate.StepReady | constable/mcp/mcp.c:756-795 | every step keeps the count of READY answers |
| ProtocolRuns.RunSafe | constable/comm.c:169-293 | all of this holds in every state of every run |
| ProtocolRuns.OnePlace | constable/comm_buf.c:125-149 | in every interleaving no buffer is in two queues or twice in one, and a freed one is in none |
| ProtocolRuns.AnsweredOnce | constable/mcp/mcp.c:538-680 | in every interleaving an arrived request is answered once, or has one live buffer and is not answered yet |
| ProtocolHistory.AnswerTells | constable/mcp/mcp.c:592-612 | in every run an answer carries the result that the event of its own request has ended with, while a worker ran the buffer of that request |
| ProtocolHistory.TakenInOrder | constable/comm_buf.c:225-253 | in every run the workers take from comm_todo what has entered it, in the order in which it entered |
| ProtocolUpdates.UpdatedFirst | constable/mcp/mcp.c:557-590 | in every run a request with a subject of class k that was answered without an error was preceded by an update of class k, sent while a worker handled this request, and answered by the kernel |
| ProtocolRequests.RequestTells | constable/mcp/mcp.c:867-1077 | in every run a request for data names the kind and class that a handler on this connection asked for, or the class of the subject of a request that is about to be answered |
| ProtocolResume.FoundAsLeft | constable/comm.c:193-293 | from every state of every run: a buffer that was put back is found, when a worker has it next, with the do_phase and the suspended handler, or the result, that its worker left |
| ProtocolResume.FoundAsAsked | constable/comm.c:193-293 | so for a buffer whose handler has asked the kernel, once its worker has unlocked it |
| ProtocolResume.SentInOrder | constable/mcp/mcp.c:798-836 | the writer sends what was said one message after the other, and what was said is never taken back |
| ProtocolResume.KeyOnlyWhileDue | constable/mcp/mcp.c:1079-1118 | in every run a live buffer has a key exactly while an answer is due to it |
| ProtocolRuns.ArrivalOrder | constable/mcp/mcp.c:479-536 | requests enter comm_todo in the order of their arrival, across the hand-over from _init, if READY is asked for once at most and not before version 3, or _init is not configured |
| ProtocolRuns.InitFirst | constable/comm.c:310-351 | then, in every interleaving, no request is handled before every _init of its connection has ended; GateExactly says that it holds for no other number of READY requests |
| ProtocolFirst.SomeInitFirst | constable/comm.c:211-227 | in every run, however often the kernel asks for READY, no request is handled before an _init of its connection has ended, where one is configured |
| ProtocolRuns.ReadyPerRequest | constable/mcp/mcp.c:776-795 | without _init one READY is sent for every request for it; what is promised holds exactly if there was one at most, and none before version 3 |
| ProtocolRuns.ReadyAfterInit | constable/comm_buf.c:125-149 | with _init READY is sent once, when it has ended, if asked for once at most; never before version 3 |
| ProtocolLimits.OrderExactly | constable/comm.c:310-351 | arrival order holds in all runs with n READY requests at most exactly if n is at most 1, and 0 before version 3, or no _init is configured |
| ProtocolLimits.GateExactly | constable/comm.c:310-351 | a request finds every _init of its connection ended, in all runs with n READY requests at most, exactly if n is at most 1, and 0 before version 3, or no _init is configured |
| ProtocolLimits.Ungated | constable/comm.c:211-227 | with one READY request more, on either version, a request is handled while the second _init is suspended |
| ProtocolLimits.ReadyExactly | constable/mcp/mcp.c:756-795 | the one READY holds in all runs with n READY requests at most exactly if n is at most 1 from version 3 on, and before it if n is 0 or _init is configured |
| ProtocolLimits.Overtaken | constable/comm.c:211-227 | with two READY requests a later query overtakes an earlier one |
| ProtocolLimits.OldOvertaken | constable/mcp/mcp.c:479-512 | with a query and then one READY request on version 2, too |
| ProtocolLimits.AskedTooOften | constable/mcp/mcp.c:776-795 | a second READY, and a READY on version 2 |
| ProtocolLimits.AskedAgain | constable/mcp/mcp.c:776-795 | READY asked for again after _init |
| ProtocolProgress.NeverStuck | constable/comm.c:169-293 | while a buffer is live that does not wait for itself, some thread can take a step or the kernel owes an answer that is enabled |
| ProtocolProgress.RefusedForever | constable/language/execute.c:686-692 | a request that waits for itself is not answered in any continuation |
| ProtocolRefusals.RefusedWhere | constable/language/execute.c:686-692 | a handler is refused exactly if another one is suspended in the buffer of the request, and it runs otherwise |
| ProtocolRefusals.SelfWaited | constable/language/execute.c:686-692 | a run from the start, on any version, with and without _init, with one suspension, at whose end a request waits for itself |
| ProtocolRefusals.NeverSelfWaits | constable/language/execute.c:686-692 | in a run without a suspension no request ever does |
| ProtocolRefusals.NeverWaitsExactly | constable/language/execute.c:686-692 | no request waits for itself, in all runs with n suspensions at most, exactly if n is 0 |
| ProtocolAnswers.StepNearer | constable/comm.c:169-293 | every step of a thread that starts no handler makes what is left to do for all buffers and writers less |
| ProtocolAnswers.AnswerableExactly | constable/comm.c:169-293 | from every state of every run, some continuation answers a live request exactly if it does not wait for itself |
| ProtocolAnswers.NoneLostExactly | constable/comm.c:169-293 | every request that has arrived has been answered or can still be, in all runs with n suspensions at most, exactly if n is 0 |
| Graphs.AcyclicWith | constable/rbac/roles.c:244-265 | a new edge keeps the hierarchy acyclic exactly if its end does not reach its start |
| RoleStore.CacheCovers | constable/rbac/roles.c:180-197 | a closed cache that holds every own right holds every inherited one |
| RoleStore.Settled | constable/rbac/roles.c:189-197 | handing rights up from one role makes the cache closed and grounded again |
| RoleStore.AddToIs | constable/rbac/roles.c:287-315 | a permission is added once, and chunks stay within their size |
| RoleStore.DelFromIs | constable/rbac/roles.c:317-346 | one occurrence is removed, and an empty chunk with it |
| RoleAdmin.Rbac.InheritSup | constable/rbac/roles.c:189-197 | the recursion hands the rights of a role to all its superroles and changes nothing else |
| RoleAdmin.Rbac.IsSubrole | constable/rbac/roles.c:233-242 | decides whether a role is a proper transitive subrole |
| RoleAdmin.Rbac.SetHierarchy | constable/rbac/roles.c:244-265 | the edge is refused exactly if it would close a cycle, and the cache stays right |
| RoleAdmin.Rbac.DelHierarchy | constable/rbac/roles.c:267-285 | the newest node of the edge goes, a rebuild is due, and the cache stays a superset |
| RoleAdmin.Rbac.AddPerm | constable/rbac/roles.c:287-315 | the permission is added, and its rights go up at once |
| RoleAdmin.Rbac.DelPerm | constable/rbac/roles.c:317-346 | one occurrence goes, and a rebuild is due |
| RoleAdmin.Rbac.Reinit | constable/rbac/roles.c:199-231 | rebuilding makes the cache exact, whatever the order of the roles |
| RoleAdmin.Rbac.RoleAdd | constable/rbac/roles.c:22-61 | a name is taken once, and the list stays sorted |
| RoleAdmin.Rbac.RoleDel | constable/rbac/roles.c:63-93 | the role goes with its assignments, permissions and edges, and the cache stays right |
| RoleAdmin.Rbac.AddUa | constable/rbac/roles.c:107-143 | the next slot, or an empty one when all are in use; both lists agree |
| RoleAdmin.Rbac.DelUa | constable/rbac/roles.c:145-170 | the slot is emptied and the node goes |
| RoleAdmin.Rbac.UserAdd | constable/rbac/users.c:14-50 | a user without roles |
| RoleAdmin.CacheExact | constable/rbac/roles.c:180-231 | while no rebuild is due the cache of a role is exactly the rights of its reflexive-transitive subroles; otherwise at least those |
| RoleHistory.Serve | constable/rbac/adm.c:102-330 | one request changes what the store holds as its name says, and nothing else, and is reported as done exactly if all it names is there and what it adds is neither there nor in the way |
| RoleHistory.ServeAll | constable/rbac/adm.c:102-330 | after any sequence of requests the hierarchy is acyclic and the cache right for what they have left in the store |
| RoleText.AccessReadBack | constable/rbac/save.c:16-24 | the word written for an access type is read as that type, though some types have two words |
| RoleSaving.At2Str | constable/rbac/save.c:16-24 | the first keyword with the data of the type |
| RoleSaving.Saver.SaveRole | constable/rbac/save.c:26-62 | a role is written once, after all its subroles |
| RoleSaving.Saver.SaveRoles | constable/rbac/save.c:64-72 | every role is written, in an order in which every name is known when it is used |
| RoleLoading.Loader.Out | constable/rbac/load.c:58-104 | one action of the reader changes the store and the current role as its case says |
| RoleLoading.Loader.Load | constable/rbac/load.c:124-139 | reading a text performs the actions of the table in order |
| RoleRoundTrip.BlocksRead | constable/rbac/load.c:124-139 | the text written for the roles is accepted and gives back the calls for them |
| RoleRoundTrip.SavedThenLoaded | constable/rbac/load.c:58-104 | saving and loading rebuilds the same roles, edges, assignments and permissions, each as often, without an error |
| RoleWords.LineGrants | constable/rbac/load.c:58-104 | a line of a word and one or more spaces grants the role of the block the access type the word names for each of the spaces: READ and RECEIVE, WRITE and SEND, MEMBER, SEE, CREATE, ERASE, ENTER, CONTROL; any other word rejects the file |
| RoleWords.OneRoleGrants | constable/language/lex.c:100-109 | the permission of a file with one role and one line, by the number of its access type, for each of the ten words |
| Vs.Add | constable/vs.c:102-106 | the union, into the second argument |
| Vs.Sub | constable/vs.c:114-118 | the difference |
| Vs.Test | constable/vs.c:139-146 | whether two sets meet |
| Vs.IsSub | constable/vs.c:148-154 | whether one is a subset |
| Vs.IsClear | constable/vs.c:161-167 | whether a set is empty |
| Vs.Allocator.Alloc | constable/vs.c:29-44 | the next bit alone, up to 64 of them |
| Authority.SpaceIds.GetVs | constable/space.c:1178-1202 | a space keeps its bit, and no two share one |
| Authority.FindByUid | constable/rbac/users.c:60-66 | the first user with the uid |
| Authority.SessionVs | constable/rbac/proc.c:70-97 | the walk over the session word collects the rights of exactly the active roles |
| Authority.GetVs | constable/rbac/proc.c:70-97 | roles are made valid first; an unknown uid is an error |
| Authority.AuthorityIs | constable/rbac/proc.c:70-97 | what a session reaches meets the spaces of an object exactly if an active role has a subrole that holds the access type for one of them |
| Decisions.NodeAuthority | constable/rbac/proc.c:70-97 | so for a node of the tree and the spaces of which it is a member by their includes and excludes, with the bits that were allocated |
| Decisions.Decide | constable/rbac/proc.c:70-97 | the whole way: after the spaces are evaluated and the rights of a process collected, its rights meet the bits of any node exactly if an active role of the first user with the uid has a subrole that was granted the access type for a space of which the node is a member |
| Trees.ForAltI | constable/tree.c:465-495 | the walk over children and patterns visits exactly the alternatives below a node |
| Trees.ForAlternatives | constable/tree.c:497-506 | all alternatives of a node |
| Trees.IsEqual | constable/tree.c:508-526 | whether a node is an alternative of another |
| Trees.IsOffspring | constable/tree.c:528-554 | whether it lies below an alternative of it |
| Trees.AltByName | constable/tree.c:197-207 | of the children of an alternative's parent, a node .* has all as alternatives, one with another pattern the plain ones the pattern fits and those with a pattern of its name, a plain one the plain ones of its name |
| SpaceRules.SunkBelow | constable/space.c:381-412 | what is excluded with all below it is excluded all the way down |
| SpaceRules.ListsMember | constable/space.h:130-204 | the nodes listed at the end of a path are those some chain of included spaces reaches and none of its spaces excludes |
| Spaces.World.PathAdd | constable/space.c:258-277 | a space twice on the path or a path too long is fatal; a space on the path is used |
| Spaces.World.IsIncluded | constable/space.c:360-367 | decides what a space that includes nodes only holds |
| Spaces.World.IsExcludedI | constable/space.c:381-412 | 0 if a space does not exclude a node, 2 only if it excludes all below it |
| Spaces.World.PathExclude | constable/space.c:430-442 | 0 exactly if no space of the path excludes the node |
| Spaces.World.ForOnePathI | constable/space.c:478-494 | visits exactly the nodes of a subtree that are not excluded |
| Spaces.World.ForOnePath | constable/space.c:511-521 | for every alternative of a node |
| Spaces.World.ForEveryPathI | constable/space.c:537-564 | for every item of a space and of the spaces it includes |
| Spaces.NothingBelow | constable/space.c:478-494 | pruning at a node that is excluded with all below it loses nothing |
| SpaceApply.Evaluate | constable/space.c:752-787 | the array of a space holds every member exactly once |
| SpaceApply.ClearVisited | constable/space.c:705-708 | no node stays marked |
| SpaceApply.TotalFalls | constable/space.c:736-844 | evaluating a space makes the weight of what is left fall, although it may mark others as used again |
| SpaceApply.Settle | constable/space.c:749-801 | the worklist with restarts ends |
| SpaceApply.RemoveUnused | constable/space.c:803-826 | what is not processed is not used: the abort is never reached, and the others stay in order |
| SpaceApply.SetVs | constable/space.c:828-841 | every member gets the bits of its spaces, and no node any other |
| SpaceApply.ApplyAll | constable/space.c:736-844 | on every acyclic graph of spaces: it ends, every space left has a non-empty array of exactly its members, no node stays marked, and it fails only for a path too long or an identified space without a member |
| Codec.FitValue | constable/object_endian.c:20-70 | cutting or filling up digits keeps the value modulo the length, with its sign; a longer one keeps it |
| Codec.SetThenGet | constable/object_endian.c:20-136 | a value set and got back through any two lengths is the value truncated or extended to both |
| Codec.TurnedDigits | constable/object_endian.c:138-157 | turning bytes around and the byte order with it keeps the number |
| Codec.CopyReversed | constable/object_endian.c:12-18 | a copy with the bytes in reverse |
| Codec.Object.GetVal | constable/object_endian.c:20-70 | integers, bitmaps and strings, cut or filled up, in either byte order of host and object |
| Codec.Object.SetVal | constable/object_endian.c:72-136 | the same way back, and no other byte changes |
| Codec.Object.SwapEndian | constable/object_endian.c:138-157 | the bytes of an integer attribute in reverse, for odd lengths too |
| Codec.Object.SetByteOrder | constable/object_endian.c:175-186 | every integer attribute keeps its value, if they do not overlap, and no other byte changes |

## Left out

- Compiler: recovery after the first error; only the first error of a text is modelled. The layout is that without DEBUG_TRACE.
- Parsing.Parsed: speaks of the tokens of trees, with any parentheses; that every accepted token string is the text of a tree is not stated, nor are bodies without braces.
- EndToEnd.HandlerCorrect: no switch, no local, transparent or aliased variables, no typeof, commof, space constants and builtins, whose instructions are outside of the machine; a step where an argument that does not exist is read, or the empty string, is left open. ALU, assignment and loading of variables are functions of the daemon's state.
- Interpreter.Handler.Execute: a handler that pops below the position it was started at is left there at its end, where the source sets the position to the start; compiled handlers do not do so. Register flags, which R_push does not keep, are left out.
- ExecuteStack.SegmentedStack.Push: cells are unbounded numbers, and the list of free segments is never exhausted.
- BackPatch.BackPatched: a label set or counted while no section is open ends the sequence, where the source would follow a null pointer; Nesting.NeverStray says that the compiler never does so.
- Events.SuspensionInvisible: handlers, class handlers and the tree are functions of the daemon's state; that another compiled handler is refused while one is suspended is a step of Protocol.
- Protocol: the kernel uses a request id once per connection and answers only what it was sent, each once; fetch and update go to the connection of the request. What do_event does is open: it ends, goes on or asks, and the node of a suspended handler may vanish at any time.
- Protocol: greetings, class and access type definitions, comm_buf_resize, free lists, close, accept and reconnect, the forwarder; a fetch error is a fetch answer. Failing allocations.
- ProtocolProgress.NeverStuck: an enabled step; ProtocolAnswers.AnswerableExactly gives the continuation that answers. That every fair run answers is not stated.
- RoleAdmin.Rbac.SetHierarchy: a role above itself is excluded, since the source does not come back for it; names are numbers in their order, and not cut at their length. The locks are not modelled, nor vs_sub, which stays empty.
- RoleHistory.Serve: the events that decide whether a request is served, and the buffers that wait for them.
- RoleAdmin.Rbac.Reinit: spaces have fixed bits here; the contribution of the tree through generic_set_handler is empty.
- RoleLoading.Loader.Load: no outcome where the source goes on with a null role or sets a role above itself; recovery after a token the table does not accept.
- Saving: rotation of files, and their input and output.
- Authority.SpaceIds.GetVs: the 65th space gets no bit, where the source stops with a fatal error.
- Decisions.NodeAuthority: a space has its own bit only under AT_MEMBER, so no space is granted membership of another.
- Spaces.World.IsIncluded: exact where excluded spaces are excluded as they stand and include nodes only, since is_included_i does not take a space off its path again; everywhere else it may end in a fatal error.
- SpaceApply.ApplyAll: the members are exact under the same condition; primary spaces, events of spaces and the expansion of alternatives are left out. Patterns are a predicate on names.
- Vs.Add: a word is the list of its 32 bits.
- Codec.Object.SetByteOrder: attributes that overlap; object_copy and object_resize_data.
- Regular expressions, lexers, preprocessors, sockets, logging, the force linker and malloc failure.
