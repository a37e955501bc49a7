# AsyncEngine: a verified model

AsyncEngine is an event reactor for Ruby on top of libuv. This project models its two hard parts in
Dafny and proves what they promise.

**Telling IP addresses apart.** `ae_ip_parser_execute` is a generated automaton of 327 states that
classifies a string as an IPv4 address, an IPv6 address, or an IPv6 address in brackets, by the grammar of
section 3.2.2 of RFC 3986; `compare_ips` compares two such strings by address.

- `IpGrammar` is the grammar, rule by rule; `IpWords` proves its counting form (section 2.2 of RFC 4291).
- `IpReading` is a reader that splits a string into groups character by character, with its inverse.
- `IpTable` is the table of the automaton, state by state; `IpAutomaton` ties every state to the readings
  it stands for, and every transition to a step of the reader.
- `IpParser` is the loop over the buffer, and what each result means for all strings.
- `IpAddress` gives words their address; `IpUtils` is the comparison, with its 46-byte buffers; `IpSpelling`
  proves which spellings are the same address, in terms of the strings alone.

The automaton leaves its loop by comparing `p` with the end of the input and does not look at the state it
is in, so a string that passes a final state and is then cut short is still reported as ipv6 ("1::2:",
"::1.2"). The model keeps that; `IpParser.ResultMeans` says exactly which strings are reported, and
`IpParser.Ipv6ResultIsExactWhen` exactly when the report is right.

**The reactor.** Run, release and stop; the two queues of procs; the handle table; TCP sockets; timers; the
capture of errors.

- `TcpSpec` and `TimerSpec` are one socket and one timer as functions on their state; `TcpRuns` proves what
  holds in all their lives, and `TcpEffects` and `TimerEffects` what each call and event brings about, told by
  the events before it alone. `Tcp` and `Timers` are the C code itself, as classes whose methods update fields;
  each method is proved to do what the functions say, so the lives are lives of these classes.
- `ReactorSpec` is the reactor as a state machine. libuv, the other threads and the program are its
  environment: libuv delivers whatever it may, in any order, any thread calls whatever it likes, and code of
  the program, wherever C calls into it, makes any calls before it returns or raises.
- `ReactorInv` proves that each step keeps the invariant; `ReactorRuns`, `ReactorSockets`, `ReactorTimers`,
  `ReactorRelease` and `ReactorStops` prove what follows for every run, and `ReactorEffects` what each step
  brings about: who waits for the mutex, what runs next, and what is made.
- `Reactor` is the C code of the reactor: the loop over a batch, the loop over the handle table, the error
  handlers that call each other, the run from the mutex to its release. The environment is a script, any list
  of events; under every script the code takes only steps of the state machine, recorded in `log`.

What libuv is taken to promise is `Enabled` in `TcpSpec`, `TimerSpec` and `ReactorSpec`: a request completes
once, and only with an error after `uv_close`; a closed handle is neither read nor timed; the close callback
follows the requests; `uv_run` returns only when no handle or request is active and none is closing. Whether
a libuv call succeeds is a parameter (`ok`) of the call. The calls that the C code wraps in an assertion
(`uv_read_start`, `uv_read_stop` and the two shutdowns begun by callbacks) are taken to succeed. The entries
from other threads are atomic, as they are under Ruby's global lock; handles are used on the loop thread only.

Where code and comments disagree the model follows the code: `_ae_write_callback` says it does not run write
blocks while releasing, but it tests a flag that only `destroy` sets, and only on a socket it finds open
(`TcpRuns.WriteBlockIsSkippedOnlyAfterDestroy`). The documentation of `compare_ips` promises nil for every
string that is no address; a string cut off after an IPv6 address gives false, and no other does
(`IpUtils.NotNilExactlyWhenCutOff`).

`dafny verify dfyconfig.toml` verifies the project.

## Model
The first 65 rows are the main results, in the order of the two parts above. The rows after them are what
they rest on and the single methods, file by file.

| member | source | states |
|---|---|---|
| IpParser.ResultMeans | ext/asyncengine/ip_parser.c:5944-5954 | for all strings: ipv4 and ipv6_reference are returned exactly for the words of their grammars; ipv6 exactly for the strings that begin some IPv6address and have a prefix that is one |
| IpParser.FinalStatesAreTheGrammar | ext/asyncengine/ip_parser.c:31-56 | the automaton consumes a string and ends in a final state exactly when the string is an IPv4address, an IPv6address or a bracketed one, and ip_type then names which |
| IpParser.Ipv6ResultIsExactWhen | ext/asyncengine/ip_parser.c:5944-5954 | an ipv6 result is right if and only if the string does not end in a single colon after something, in a dot, or with one or two dots, equivalently if the automaton stopped in a final state |
| IpAutomaton.MoveFollowsReader | ext/asyncengine/ip_parser.c:50-5616 | on every state that stands for a reading and every character, the move of the 327-state table (error, goto, goto with an assignment to ip_type) is the one the reader makes |
| IpWords.IPv6IsCounting | ext/asyncengine/ip_parser.rl:14-24 | the nine alternatives of IPv6address accept exactly the strings of eight units without "::", or with one "::" and at most seven units around it, an IPv4 address at the end counting as two |
| IpWords.SplitIsUnique | ext/asyncengine/ip_parser.rl:14-24 | a string of the counting form has one "::", and splits into the units left and right of it in one way only |
| IpReading.ScanComplete | ext/asyncengine/ip_parser.rl:9-25 | every well-formed reading is what the reader makes of its text: reading and writing are inverse |
| IpUtils.CompareMeans | ext/asyncengine/ae_ip_utils.c:123-180 | nil exactly when either input is classified no_ip; true exactly for two words with the same family and address, bracketed alike unless references are allowed; allowing references only adds pairs |
| IpSpelling.SameIPv6IsTheSameSpelling | ext/asyncengine/ae_ip_utils.c:98-105 | two IPv6 words are answered true if they are the same eight groups once "::" is written out and each group has four lower-case digits, and false if they are not |
| IpSpelling.SameIPv4IsTheSameWord | ext/asyncengine/ae_ip_utils.c:89-97 | two IPv4 words are answered true if they are the same string and false if they are not |
| IpSpelling.CaseDoesNotMatter | ext/asyncengine/ae_ip_utils.c:123-180 | for all strings, words or not, writing either of them in lower case leaves the answer as it is |
| IpUtils.NotNilExactlyWhenCutOff | ext/asyncengine/ae_ip_utils.c:114-122 | a string that is no word is answered otherwise than nil if and only if it was cut off after an IPv6address and the other string is classified; it never equals anything |
| IpUtils.CompareIsTransitive | ext/asyncengine/ae_ip_utils.c:123-180 | equality is transitive for each value of the flag |
| IpUtils.ResultLength | ext/asyncengine/ae_ip_utils.c:78-87 | a string classified ipv4 has at most 15 characters, ipv6 at most 45, ipv6_reference between 2 and 47, so what is copied fits the 46-byte buffers |
| IpUtils.CompareIps | ext/asyncengine/ae_ip_utils.c:123-180 | the offsets, lengths and counter the method updates lead to the answer of Compare on all inputs |
| IpAddress.EveryAddressHasAWord | ext/asyncengine/ip_parser.rl:14-24 | each of the 2^128 addresses is the value of a word: writing out and reading back is the identity |
| IpAddress.WritingOutKeepsTheAddress | ext/asyncengine/ip_parser.rl:16-24 | replacing "::" by the zero groups it hides gives an eight-unit word with the same address |
| TcpRuns.CallbacksAreATrace | ext/asyncengine/ae_tcp.c:321-391 | in every life of a socket its callbacks are a prefix of on_connection_error, or of on_connected on_data_received* on_disconnected |
| TcpRuns.TerminalsCount | ext/asyncengine/ae_tcp.c:848-905 | a socket has had exactly one terminal callback once its handle is closed and its connect has completed, and none before |
| TcpRuns.ClosedOnce | ext/asyncengine/ae_tcp.c:334-358 | uv_close is called on the handle once when it is closed and never before, likewise on each timeout timer, and @_handles holds the socket exactly until both handle and connect are done |
| TcpRuns.NoDataAfterGracefulClose | ext/asyncengine/ae_tcp.c:789-817 | after close_gracefully has returned true, on_data_received is not called again in any continuation, and no later call returns true |
| TcpRuns.WritesAreConserved | ext/asyncengine/ae_tcp.c:493-574 | writes accepted by send_data are those completed plus those pending, in every run |
| TcpRuns.TimeoutIsReported | ext/asyncengine/ae_tcp.c:377-387 | a failed connect is told ETIMEDOUT if and only if the timeout timer had fired |
| TcpRuns.DisconnectTellsTheReason | ext/asyncengine/ae_tcp.c:820-872 | on_disconnected is told the read error when a failed read closed the handle, EOF when a shutdown did and the peer had ended, and nil otherwise |
| TcpRuns.WriteBlockIsSkippedOnlyAfterDestroy | ext/asyncengine/ae_tcp.c:577-595 | a write block is skipped if and only if it was destroy that closed the handle |
| TcpEffects.ReadsUntilToldNotTo | ext/asyncengine/ae_tcp.c:336-350 | in every life a socket reads if and only if it has connected, no close_gracefully was made, no end of file was seen and nothing closed it; while it reads libuv can deliver data, end of file or an error |
| TcpEffects.CloseGracefullyAnswers | ext/asyncengine/ae_tcp.c:789-817 | after every life close_gracefully answers true if and only if the handle is open, none before was answered true, and the socket is connecting or uv_shutdown succeeds; it answers false exactly on a closed handle or after an earlier true |
| TcpEffects.TimeoutIsDueExactlyWhenSet | ext/asyncengine/ae_tcp.c:655-702 | the timeout can fire exactly from a set_connect_timeout answered true until the socket connects or is closed |
| TimerSpec.LifeOfATimer | ext/asyncengine/ae_timer.c:113-138 | in any life a Timer fires at most once, has no interval, a delay of at least 1 ms, and is closed once it has fired |
| TimerEffects.TimerIsTimedAsAsked | ext/asyncengine/ae_timer.c:113-138 | in every life without a restart a Timer made with d ms has the larger of d and 1 as its stored delay and as the timeout of libuv, and does not repeat |
| TimerEffects.PeriodicTimerIsTimedAsAsked | ext/asyncengine/ae_timer.c:149-180 | in every life without a restart a PeriodicTimer made with i ms repeats at the larger of i and 1; its first delay is the one given, at least 1, or else the interval |
| TimerEffects.FiresUntilStopped | ext/asyncengine/ae_timer.c:223-262 | in every life of a started timer libuv can fire it exactly while it is open and every accepted pause was followed by an accepted restart; the proc is called once for each firing; only close, destroy and the firing of a one-shot close the handle |
| TimerSpec.StoppedDoesNotFire | ext/asyncengine/ae_timer.c:223-244 | a timer libuv does not run calls its proc no more until a restart, and a closed one never |
| TimerSpec.StartsUseTheDelays | ext/asyncengine/ae_timer.c:208-218 | while every start succeeds libuv times the timer by the stored delay and interval |
| ReactorInv.StepKeeps | ext/asyncengine/asyncengine_ruby.c:101-328 | every step of the program, of any thread, of libuv and of the C code keeps the invariant of engine, control, queues, handles, lookups and errors |
| ReactorRuns.ReachedFits | ext/asyncengine/asyncengine_ruby.c:101-328 | the invariant holds in every state that any run reaches, through any number of restarts |
| ReactorRuns.OneLoop | ext/asyncengine/asyncengine_ruby.c:118-142 | a loop exists exactly while the mutex is held, by the thread recorded; C callbacks and Ruby code run only then |
| ReactorRuns.LockFindsStopped | ext/asyncengine/asyncengine_ruby.c:123-166 | when rb_mutex_lock returns the status is stopped, so both early returns are unreachable; the internal handles are NULL, nothing is active, and the run starts with just the given proc queued |
| ReactorEffects.WaitingMoves | ext/asyncengine/asyncengine_ruby.c:112-123 | a thread waits in rb_mutex_lock, with its proc, from an AE.run on an engine that does not run until it gets the mutex; a thread that holds the mutex does not wait |
| ReactorEffects.RunStartsTheProc | ext/asyncengine/asyncengine_ruby.c:122-171 | and that run goes on to start the proc first: a block of the program runs on a running engine in the thread that called, the block of AE.stop begins the release |
| ReactorRuns.StatusMoves | ext/asyncengine/asyncengine_ruby.c:282-302 | the status moves only from running to releasing, to stopped, and to running under the mutex, each by its own step |
| ReactorRuns.ProcsAreConserved | ext/asyncengine/ae_next_tick.c:66-107 | while running, procs accepted = procs started ++ rest of the batch ++ queue, for both queues; always, those started are a prefix of those accepted |
| ReactorRuns.AcceptedAreTheCalls | ext/asyncengine/ae_call_from_other_thread.c:54-68 | what is accepted is exactly what calls hand in while running, by any thread, in their order |
| ReactorRuns.StartedAreTheBatches | ext/asyncengine/ae_call_from_other_thread.c:93-100 | what is started is exactly what the batches call, in their order |
| ReactorRuns.NoLostWakeUp | ext/asyncengine/ae_call_from_other_thread.c:64-66 | a queue that is not empty has its wake-up pending, or its callback is about to take it; a polling loop can always be woken for it |
| ReactorEffects.IdleRunsWhileProcsWait | ext/asyncengine/ae_next_tick.c:66-84 | in every reachable state of a running engine the idle handle is active if and only if procs wait for it whose callback has not begun |
| ReactorRuns.StopIsNeverPassed | lib/asyncengine.rb:29-38 | while the engine runs no batch has started the block of AE.stop; one that was accepted waits in the queue or in the rest of the batch |
| ReactorRuns.StopEndsTheRunning | lib/asyncengine.rb:29-38 | once all that a queue had accepted has been started, the block of AE.stop among it, the engine runs no more, in every run |
| ReactorRuns.ExitErrorOfARun | ext/asyncengine/asyncengine_ruby.c:185-190 | over any run the error left for AE.run is the first one that its handlers did not absorb, whatever is raised later |
| ReactorRuns.ErrorEndsTheRunIff | ext/asyncengine/asyncengine_ruby.c:389-412 | an error releases the engine if and only if there is no user handler, it is not a StandardError, or the handler itself raised it; what is stored is that error, with a Thread#kill outside the handler replaced by an Interrupt |
| ReactorEffects.HandlerIsEntered | ext/asyncengine/asyncengine_ruby.c:383-412 | in every reachable state an error enters the user handler if and only if there is one, it is a StandardError and it came from a callback or block of a running engine; no Ruby code runs after any other error |
| ReactorRuns.StoppedIsQuiescent | lib/asyncengine/debug.rb:3-13 | in every run that reaches stopped: @_handles, @_procs and both queues are empty, each uv handle was closed exactly once, no request is left, each socket has had exactly one terminal callback |
| ReactorRuns.HandleTable | ext/asyncengine/ae_handle_common.c:31-55 | in every reachable state @_handles holds a socket exactly while its handle is open or its connect pending, and a timer exactly while open |
| ReactorSockets.EverySocketHasALife | ext/asyncengine/ae_tcp.c:255-905 | what happens to a socket inside any run of the reactor is a life of the socket model: the projection of the run |
| ReactorSockets.NoDataAfterGracefulClose | ext/asyncengine/ae_tcp.c:789-817 | the graceful-close guarantee in every run of the reactor |
| ReactorTimers.EveryTimerHasALife | ext/asyncengine/ae_timer.c:113-418 | every timer in any run of the reactor was made by one of the two constructors and has lived a life of the timer model: the projection of the run |
| ReactorTimers.PausedDoesNotFire | ext/asyncengine/ae_timer.c:250-262 | the guarantee of pause in every run of the reactor |
| ReactorRelease.TraversalAdvances | ext/asyncengine/asyncengine_ruby.c:318-338 | each destroy takes one entry out of those still to visit |
| ReactorRelease.WorkDrops | ext/asyncengine/asyncengine_ruby.c:304-328 | each libuv event then takes away exactly one unclosed handle or pending request, and no other step changes their number |
| ReactorRelease.ReleaseTerminates | ext/asyncengine/asyncengine_ruby.c:304-328 | so in every run after a release libuv delivers at most as many events as handles and requests were left |
| ReactorStops.CanAlwaysStop | lib/asyncengine.rb:29-38 | from every reachable state AE.stop by some thread leads on to stopped: the reactor has no dead end |
| Reactor.AsyncEngine.RunBatch | ext/asyncengine/ae_next_tick.c:87-107 | under every script: the loop over the procs ends polling, and if the engine still runs it has started every proc of the batch in order |
| Reactor.AsyncEngine.ReleaseLoop | ext/asyncengine/asyncengine_ruby.c:282-328 | under every script: afterwards every handle is closed, @_procs is empty and the internal handles are gone; a second call does nothing |
| Reactor.AsyncEngine.RunWithErrorHandler | ext/asyncengine/ae_handle_common.c:183-231 | under every script: the code is entered, its calls are made, the step that ends it is its return or its error, and control is back in the C code where it was |
| Reactor.AsyncEngine.RunLocked | ext/asyncengine/asyncengine_ruby.c:123-194 | a whole run under every script: if it ends, the engine is stopped, empty and unlocked, and what is captured is the exit error of the run that the log records |
| IpWords.IPv6IsRead | ext/asyncengine/ip_parser.rl:14-24 | a string is an IPv6address exactly when the left-to-right reader accepts it as a complete one |
| IpWords.IPv4IsRead | ext/asyncengine/ip_parser.rl:11-13 | a string is an IPv4address exactly when the reader accepts it as four octets |
| IpWords.ReferenceIsRead | ext/asyncengine/ip_parser.rl:25 | a string is a bracketed IPv6address exactly when the reader accepts it as closed |
| IpReading.ScanSound | ext/asyncengine/ip_parser.rl:9-25 | what the reader accepts, character by character, is a well-formed reading whose text is the input |
| IpReading.ReadingIsUnique | ext/asyncengine/ip_parser.rl:9-25 | two well-formed readings with the same text are equal |
| IpAutomaton.FinalIsComplete | ext/asyncengine/ip_parser.c:39-42 | the states numbered 237 and up are exactly those whose reading is a complete word |
| IpParser.RunFollowsScan | ext/asyncengine/ip_parser.c:50-5616 | over a whole input the automaton dies exactly when the reader rejects, and otherwise stands in the state of the reading |
| IpParser.TypeIsRemembered | ext/asyncengine/ip_parser.c:5944-5954 | in every live state ip_type is ipv4 exactly when the IPv4 word is complete, ipv6_reference exactly when the bracket is closed, and ipv6 exactly when some prefix read so far was an IPv6address |
| IpParser.LiveCanFinish | ext/asyncengine/ip_parser.c:50-5616 | every live state on the IPv6 path has a continuation that is an IPv6address |
| IpParser.PrefixIsLive | ext/asyncengine/ip_parser.c:50-5616 | a prefix of an IPv6address never leads to the error state |
| IpParser.MissingGroup | ext/asyncengine/ip_parser.c:5944-5954 | "1::2:" is classified ipv6 and is not an IPv6address |
| IpParser.MissingOctets | ext/asyncengine/ip_parser.c:5944-5954 | "::1.2" is classified ipv6 and is not an IPv6address |
| IpParser.Execute | ext/asyncengine/ip_parser.c:31-56 | the loop over the character buffer returns ipv4 and ipv6_reference exactly for their grammars, and ipv6 exactly as ResultMeans says, for every buffer and length |
| IpAddress.PtonAcceptsTheGrammar | ext/asyncengine/ae_ip_utils.c:89-105 | the address value is defined exactly on the words of the grammar |
| IpAddress.SameAddressSameFullWord | ext/asyncengine/ae_ip_utils.c:98-105 | two IPv6 words have the same address exactly when their full forms are the same word |
| IpAddress.EveryIPv4AddressHasAWord | ext/asyncengine/ip_parser.rl:11-13 | each four-octet address is the value of its decimal word |
| IpAddress.QuadTailIsTwoGroups | ext/asyncengine/ip_parser.rl:15 | an IPv4 address at the end of an IPv6 word has the value of the two groups with the same bits |
| IpAddress.GroupRoundTrip | ext/asyncengine/ip_parser.rl:14 | the four hex digits of a 16-bit unit read back as that unit |
| IpUtils.ReadingLength | ext/asyncengine/ip_parser.c:50-5616 | the readings that the states stand for have at most 45 characters, 47 with brackets, and 15 when purely IPv4 |
| IpUtils.AddressesAreWords | ext/asyncengine/ae_ip_utils.c:143-169 | an address is compared exactly for the words of the grammar, and stripping a reference always leaves a true IPv6address with the same address |
| IpUtils.CompareIsSymmetric | ext/asyncengine/ae_ip_utils.c:123-180 | swapping the two strings does not change the answer |
| IpUtils.CompareIsReflexive | ext/asyncengine/ae_ip_utils.c:123-180 | a string equals itself exactly when it is a word of the grammar |
| IpUtils.MissingGroupIsNotNil | ext/asyncengine/ae_ip_utils.c:114-122 | "1::2:" compared with itself gives false, not the nil that the documentation promises |
| IpUtils.StripReference | ext/asyncengine/ae_ip_utils.c:143-169 | type, offset, length and counter after the switch on one string; what is left has at most 45 characters and no NUL |
| IpUtils.ReferenceOfAWord | ext/asyncengine/ae_ip_utils.c:114-122 | an IPv6address equals its bracketed form when references are allowed and differs from it when they are not |
| IpUtils.CopyTerminated | ext/asyncengine/ae_ip_utils.c:84-87 | the copy and its terminator land in the buffer, and in range |
| IpUtils.ComparePureIps | ext/asyncengine/ae_ip_utils.c:70-112 | through the 46-byte copies, two unbracketed strings compare equal exactly when type and address agree |
| IpSpelling.LowerCaseIsTheSame | ext/asyncengine/ae_ip_utils.c:98-105 | every word of the grammar equals its own lower-case form, with and without references allowed |
| IpSpelling.LeadingZeroKeepsTheAddress | ext/asyncengine/ae_ip_utils.c:98-105 | a zero written before any group of less than four digits, in any IPv6 word, leaves it equal to what it was |
| IpSpelling.FamiliesDiffer | ext/asyncengine/ae_ip_utils.c:80-82 | an IPv4 word and an IPv6 word or reference are answered false, whatever their bits |
| IpSpelling.ValueIsTheGroup | ext/asyncengine/ip_parser.rl:14 | reading a group and writing its value in four digits gives the group in lower case with its zeros: the inverse of GroupRoundTrip |
| IpSpelling.SameValueSameDigits | ext/asyncengine/ip_parser.rl:14 | two groups have the same value exactly when they are the same digits up to case and leading zeros |
| IpSpelling.ValueIsTheOctet | ext/asyncengine/ip_parser.rl:11-12 | reading an octet and writing its value in decimal gives the octet back |
| TcpSpec.StepKeeps | ext/asyncengine/ae_tcp.c:321-905 | every libuv event and every method call, in any order, keeps: at most one uv_close per handle and timer, a timer only on an open connecting socket, the socket in @_handles exactly while open or connecting, and callbacks that fit the stage |
| TcpRuns.RunKeeps | ext/asyncengine/ae_tcp.c:321-905 | the same over every sequence of events and calls |
| TcpRuns.GracefulCloseGoesOn | ext/asyncengine/ae_tcp.c:338-350 | a graceful close asked for is carried out: on connection the shutdown begins without reading, and its completion closes the handle and calls on_disconnected |
| TcpRuns.TimeoutHasAHandle | ext/asyncengine/ae_tcp.c:677-691 | whenever the timeout fires there is a timer to cancel and an open, connecting handle to close |
| TcpRuns.WriteBlockRunsWhileReleasing | ext/asyncengine/ae_tcp.c:586-592 | a socket closed by the program just before a release still runs its write block, against the comment |
| TcpRuns.ClosedWorkDrops | ext/asyncengine/ae_tcp.c:820-845 | on a closed handle each libuv event takes away exactly one of the completions owed |
| TcpRuns.ClosedCallsDoNothing | ext/asyncengine/ae_tcp.c:493-905 | on a closed handle every method returns false and changes nothing |
| TcpRuns.ClosedWorkGoesOn | ext/asyncengine/ae_tcp.c:321-358 | while a closed handle is owed a completion, one can be delivered |
| Tcp.TcpSocket.constructor | ext/asyncengine/ae_tcp.c:301-315 | a socket starts connecting, with its connect request pending, in @_handles |
| Tcp.TcpSocket.ConnectCallback | ext/asyncengine/ae_tcp.c:321-391 | the callback with its branches: timer cancelled, shutdown or reading begun, or the handle closed unless closing, then the Ruby callback; its new state is that of the model |
| Tcp.TcpSocket.ReadCallback | ext/asyncengine/ae_tcp.c:406-487 | data, end of file, error and empty reads |
| Tcp.TcpSocket.ShutdownCallback | ext/asyncengine/ae_tcp.c:820-872 | the handle is closed and on_disconnected called unless the handle is closed already |
| Tcp.TcpSocket.WriteCallback | ext/asyncengine/ae_tcp.c:548-595 | the request is gone, and the block runs exactly when there is one and the flag is not set |
| Tcp.TcpSocket.TimerConnectTimeoutCallback | ext/asyncengine/ae_tcp.c:677-691 | the timer is cancelled, the flag set, the handle closed |
| Tcp.TcpSocket.CancelTimerConnectTimeout | ext/asyncengine/ae_tcp.c:694-702 | the timer handle is given to uv_close and forgotten |
| Tcp.TcpSocket.SendData | ext/asyncengine/ae_tcp.c:493-545 | false on a closed handle, else a write or an error |
| Tcp.TcpSocket.SetConnectTimeout | ext/asyncengine/ae_tcp.c:645-674 | nil when connected or already set; a timer that cannot start is closed again |
| Tcp.TcpSocket.Close | ext/asyncengine/ae_tcp.c:760-785 | handle and timer closed once; on_disconnected only when connected |
| Tcp.TcpSocket.CloseGracefully | ext/asyncengine/ae_tcp.c:789-817 | true once; a shutdown that cannot begin leaves reading stopped and no flag set |
| Tcp.TcpSocket.Destroy | ext/asyncengine/ae_tcp.c:883-905 | as close, and the flag is set before the callback |
| Tcp.InitInstance | ext/asyncengine/ae_tcp.c:255-315 | whichever libuv call fails, a handle that was initialised is given to uv_close exactly once; a socket is made exactly when none fails, with the open handle |
| TcpEffects.OpenUntilClosed | ext/asyncengine/ae_tcp.c:351-358 | in every life the handle is open exactly until a close or destroy, the connect timeout, a failed connect or read, or the completion of a shutdown |
| TcpEffects.SetConnectTimeoutAnswers | ext/asyncengine/ae_tcp.c:645-674 | after every life set_connect_timeout answers false exactly on a closed handle, nil exactly when connected or set before, and true exactly when libuv starts the timer |
| TcpEffects.OtherCallsAnswer | ext/asyncengine/ae_tcp.c:493-545 | after every life send_data, close and destroy answer false exactly on a closed handle, and send_data raises exactly when uv_write fails |
| TcpEffects.RequestsAreConserved | ext/asyncengine/ae_tcp.c:336-350 | in every life the connect completes once, every shutdown begun completes once, every timeout timer made is closed once and tells so once |
| TcpEffects.CompletionsAreDue | ext/asyncengine/ae_tcp.c:321-358 | what libuv can deliver after a life, in terms of what was begun and what was completed |
| TcpEffects.DataIsDelivered | ext/asyncengine/ae_tcp.c:406-448 | on_data_received is called as often as data was read, and on_connected exactly when the connect succeeded |
| TcpEffects.CallbacksEnterRuby | ext/asyncengine/ae_tcp.c:365-487 | an event enters Ruby exactly when it makes a callback, or completes a write that has a block |
| TcpEffects.WriteBlocksRun | ext/asyncengine/ae_tcp.c:577-595 | in every life a completed write, failed or not, runs its block exactly when it has one and it was not destroy that closed the handle |
| TimerSpec.StepKeeps | ext/asyncengine/ae_timer.c:223-418 | every event and call keeps: one handle closed at most once, in @_handles exactly while open, delay at least 1, periodic exactly when the interval is at least 1, a one-shot that fired is closed |
| TimerSpec.LifeOfAPeriodicTimer | ext/asyncengine/ae_timer.c:149-180 | in any life a PeriodicTimer has interval and delay of at least 1 ms and a handle closed at most once |
| TimerSpec.PausedDoesNotFire | ext/asyncengine/ae_timer.c:250-262 | after pause has returned true the proc is not called until a restart |
| TimerSpec.ClosedDoesNotFire | ext/asyncengine/ae_timer.c:385-418 | after close or destroy, which do the same, the proc is never called again |
| TimerSpec.NewIsInStep | ext/asyncengine/ae_timer.c:184-218 | from its making on, for both classes |
| TimerSpec.RestartDefaults | ext/asyncengine/ae_timer.c:308-340 | restart(i) is restart(i, i), restart(nil, d) is restart(), and a restart without arguments repeats the last one |
| TimerSpec.RepeatAfterARestart | ext/asyncengine/ae_timer.c:320-338 | after a restart libuv repeats at the stored interval if and only if the start succeeded or the interval was not changed |
| TimerSpec.ClosedStep | ext/asyncengine/ae_timer.c:256-260 | a closed timer owes its close callback only, and every method returns false |
| Timers.InitInstance | ext/asyncengine/ae_timer.c:184-218 | no timer when uv_timer_init fails; otherwise one that runs exactly when it could be started, and is closed and out of @_handles when not |
| TimerEffects.RestartLasts | ext/asyncengine/ae_timer.c:273-293 | from a restart of an open Timer to the next one the stored delay is the one given, at least 1, or the one before; libuv times by it exactly if the start succeeded |
| TimerEffects.RestartPeriodicLasts | ext/asyncengine/ae_timer.c:308-340 | the same for interval and delay of a PeriodicTimer, with their defaults |
| TimerEffects.NewIsFresh | ext/asyncengine/ae_timer.c:113-218 | both constructors make a started timer that has not fired, of their own class, exactly when libuv starts it |
| TimerEffects.CallsAnswer | ext/asyncengine/ae_timer.c:250-408 | after every life each method answers false exactly on a closed timer, raises exactly when libuv refuses, and is true otherwise |
| Timers.TimerHandle.constructor | ext/asyncengine/ae_timer.c:199-218 | both classes start as the model says; a start that fails closes the handle |
| Timers.TimerHandle.TimerCallback | ext/asyncengine/ae_timer.c:223-244 | a one-shot is closed before its proc is called |
| Timers.TimerHandle.Pause | ext/asyncengine/ae_timer.c:250-262 | the timer is stopped |
| Timers.TimerHandle.Restart | ext/asyncengine/ae_timer.c:273-293 | the delay is clamped and stored before the start |
| Timers.TimerHandle.RestartPeriodic | ext/asyncengine/ae_timer.c:308-340 | interval and delay are clamped and stored before the start; a delay alone is ignored |
| Timers.TimerHandle.Close | ext/asyncengine/ae_timer.c:385-394 | closed once |
| Timers.TimerHandle.Destroy | ext/asyncengine/ae_timer.c:399-408 | closed once |
| Timers.TimerHandle.CloseCdataHandle | ext/asyncengine/ae_timer.c:411-418 | uv_close, NULL, and out of @_handles |
| ReactorRuns.AssertionsHold | ext/asyncengine/ae_next_tick.c:42-93 | the assertions on status and on the internal handles hold wherever they are reached |
| ReactorRuns.InternalHandlesLiveOnce | ext/asyncengine/ae_next_tick.c:29-50 | idle, async and interrupt handles are made by the start of a run and closed by the end of its release, at no other step |
| ReactorRuns.ExitErrorIsTheFirst | ext/asyncengine/ae_handle_common.c:211-226 | @_exit_error changes only in the step that moves running to releasing, from nothing to the error raised, and when the run ends |
| ReactorRuns.KillEndsTheRun | ext/asyncengine/asyncengine_ruby.c:398-409 | a Thread#kill always ends the run, as an Interrupt unless it hits the user error handler |
| ReactorRuns.ExitErrorIsSetOnce | ext/asyncengine/asyncengine_ruby.c:389-412 | @_exit_error is assigned at most once in a run |
| ReactorRuns.OnlyAReleaseEndsTheLoop | ext/asyncengine/asyncengine_ruby.c:169-171 | uv_run returns only after a release has finished |
| ReactorRuns.CallbacksAreATrace | ext/asyncengine/ae_tcp.c:365-487 | in every reachable state of the reactor each socket has made the callbacks of a socket in their order, with one terminal exactly when it has left @_handles |
| ReactorSockets.TimeoutIsReported | ext/asyncengine/ae_tcp.c:377-387 | the ETIMEDOUT equivalence in every run of the reactor |
| ReactorTimers.OneShotFiresOnce | ext/asyncengine/ae_timer.c:233-244 | in every run a one-shot calls its proc at most once and is closed then |
| ReactorTimers.StartsUseTheDelays | ext/asyncengine/ae_timer.c:208-218 | in every run libuv times a timer by its stored delay and interval while its starts succeed |
| ReactorSockets.StoppedHasCompletedTheWrites | ext/asyncengine/ae_tcp.c:548-574 | when the engine is stopped every accepted write has completed |
| ReactorRelease.TraversalIsNotExtended | ext/asyncengine/asyncengine_ruby.c:304-318 | whatever destroy callbacks and other threads do, no entry is added to those still to visit |
| ReactorRelease.CallsAddNoWork | ext/asyncengine/asyncengine_ruby.c:304-328 | after a release no call of the program or of a thread creates or changes a handle or a request |
| ReactorRelease.PollingGoesOn | ext/asyncengine/asyncengine_ruby.c:320-327 | and the loop is never stuck: an event is due while work is left, and uv_run returns when none is |
| ReactorRelease.ReleasingGoesOn | ext/asyncengine/asyncengine_ruby.c:282-328 | at every point of a release there is a next step |
| ReactorStops.ReleasingCanStop | ext/asyncengine/asyncengine_ruby.c:282-328 | from every state of a release the engine can reach stopped |
| ReactorEffects.RunTakesTheMutex | ext/asyncengine/asyncengine_ruby.c:122-166 | from every reachable stopped state AE.run by any thread can get the mutex and start a loop of its own, which has accepted just the proc given and can be woken for it |
| ReactorEffects.WakingTakesAll | ext/asyncengine/ae_next_tick.c:78-96 | the callback of a queue consumes the wake-up and takes all the procs that wait then |
| ReactorEffects.CodeIsEntered | ext/asyncengine/ae_handle_common.c:143-181 | in every reachable state: which steps enter Ruby code, and that no other does |
| ReactorEffects.ReturnGoesBack | ext/asyncengine/ae_handle_common.c:183-231 | Ruby code that returns goes back to the C code that called it, and changes nothing else |
| ReactorEffects.HandlerIsTheLastSet | lib/asyncengine.rb:41-50 | over any run there is a user handler exactly when the last on_error or unset_on_error left one |
| ReactorEffects.SocketIsMade | ext/asyncengine/ae_tcp.c:255-315 | on a running engine a socket is added, open, stored and connecting, exactly when libuv accepts the connect; a refused connect leaves a closing handle only |
| ReactorEffects.TimerIsMade | ext/asyncengine/ae_timer.c:113-218 | on a running engine Timer.new adds a timer that libuv times by the delay asked for, at least 1 ms, or one that is already closing when it cannot be started |
| ReactorEffects.PeriodicTimerIsMade | ext/asyncengine/ae_timer.c:149-218 | the same for PeriodicTimer.new with its interval and first delay |
| ReactorEffects.SocketLivesGoOn | ext/asyncengine/ae_tcp.c:255-905 | whatever can follow in the life of a socket can follow in the reactor, an event of libuv whenever it polls and a call whenever Ruby code runs |
| ReactorEffects.TimerLivesGoOn | ext/asyncengine/ae_timer.c:184-418 | the same for timers |
| ReactorEffects.LookupsMove | ext/asyncengine/ae_dns.c:80-156 | in every reachable state a lookup is pending under a number of its own from its call until its one answer, and @_procs holds exactly those of the pending lookups while the internal handles exist |
| ReactorEffects.OrphansAreCounted | ext/asyncengine/asyncengine_ruby.c:320-325 | the closing handles that no Ruby object has: three for each traversal ended, one for each connect refused at once |
| ReactorEffects.InterruptIsNotLost | ext/asyncengine/asyncengine_ruby.c:234-266 | an interrupt sent to a running engine is pending, and can be delivered at every poll, until the loop takes it or its handle is closed, whatever happens meanwhile |
| Reactor.AsyncEngine.constructor | lib/asyncengine.rb:21-27 | the engine starts stopped and empty |
| Reactor.AsyncEngine.NextTick | ext/asyncengine/ae_next_tick.c:54-73 | the answer for each status; while running the proc is queued and the idle handle active |
| Reactor.AsyncEngine.CallFromOtherThread | ext/asyncengine/ae_call_from_other_thread.c:54-69 | the same with the async handle |
| Reactor.AsyncEngine.Run | ext/asyncengine/asyncengine_ruby.c:101-121 | an error in a forked process; a running engine gets the proc through the queue of the calling thread; else the thread waits for the mutex, or fails when it holds it |
| Reactor.AsyncEngine.Stop | lib/asyncengine.rb:29-38 | release_loop is queued from any thread |
| Reactor.AsyncEngine.RunHandler | ext/asyncengine/asyncengine_ruby.c:389-397 | under every script: the handler is entered, makes its calls, and its own error is stored and releases |
| Reactor.AsyncEngine.StoreHandle | ext/asyncengine/ae_handle_common.c:31-39 | one more entry, the others unchanged |
| Reactor.AsyncEngine.RemoveHandle | ext/asyncengine/ae_handle_common.c:50-55 | one entry less, the others unchanged |
| Reactor.AsyncEngine.NewSocket | ext/asyncengine/ae_tcp.c:172-315 | false while releasing, an error when stopped or when libuv refuses; otherwise the socket is made and enters @_handles |
| Reactor.AsyncEngine.NewTimer | ext/asyncengine/ae_timer.c:113-218 | the same for a timer; one that libuv cannot start is made, closed, and left out of @_handles |
| Reactor.AsyncEngine.Resolve | ext/asyncengine/ae_dns.c:80-92 | a proc is stored under a new number with its request |
| Reactor.AsyncEngine.RunRuby | ext/asyncengine/ae_handle_common.c:143-148 | arbitrary code of the program: exactly the calls of the script that can be made, in order, up to its return or error; it leaves the C code where it was |
| Reactor.AsyncEngine.Protect | ext/asyncengine/ae_handle_common.c:193-196 | an error of the code is caught and returned, exactly when the script raises one |
| Reactor.AsyncEngine.Settle | ext/asyncengine/ae_handle_common.c:211-231 | an error is ignored while releasing and handled otherwise |
| Reactor.AsyncEngine.HandleError | ext/asyncengine/asyncengine_ruby.c:383-412 | under every script: the user handler runs for a StandardError and ends by its return or its own error; any other error is stored, a Thread#kill as an Interrupt; the engine still runs afterwards if and only if the handler was there, ran, and did not raise |
| Reactor.AsyncEngine.DestroyHandles | ext/asyncengine/asyncengine_ruby.c:318 | the loop over @_handles visits all that is left in it although entries disappear meanwhile |
| Reactor.AsyncEngine.DestroyHandle | ext/asyncengine/asyncengine_ruby.c:332-347 | one destroy |
| Reactor.AsyncEngine.Unload | ext/asyncengine/asyncengine_ruby.c:320-327 | the three internal handles are closed, @_procs is cleared |
| Reactor.AsyncEngine.TakeBatch | ext/asyncengine/ae_next_tick.c:93-98 | the queue is swapped for an empty one, at a running engine |
| Reactor.AsyncEngine.QueueCallback | ext/asyncengine/ae_call_from_other_thread.c:73-103 | under every script: woken, all that had been accepted is started unless the engine is released; and it is released if the block of AE.stop was accepted |
| Reactor.AsyncEngine.SockCallback | ext/asyncengine/ae_tcp.c:321-358 | a socket event inside the loop, then the Ruby code it enters, exactly when the socket model says so |
| Reactor.AsyncEngine.TimerCallback | ext/asyncengine/ae_timer.c:223-244 | a timer event inside the loop, then its proc when it fired |
| Reactor.AsyncEngine.LookupCallback | ext/asyncengine/ae_dns.c:115-156 | the proc is removed, and called only while running |
| Reactor.AsyncEngine.UbfCallback | ext/asyncengine/asyncengine_ruby.c:257-266 | pending interrupts are taken only while running |
| Reactor.AsyncEngine.UvRun | ext/asyncengine/asyncengine_ruby.c:226-231 | under every script of events the loop takes only steps of the model; it ends when nothing is active, or when the script does |
| Reactor.AsyncEngine.StartUp | ext/asyncengine/asyncengine_ruby.c:136-166 | from the mutex to uv_run: running, one proc queued, every assertion met |
| Reactor.AsyncEngine.Exit | ext/asyncengine/asyncengine_ruby.c:173-194 | after uv_run: everything ensure_released asks for holds, and the mutex is free |

## Left out
- UDP sockets (`ae_udp.c`): mostly setters of flags. Its constructor closes a handle it has not stored yet when it fails, so nothing said here about closing once extends to it.
- DNS (`ae_dns.c`), except for what it does to `@_procs` and to the requests of the loop: a stored proc, its request, and the callback that removes it.
- `inet_pton`: a function on the words of the grammar, undefined on every other string. That the platform's own function agrees with the grammar on the strings given to it is taken for granted.
- Lengths over 2^31 - 1: `ae_ip_parser_execute` takes its length as an int, the model as a natural number.
- Argument checks of the methods (TypeError, ArgumentError), the conversion of seconds to milliseconds, string encodings, names and addresses of sockets, `ip_type` and port helpers: plumbing.
- Reactor.AsyncEngine: keeps its sockets and timers as values, stepped by the functions that the classes in `Tcp` and `Timers` are proved against; aliasing between Ruby objects is not modelled, nor the freeing of memory.
- Reactor.AsyncEngine.RunBatch: other threads act between the wake-up of a queue and the taking of its procs in the state machine (`Entering`), not in the class, where they act at every call into Ruby and between events.
- Reactor.AsyncEngine.RunLocked: the procs of `on_exit` and the re-raising of the captured error come after the mutex is released and are not modelled; a run they start is a `RunCall` like any other.
- TcpSpec.StepKeeps: the PAUSED flag, which nothing sets, is not modelled.
- Bracketed references as destination of a socket, for which the constructor has no case: sockets are made from an ipv4 or ipv6 address.
- Signals, Ruby's garbage collector and its global lock, the internals of libuv, and time itself: a timer fires at any moment libuv runs it.
