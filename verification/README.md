# Fluke NORMA: a client, a simulated instrument and the line between them

The repository implements one line protocol twice: a SCPI client library, and a simulated power analyzer that
parses command lines, keeps instrument state and answers. This project models both sides in Dafny and proves what
holds of each and of the two together.

## How it is laid out

- `Text`, `Decimal`, `Numbers`: characters, quote-aware splitting, quoting, the decimal text of the C library, and what number
  each such text is.
- `Pattern`, `PatternText`, `Headers`, `CommandTable`, `TableText`, `ClientHeaders`: header tokens, the backtracking matcher
  and its language, pattern texts, the intersection check, and the table of 121 commands as the command tree it is; `TableText`
  lists its rows as texts.
- `Commands`, `Instrument`, `Measurement`, `Effects`: command keys, the instrument's state, the signal model, and what
  each command does: a new state with a response, one error it is rejected with, or a measurement that never ends.
- `CommandLine`, `Simulator`: the path rule for `;`-separated commands, and the simulator as a class whose methods update
  the state in place. Each method is proved against `Effects` and `CommandLine`; that they can be is the atomicity of
  rejected commands.
- `Quantities`, `Recordings`: what every function name measures in terms of the signal, how much a recording holds and what
  its elements are.
- `Acceptance`, `Defaults`: for every command, the parameters it takes with their limits and words, what it stores and how it
  refuses the others; and the value of every setting after `*RST`.
- `Runs`, `Rejections`, `Invariants`, `EventHistory`, `StatusNumbers`: what holds over whole runs, with the signal changing
  arbitrarily between lines, and the status system in the numbers that queries print.
- `Queries`, `Settings`, `PlainLines`: which commands answer and what they keep, that settings are reported as they were set,
  and that every answer is a single line.
- `Client`, `ClientLines`, `ErrorLoop`, `NameLists`, `ClosedLoop`, `FunctionLists`, `DataLoop`, `Windows`,
  `EndlessMeasurement`: the client's codec, and the loop from client call over command line, state change and response line back to the client.
- `Transport`, `Instrumentation`: the in-process transport and the client objects on top of it.
- `Session`, `SimulatorSession`, `TcpTransport`, `Server`: the TCP session as a step system, with any instrument and with the
  simulator behind it, the transport's methods and the server's event loop.

Numbers are exact reals with an explicit NaN, registers are sets of bits, texts are sequences of characters. What the
simulator takes from the C library (printing a number, sine, cosine, arc cosine, square root) is a parameter, `Host`; the
results that need something of it say so (`OnUnitCircle`, `PrintsNumbers`, `PrintsWords`, `PlainWorld`). The command table is
a parameter, too, of everything behind the dispatcher: results about client calls ask for a table that knows the client's
headers, and `ClientHeaders.TableServesClients` shows that the simulator's table does.

## Where the code does not do what one might expect

- Quotes inside error messages are not doubled, which section 8.7.8 of IEEE 488.2 asks for. Messages echo command text,
  so a queue with a `"` in a message is not always read back; `ErrorLoop` says exactly when it is, for each way of reading,
  and `ErrorLoop.TwoLinesToDisagreement` shows two lines after which it is not. Quotes inside names of functions are not doubled
  either, and a semicolon behind one makes several commands of the list (`FunctionLists.SemicolonOutsideQuotes`);
  `FunctionLists.FunctionListRoundTrip` says exactly which lists come back, of all lists.
- An EFFiciency reference that is itself an EFFiciency function makes `measure` call itself without end;
  `Measurement.RecursionIsOneLevelOrEndless` says exactly when, and `EndlessMeasurement.TwoLinesToEndlessness` gives two
  lines that do it.
- A timeout closes the socket but keeps the bytes received. Only `close()` forgets them, so reopening without it lets a late
  response answer the next query (`SimulatorSession.IdentificationAnswersOptions`). `Session.ReopeningIsSafe` says exactly
  when opening again is safe.
- An accept that succeeds just before `stop()` closes the acceptor leaves the server serving that client until it goes away
  (`Server.SimulatorServer.OnAccept` and `OnLine`).
- `DATA?` with a list is a query that changes a setting, the list of measured functions; it is the only one
  (`Queries.OnlyQueriesAnswer`).
- The client writes a negative offset when a sparsing factor follows it, and the simulator refuses exactly that
  (`Windows.NegativeOffsetIsRefused`).

## Model

| member | source | states |
|---|---|---|
| `SimulatorSession.SimulatorQueriesGetTheirOwnResponse` | module/src/scpi_client.cpp:93-106 | in every run of the session with the simulator behind it, over all interleavings of calls under the mutex, all chunkings of both byte streams and any changes of the signal and of the instrument's settings from elsewhere, a query that returns normally returns what the path rule makes of its own line in the state and signal at the step that served that line, taken while that very call was in progress |
| `Session.QueriesGetTheirOwnResponse` | module/src/scpi_client.cpp:93-106 | the same for any instrument that answers in single lines: the line returned is the response served last, to the line of the call that returns, while that call was in progress |
| `Session.ServedDuringCall` | module/src/scpi_client.cpp:98-106 | a call whose line has been served was in progress, as the last one asked, when it was served |
| `SimulatorSession.SimulatorAnswersInLines` | module/simulator/src/norma_simulator.cpp:334-448 | the simulator is such an instrument |
| `SimulatorSession.CommandsAreQuiet` | module/simulator/src/norma_simulator.cpp:422-435 | what a session asks of lines given to send() holds of every line without a query |
| `PlainLines.LineIsPlain` | module/simulator/src/norma_simulator.cpp:334-448 | from a state whose texts hold no line terminator, a line without one leaves such a state and is answered with one line or none |
| `PlainLines.EffectIsPlain` | module/simulator/src/simulator_handlers.cpp:31-711 | no command stores, prints or reports a line terminator it was not given |
| `Queries.OnlyQueriesAnswer` | module/simulator/src/simulator_support.cpp:175-290 | over the whole command set, an accepted command responds if and only if it is a query, and a query changes nothing but queued errors, event status and event parts, except that DATA? with a list also selects the list |
| `Queries.OneResponseEach` | module/simulator/src/norma_simulator.cpp:422-446 | a line that runs to its end gives one response a query, and a line that stops no more than that |
| `Queries.LinesOfCommandsAreSilent` | module/simulator/src/norma_simulator.cpp:422-435 | a line without queries is never answered, and one that runs to its end is answered just when it holds a query |
| `Queries.ResponsesAreSeparated` | module/simulator/src/norma_simulator.cpp:437-448 | the responses to the queries of a line come joined in order, and splitting at semicolons gives them back when they are separate |
| `Queries.CaseDoesNotMatter` | module/simulator/src/norma_simulator.cpp:376-420 | pieces whose headers differ in case only ask for the same command with the same suffixes, common or not, or for none |
| `Queries.FixedAnswers` | module/simulator/src/simulator_handlers.cpp:35-62 | the answers to *IDN?, *OPT?, *OPC?, *LRN?, the function count and the timer |
| `Session.StepKeepsInv` | module/src/tcp_transport.cpp:97-136 | every step of the session keeps the two byte streams and the two histories in order: bytes on their way are exactly the lines not served yet, and received bytes are exactly what the waiting query has coming |
| `Session.TimeoutEndsTheSession` | module/src/tcp_transport.cpp:23-33 | after a timeout, however the client is used, nothing is written or read before an open(), which finds the bytes received before unless close() was called |
| `Session.LeftoversNeedClose` | module/src/tcp_transport.cpp:83-91 | a client that only opens with no received bytes left has called close() between a timeout that left some and the next thing it writes or reads |
| `Session.CloseThenOpen` | module/src/tcp_transport.cpp:83-91 | close() sees to that: whatever else happens, the next open() finds no received bytes |
| `Session.ReopeningIsSafe` | module/src/tcp_transport.cpp:51-91 | opening again is safe, in that every query of every later run finds exactly the bytes of its own response, if and only if no received bytes are left over; any leftover byte, a whole line or not, ends up in front of the next response |
| `SimulatorSession.ReopeningIsSafe` | module/src/tcp_transport.cpp:51-91 | the same for a link to the simulator |
| `Session.ReopeningWithoutClose` | module/src/tcp_transport.cpp:83-91 | for every instrument and every two queries it answers: a run, well used but for reopening without close(), in which the second query is about to return the response of the first |
| `SimulatorSession.IdentificationAnswersOptions` | module/src/tcp_transport.cpp:83-91 | such a run of the simulator from power-on: a *IDN? times out, and the *OPT? after it returns the identification |
| `Session.OwnResponse` | module/src/tcp_transport.cpp:112-136 | the line a waiting query finds is whole, alone in the buffer, and was sent for its own command; nothing is left behind it |
| `TcpTransport.TcpTransport.Open` | module/src/tcp_transport.cpp:51-81 | opening an open transport does nothing; a failed or timed-out connect leaves it closed; received bytes of an earlier session stay |
| `TcpTransport.TcpTransport.Close` | module/src/tcp_transport.cpp:83-91 | closing is what forgets the received bytes |
| `TcpTransport.TcpTransport.Write` | module/src/tcp_transport.cpp:97-110 | a timeout closes the socket, an error does not |
| `TcpTransport.TcpTransport.ReadLine` | module/src/tcp_transport.cpp:112-136 | returns the bytes up to the first line feed without terminators and keeps the rest; what arrived before a timeout or an error is kept |
| `TcpTransport.OpenIsARun` | module/src/tcp_transport.cpp:51-81 | what open() does to socket and buffer is the opening step of a session when it connects, and no step otherwise |
| `TcpTransport.CloseIsARun` | module/src/tcp_transport.cpp:83-91 | what close() does to them is the closing step |
| `TcpTransport.WriteIsARun` | module/src/tcp_transport.cpp:97-110 | every outcome of write() is a run of session steps that puts its bytes, or some of them, on the wire and then goes on, times out or loses the connection |
| `TcpTransport.ReadLineIsARun` | module/src/tcp_transport.cpp:112-136 | every outcome of read_line() is a run of session steps: it takes bytes off the wire and then returns the line the session returns, times out, or finds the connection lost |
| `Server.SimulatorServer.constructor` | module/simulator/src/simulator_server.cpp:128-150 | the server starts with one accept under way |
| `Server.SimulatorServer.OnAccept` | module/simulator/src/simulator_server.cpp:38-53 | an accepted client starts with an empty buffer and one read, also when the acceptor was closed after the accept had succeeded; the work left goes down just when the accept failed |
| `Server.SimulatorServer.OnLine` | module/simulator/src/simulator_server.cpp:66-112 | a received line is handled once and its response sent to the client it came from unless stalled; afterwards exactly one accept or read is under way until stop(), and the work left goes down if and only if no client is held any more |
| `Server.SimulatorServer.OnStop` | module/simulator/src/simulator_server.cpp:160-181 | closing acceptor and client keeps at most one operation under way |
| `Text.SplitUnquoted` | module/simulator/src/simulator_support.cpp:34-56 | the simulator's splitter computes the pieces between unquoted separators |
| `Text.SplitSeparates` | module/simulator/src/simulator_support.cpp:34-56 | no piece holds an unquoted separator and all but the last close their quotes |
| `Text.SplitOfJoin` | module/simulator/src/simulator_support.cpp:34-56 | splitting undoes joining of such pieces, so the split is unique |
| `Text.JoinOfSplit` | module/simulator/src/simulator_support.cpp:34-56 | splitting loses nothing: joining the pieces gives the text back |
| `Text.SplitFields` | module/src/scpi_client.cpp:28-54 | the client's splitter: the same pieces trimmed, and none at all for a blank line |
| `Text.JoinQuoted` | module/src/scpi_client.cpp:183-192 | the comma-joined quoted list both sides print |
| `Text.QuoteJoinRoundTrip` | module/src/scpi_client.cpp:166-192 | splitting a printed list of names without a double quote gives the quoted names back |
| `Text.UnquoteOfQuoted` | module/src/scpi_client.cpp:166-181 | unquoting undoes quoting, for every text |
| `Text.UnquoteDropsPair` | module/src/scpi_client.cpp:166-181 | a pair of equal quotes of either kind is dropped, with the blanks around it |
| `Text.UnquoteKeepsOthers` | module/simulator/src/simulator_support.cpp:58-64 | and nothing but such a pair |
| `Text.TrimDropsBlanks` | module/simulator/src/simulator_support.cpp:16-24 | trimming drops the blanks in front of a text and behind it, however many, and nothing of the text |
| `Decimal.StrtolOfIntText` | module/src/scpi_client.cpp:230-238 | a printed integer is read back whatever non-digit follows it |
| `Decimal.ParseNumberOfIntText` | module/simulator/src/simulator_support.cpp:118-133 | a printed integer is a numeric parameter with exactly that value |
| `Numbers.StrtodReads` | module/src/scpi_client.cpp:213-228 | for every sign, every digits before and behind a point, or without one, and every exponent of either sign and any length, or none: the number read is sign, digits and power of ten as written, and reading stops where the number ends |
| `Numbers.StrtodRefuses` | module/src/scpi_client.cpp:213-228 | a text that does not start with a digit, or a point and a digit, behind its blanks and sign is no number |
| `Numbers.ParseNumberReads` | module/simulator/src/simulator_support.cpp:118-133 | such a decimal is a numeric parameter with that value when only blanks follow it, and none when anything else does |
| `Numbers.LroundIsNearest` | module/simulator/src/simulator_support.cpp:221-228 | rounding gives the nearest integer, and of two the one farther from zero |
| `Numbers.TruncateDropsTheFraction` | module/simulator/src/simulator_handlers.cpp:650-655 | conversion to an integer drops the fraction |
| `Pattern.MakeToken` | module/simulator/src/simulator_support.cpp:155-171 | trailing digits become a suffix only when something precedes them |
| `Pattern.TokenOfNumbered` | module/simulator/src/simulator_support.cpp:155-171 | a name followed by a printed number is read as that name and that suffix |
| `Pattern.TokenWithoutSuffix` | module/simulator/src/simulator_support.cpp:155-171 | a name that ends in no digit has no suffix, and digits alone are no suffix |
| `Pattern.MatchPattern` | module/simulator/src/norma_simulator.cpp:84-105 | the backtracking matcher leaves exactly the collected suffixes in the vector on success and the vector as it was on failure |
| `Pattern.MatcherDecidesTheLanguage` | module/simulator/src/norma_simulator.cpp:82-105 | a header matches just when it embeds in the pattern, and the suffixes are those of the embedding that keeps every node present as early as possible |
| `PatternText.CompilePattern` | module/simulator/src/norma_simulator.cpp:47-67 | compiling a pattern text node by node |
| `PatternText.CompileUndoesWrite` | module/simulator/src/norma_simulator.cpp:47-67 | every written-out pattern compiles to the nodes it was written from |
| `TableText.TableIsWritten` | module/simulator/src/norma_simulator.cpp:116-284 | the table the dispatcher scans has 121 rows, and each is the key of the row with what compiling its pattern text gives; all rows are listed as literal texts with their keys, in order |
| `TableText.HeadersAreDispatched` | module/simulator/src/norma_simulator.cpp:406-420 | a header selects a key with its suffixes if and only if the pattern text listed for that key matches it with these suffixes, and is undefined if and only if it matches none of the 121 texts |
| `Headers.NotationMatches` | module/simulator/src/simulator_support.cpp:66-80 | a mnemonic in the manual's notation is matched by exactly its short and its long form |
| `Headers.MeetIsExact` | module/simulator/src/norma_simulator.cpp:82-105 | the intersection check on two patterns holds just when some received header is matched by both |
| `Headers.Select` | module/simulator/src/norma_simulator.cpp:406-415 | the dispatcher takes the first row that matches |
| `CommandTable.TableIsUnambiguous` | module/simulator/src/norma_simulator.cpp:116-272 | no received header, of any length and with any suffixes, is matched by two of the 121 rows |
| `CommandTable.TableOrderDoesNotMatter` | module/simulator/README.md:198-200 | any permutation of the table selects the same key and suffixes for every header |
| `ClientHeaders.TableServesClients` | module/simulator/src/norma_simulator.cpp:116-272 | the headers the client sends select the commands it means |
| `CommandLine.FindHeaderEnd` | module/simulator/src/norma_simulator.cpp:347-361 | the header ends at the first white space outside a quoted string |
| `CommandLine.SharedPathsPreserveMeaning` | module/simulator/src/norma_simulator.cpp:334-448 | a line does the same as its pieces one per line with every header written from the root: same joined response, same stopping piece, same state up to the text echoed in a -113 entry |
| `Simulator.CutPiece` | module/simulator/src/norma_simulator.cpp:347-374 | a piece is cut into header, question mark and trimmed parameters |
| `Simulator.NormaSimulator.Interpret` | module/simulator/src/norma_simulator.cpp:376-420 | common commands keep the shared path, other headers continue on it unless absolute, and the path moves one level up |
| `Simulator.NormaSimulator.RunPiece` | module/simulator/src/norma_simulator.cpp:341-432 | one piece leaves the state and response of its effect, or exactly one queued error |
| `Simulator.NormaSimulator.HandleLine` | module/simulator/src/norma_simulator.cpp:334-448 | the line loop leaves the state and the joined response that the path rule assigns to the line; a line that stops has left exactly what its pieces before the rejected one leave as a line of their own, and one queued error |
| `Simulator.NormaSimulator.Execute` | module/simulator/src/norma_simulator.cpp:450-466 | whatever the command, a failed one has changed nothing but the error queue, by one entry, and the event status, and has not responded; any other has responded just when it was a query, and a query has kept every setting unless it is DATA? with a list |
| `Rejections.RejectionIsAtomic` | module/simulator/src/norma_simulator.cpp:416-432 | a line that stops has done exactly what its pieces before the rejected one do as a line of their own, plus one queued error; everything but error queue and event status register is as they left it |
| `Rejections.OverflowKeepsTheOldest` | module/simulator/src/norma_simulator.cpp:321-330 | any number of unread errors leaves the oldest 31 and -350 in the last place of a full queue |
| `Rejections.ErrorsKeepSettings` | module/simulator/src/norma_simulator.cpp:321-330 | queuing errors changes nothing but the queue and the event status register |
| `Simulator.NormaSimulator.constructor` | module/simulator/src/norma_simulator.cpp:290-292 | a new simulator is in the reset state |
| `Simulator.NormaSimulator.Reset` | module/simulator/src/norma_simulator.cpp:294-310 | *RST rebuilds everything except the error queue |
| `Simulator.NormaSimulator.ClearStatus` | module/simulator/src/norma_simulator.cpp:312-319 | *CLS empties the queue, the event status and the four EVENt parts, and keeps masks and conditions |
| `Simulator.NormaSimulator.PushErrorEntry` | module/simulator/src/norma_simulator.cpp:321-330 | a full queue has its last entry replaced; otherwise the error is appended and the command error bit set |
| `Simulator.NormaSimulator.AccessNumber` | module/simulator/src/simulator_support.cpp:188-207 | a setting is reported, stored within its limits, or refused with one error and left alone |
| `Simulator.NormaSimulator.AccessInteger` | module/simulator/src/simulator_support.cpp:209-230 | the same for integers, rounded half away from zero before the limits apply |
| `Simulator.NormaSimulator.AccessBoolean` | module/simulator/src/simulator_support.cpp:232-247 | the same for ON, OFF and numbers |
| `Simulator.NormaSimulator.AccessKeyword` | module/simulator/src/simulator_internal.hpp:147-175 | the first spelling is reported; any spelling selects its value |
| `Simulator.NormaSimulator.ReadFunctionList` | module/simulator/src/simulator_support.cpp:249-266 | a list is stored only when every parameter is a quoted string |
| `Acceptance.CommandsAreTaken` | module/simulator/src/simulator_handlers.cpp:31-711 | for every command, state and list of parameters: which parameters are taken, with limits and words as literals; the one field they are stored in, with every other field left alone; and which of -109, -113, -221, -222 and -224 every other parameter or address is refused with, and its text |
| `Acceptance.CommonCommands` | module/simulator/src/simulator_handlers.cpp:31-106 | so for the common commands, the masks from 0 to 255 and the setups from 10 to 24 and from 1 to 24 but 3 to 9 |
| `Acceptance.RouteCommands` | module/simulator/src/simulator_handlers.cpp:114-136 | so for the wiring |
| `Acceptance.InputCommands` | module/simulator/src/simulator_handlers.cpp:140-184 | so for the inputs, with GAIN and SHUNt refused on even channels |
| `Acceptance.RangingCommands` | module/simulator/src/simulator_handlers.cpp:188-246 | so for ranging of each phase: a request up to 0.1 % outside the ranges selects the first range that holds 99.9 % of it |
| `Acceptance.SenseCommands` | module/simulator/src/simulator_handlers.cpp:253-285 | so for the function list: any number of quoted names, one when CONCurrent is off, the error naming the first that is not quoted |
| `Acceptance.SweepCommands` | module/simulator/src/simulator_handlers.cpp:298-335 | so for the two recording blocks |
| `Acceptance.SyncCommands` | module/simulator/src/simulator_handlers.cpp:344-412 | so for synchronization, with the level limits of the unit in force and the three cut-off frequencies |
| `Acceptance.InitiateCommands` | module/simulator/src/simulator_handlers.cpp:416-443 | so for INITiate |
| `Acceptance.AbortCommands` | module/simulator/src/simulator_handlers.cpp:434-438 | aborting switches initiation and both recordings off, and nothing else |
| `Acceptance.TriggerCommands` | module/simulator/src/simulator_handlers.cpp:447-490 | so for the two triggers |
| `Acceptance.TransformCommands` | module/simulator/src/simulator_calculate.cpp:72-118 | so for the spectrum, with even cycle counts only |
| `Acceptance.IntegralCommands` | module/simulator/src/simulator_calculate.cpp:165-203 | so for integration, which only starts when it is switched on |
| `Acceptance.PowerCommands` | module/simulator/src/simulator_calculate.cpp:204-232 | so for harmonic order, correction and the efficiency references |
| `Acceptance.TransferCommands` | module/simulator/src/simulator_handlers.cpp:494-548 | so for the transfer formats: word, optional length, and what happens to the other format |
| `Acceptance.DisplayCommands` | module/simulator/src/simulator_handlers.cpp:561-580 | so for display and output 9 |
| `Acceptance.SystemCommands` | module/simulator/src/simulator_handlers.cpp:584-688 | so for the system settings, with the limits of date and time |
| `Acceptance.RegisterCommands` | module/simulator/src/simulator_calculate.cpp:369-398 | so for the masks of the four registers, from 0 to 65535 |
| `Acceptance.CommonHeadersAreKnown` | module/simulator/src/simulator_handlers.cpp:31-106 | a header is a common command if and only if it is written as one of fourteen |
| `Defaults.ResetIsReported` | module/simulator/src/norma_simulator.cpp:294-310 | after *RST the query of every setting answers with its documented value, given as a literal |
| `Settings.SettingsReadBack` | module/simulator/src/simulator_support.cpp:188-266 | what is set is what is reported: for every setting a command stores and a query reports, the query right after an accepted command answers with the normal form of what was given and changes nothing |
| `Settings.KeywordReadsBack` | module/simulator/src/simulator_internal.hpp:147-175 | a keyword given in any spelling is reported in its short form |
| `Settings.InputReadsBack` | module/simulator/src/simulator_handlers.cpp:140-184 | so for the inputs, of the channel that was addressed |
| `Settings.RangingReadsBack` | module/simulator/src/simulator_handlers.cpp:191-246 | so for autorange, scale and range of the phase that was addressed, the range being the one chosen for the request |
| `Settings.SenseReadsBack` | module/simulator/src/simulator_handlers.cpp:248-285 | so for aperture, CONCurrent and the function list |
| `Settings.SweepReadsBack` | module/simulator/src/simulator_handlers.cpp:298-335 | so for the recording block that was addressed, its time also when given as MAX |
| `Settings.SyncReadsBack` | module/simulator/src/simulator_handlers.cpp:344-412 | so for synchronization, the source in its short form and a cut-off frequency as the documented one it is close to |
| `Settings.TriggerReadsBack` | module/simulator/src/simulator_handlers.cpp:447-490 | so for the start and the stop trigger, each its own, the source in upper case |
| `Settings.TransformReadsBack` | module/simulator/src/simulator_calculate.cpp:72-118 | so for the spectrum |
| `Settings.IntegralReadsBack` | module/simulator/src/simulator_calculate.cpp:165-203 | so for integration |
| `Settings.SystemReadsBack` | module/simulator/src/simulator_handlers.cpp:584-688 | so for key lock, language, date, time, GPIB address and baud rate, date and time without fractions |
| `Settings.FormatReadsBack` | module/simulator/src/simulator_handlers.cpp:494-557 | so for both transfer formats, with the length given or the one in force before, byte order and transposition |
| `Settings.RegisterReadsBack` | module/simulator/src/simulator_calculate.cpp:369-398 | so for the enable and transition masks of each of the four registers |
| `Simulator.NormaSimulator.HandleStatusByte` | module/simulator/src/simulator_handlers.cpp:76-91 | *STB? latches the questionable register and clears nothing |
| `Simulator.NormaSimulator.HandleInput` | module/simulator/src/simulator_handlers.cpp:140-184 | input settings, with GAIN and SHUNt on current channels only |
| `Simulator.NormaSimulator.HandleSetRange` | module/simulator/src/simulator_handlers.cpp:207-234 | a range request snaps to the first listed range that can hold it and switches autorange off |
| `Simulator.NormaSimulator.HandleFunctions` | module/simulator/src/simulator_handlers.cpp:253-285 | the function list and the one-of-n rule of CONCurrent |
| `Simulator.NormaSimulator.HandleData` | module/simulator/src/simulator_handlers.cpp:286-297 | DATA? with a list replaces the configured list |
| `Simulator.NormaSimulator.HandleTransferFormat` | module/simulator/src/simulator_handlers.cpp:494-548 | a change between text and binary of one transfer format takes the other along |
| `Simulator.NormaSimulator.HandleErrorNext` | module/simulator/src/simulator_handlers.cpp:591-599 | SYST:ERR? takes out the oldest entry |
| `Simulator.NormaSimulator.HandleErrorAll` | module/simulator/src/simulator_handlers.cpp:600-615 | SYST:ERR:ALL? lists all entries on one line and empties the queue |
| `Simulator.NormaSimulator.LatchEvent` | module/simulator/src/simulator_measurement.cpp:525-533 | latching sets the selected edges since the last latch and remembers the condition |
| `Simulator.NormaSimulator.CollectChannelBits` | module/simulator/src/simulator_measurement.cpp:462-480 | the over- and underrange bits of six phases |
| `Simulator.NormaSimulator.Measurements` | module/simulator/src/simulator_measurement.cpp:408-443 | all values in order, then all statuses; a binary block outside text format; nothing for an empty list |
| `Simulator.ApplyWindow` | module/simulator/src/simulator_calculate.cpp:26-39 | the windowing loop |
| `EventHistory.CommandActs` | module/simulator/src/simulator_calculate.cpp:369-398 | what each of the commands does to each status register, and what an EVENt query answers |
| `EventHistory.RunActs` | module/simulator/src/simulator_measurement.cpp:525-533 | in every run a register is exactly what its history of latches, clears and mask changes makes of it |
| `EventHistory.EventInEveryRun` | module/simulator/src/simulator_measurement.cpp:525-533 | in every run a bit of an EVENt part is set just when it was latched since the last clear: an edge between consecutive latch points, of a bit that the number of the transition mask in force at that moment has |
| `EventHistory.AnswersArePrinted` | module/simulator/src/norma_simulator.cpp:422-435 | the responses taken down for the commands of a line are the responses the line prints |
| `EventHistory.EventQueriesPrint` | module/simulator/src/simulator_calculate.cpp:383-387 | in every run each EVENt query prints the number of exactly the edges its history gives it |
| `EventHistory.AnswerIsUnionOfEdges` | module/simulator/src/simulator_calculate.cpp:383-387 | these are the edges latched since the clear before it, its own latch included |
| `EventHistory.PrintedDetermines` | module/simulator/src/simulator_calculate.cpp:383-387 | a printed number tells every bit below 16 |
| `EventHistory.EdgeIsReportedOnce` | module/simulator/src/simulator_handlers.cpp:76-91 | every latched edge is in the answer of exactly one EVENt query unless *CLS or *RST comes first; *STB? in between loses none |
| `EventHistory.EdgeIsPrintedOnce` | module/simulator/src/simulator_handlers.cpp:76-91 | in every run that query prints a number which only sets with that edge print as |
| `Instrument.MaskRoundTrip` | module/simulator/src/simulator_measurement.cpp:525-533 | the bits a 16-bit mask selects add up to the mask |
| `Instrument.BitsRoundTrip` | module/simulator/src/simulator_measurement.cpp:525-533 | and the mask of a printed set of bits selects just these bits |
| `StatusNumbers.EventBits` | module/simulator/src/simulator_measurement.cpp:525-533 | in printed numbers: EVENt? has a bit that CONDition? has and did not have at the last latch just when PTRansition? has it, one that it lost when NTRansition? has it, and those already latched |
| `StatusNumbers.HistoryMasksArePrinted` | module/simulator/src/simulator_calculate.cpp:369-398 | the masks in force at the end of a run are the numbers their queries print there |
| `StatusNumbers.OperationBits` | module/simulator/src/simulator_measurement.cpp:482-503 | the bits of STAT:OPER:COND?: 8 and 9 for synchronization, 10 for measuring, 3 for recording, and no other |
| `StatusNumbers.ChannelConditionBits` | module/simulator/src/simulator_measurement.cpp:462-480 | the bits of the per-channel registers: phase p sets bit p - 1 above its range and bit p + 7 below 5 % of it, unless it autoranges |
| `StatusNumbers.QuestionableBits` | module/simulator/src/simulator_measurement.cpp:508-520 | the bits of STAT:QUES:COND?: 5 without synchronization, 0 and 1 when the voltage and current registers print other than 0 |
| `StatusNumbers.StatusByteBits` | module/simulator/src/simulator_handlers.cpp:76-91 | the bits of *STB? in terms of what SYST:ERR?, STAT:QUES?, STAT:QUES:ENAB?, *ESR?, *ESE? and *SRE? would print: 2, 3, 5 and 6, and no other |
| `StatusNumbers.RejectionShows` | module/simulator/src/norma_simulator.cpp:321-330 | a line that is stopped leaves bit 5 of *ESR? set unless the queue was full |
| `Invariants.EffectKeepsSound` | module/simulator/src/simulator_handlers.cpp:31-711 | every command keeps the global invariant, and a rejection carries one of five documented codes |
| `Invariants.EveryRunIsSound` | module/simulator/src/norma_simulator.cpp:334-435 | after every run of lines under any signals: both formats text or both binary, ranges from their lists, aperture, sweeps, cycles, masks, clock and lists within their bounds, and an error queue of at most 32 real errors |
| `Invariants.SnapIsLeast` | module/simulator/src/simulator_handlers.cpp:219-232 | an accepted RANGe request selects the least listed range of at least 0.999 times the request, and the fallback to the last range is never needed |
| `Invariants.TraceMemoryIsConserved` | module/simulator/src/simulator_calculate.cpp:244-249 | in every run TRAC:FREE? and TRAC:CAT:LEN? answer non-negative numbers that add up to 4096 |
| `Measurement.SumPhases` | module/simulator/src/simulator_measurement.cpp:184-210 | the loop over the phases adds up voltages, currents and powers |
| `Measurement.RecursionIsOneLevelOrEndless` | module/simulator/src/simulator_measurement.cpp:331-337 | measuring ends with at most one nested level, except exactly when an efficiency function refers to an efficiency function; then it never ends |
| `EndlessMeasurement.TwoLinesToEndlessness` | module/simulator/src/simulator_measurement.cpp:331-337 | a freshly started simulator with its own command table and a signal gets there in two lines: storing POW:EFF as both references, and measuring it |
| `Measurement.NaNMeansUndefined` | module/simulator/src/simulator_measurement.cpp:117-406 | a measured value is NaN exactly when its status says Undefined or Not available |
| `Measurement.UnsynchronizedIsUndefined` | module/simulator/src/simulator_measurement.cpp:139-182 | without synchronization every function but the times measures NaN |
| `Measurement.PowerTriangle` | module/simulator/src/simulator_measurement.cpp:195-210 | with non-negative inputs the active and reactive power lie within the apparent power, for every aggregate |
| `Measurement.SinglePhaseTriangle` | module/simulator/src/simulator_measurement.cpp:195-210 | for a single phase they make it up exactly |
| `Measurement.PowerFactorIsACosine` | module/simulator/src/simulator_measurement.cpp:341-347 | so the power factor lies in [-1, 1] and the clamp before the arc cosine changes nothing |
| `Quantities.PhasePowers` | module/simulator/src/simulator_measurement.cpp:184-326 | while measuring and synchronized, POWp and POWp:ACT of each of six phases are volts times amperes times the cosine of the angle, POWp:APP volts times amperes, POWp:REAC with the sine, each times both ratios |
| `Quantities.PowerIsMeasured` | module/simulator/src/simulator_measurement.cpp:316-340 | for every spelling of a power name, of one phase or summed over phases 1 to 3 or 4 to 6: which power it is, the power factor with its capacitive bit, or not available |
| `Quantities.VoltageIsMeasured` | module/simulator/src/simulator_measurement.cpp:257-286 | the same for every form of a voltage, averaged over the phases, with its range status |
| `Quantities.CurrentIsMeasured` | module/simulator/src/simulator_measurement.cpp:287-315 | and of a current, whose PHASe is the first of the largest phase shifts |
| `Quantities.AngleIsMeasured` | module/simulator/src/simulator_measurement.cpp:341-347 | PHASe is the angle of the power factor, negative when capacitive |
| `Quantities.ImpedanceIsMeasured` | module/simulator/src/simulator_measurement.cpp:348-350 | IMPedance is mean voltage over mean current |
| `Quantities.ResistanceIsMeasured` | module/simulator/src/simulator_measurement.cpp:351-360 | RESistance in its serial and its parallel form |
| `Quantities.ReactanceIsMeasured` | module/simulator/src/simulator_measurement.cpp:361-372 | REACTance in its serial and its parallel form |
| `Quantities.EfficiencyIsMeasured` | module/simulator/src/simulator_measurement.cpp:331-337 | EFFiciency is the output function over the input function, and not available until both are stored |
| `Quantities.FrequencyIsMeasured` | module/simulator/src/simulator_measurement.cpp:151-157 | FREQuency is that of the signal |
| `Quantities.TimeIsMeasured` | module/simulator/src/simulator_measurement.cpp:158-173 | TIME is the aperture stretched to the least number of whole periods, TIME:RELative the timer |
| `Quantities.TrailingWord` | module/simulator/src/simulator_measurement.cpp:226-255 | what MINimum, MAXimum, IPOSitive, INEGative, INTegral and HAR behind any of these names do to its value |
| `Recordings.SweepPointsAnswer` | module/simulator/src/simulator_handlers.cpp:324-331 | both point counts of a block are its times in whole averaging intervals, towards zero |
| `Recordings.TraceLengthAnswers` | module/simulator/src/simulator_measurement.cpp:108-115 | the recording of the first block that is on holds the whole averaging intervals in its sweep time, up to 4096, and the free memory is the rest |
| `Recordings.PointIsRecorded` | module/simulator/src/simulator_calculate.cpp:284-299 | point k of the j-th function is its measurement less k thousandths, at index j * points + k |
| `Recordings.StatusIsRecorded` | module/simulator/src/simulator_calculate.cpp:284-299 | and its status is that of the measurement |
| `Recordings.SpectrumLine` | module/simulator/src/simulator_calculate.cpp:128-134 | line n of 32 carries the fundamental over n squared |
| `Recordings.BinaryBlockIsDefinite` | module/simulator/src/simulator_measurement.cpp:414-421 | a binary answer is a well-formed definite-length block of eight zero bytes a function |
| `Recordings.TracePreambleAnswers` | module/simulator/src/simulator_calculate.cpp:270-275 | the four fields of a trace preamble |
| `Recordings.SpectrumPreambleAnswers` | module/simulator/src/simulator_calculate.cpp:145-153 | the four fields of a spectrum preamble |
| `Recordings.DistortionAnswers` | module/simulator/src/simulator_calculate.cpp:154-164 | the distortion of three voltages, in mode STD only |
| `Client.ParseValues` | module/src/scpi_client.cpp:251-257 | a line of numbers, or a protocol error when any field is none |
| `Client.ParseError` | module/src/scpi_client.cpp:259-274 | an error entry from the first two fields |
| `Client.ParseErrors` | module/src/scpi_client.cpp:276-297 | pairs of fields, leaving out code 0; a protocol error for a bad code or a lone field |
| `Client.SplitReading` | module/src/instrument_data.cpp:191-210 | the first half of the fields are values, the second half statuses; an odd number is a protocol error |
| `Client.DataArguments` | module/src/instrument.cpp:189-203 | an argument is written only when those before it are |
| `Client.TraceArguments` | module/src/instrument_data.cpp:30-43 | the same behind the block number |
| `FunctionLists.FunctionListRoundTrip` | module/src/instrument_data.cpp:88-98 | for every list of names, set_functions stores the names and functions gives them back in upper case, through header cut, all splitters and both unquoters, if and only if no semicolon stands outside the quotes a splitter sees, no name holds a comma outside them, and all but the last close their quotes |
| `FunctionLists.SetFunctionsExactly` | module/simulator/src/simulator_handlers.cpp:253-270 | the names asked for are what is stored if and only if they are one command, separate in that sense, and may all be measured at once |
| `FunctionLists.AskedForIsOneCommand` | module/simulator/src/norma_simulator.cpp:334-448 | a list that the simulator reads as several commands never ends up configured as it was asked for, whatever these commands are and as long as all of them are accepted |
| `FunctionLists.CommandLeavesList` | module/simulator/src/simulator_handlers.cpp:31-711 | over the whole command set, the configured list only ever comes from a command's own parameters, the list of FUNC:ALL, or the front of the list before |
| `FunctionLists.PrintHoldsItselfOnce` | module/src/scpi_client.cpp:183-192 | parameters that give a list of names never stand inside the print of these names, other than as all of it |
| `FunctionLists.SemicolonOutsideQuotes` | module/src/scpi_client.cpp:175-192 | a name with quotes of its own around a semicolon: the list is three accepted commands that reset the instrument |
| `ClosedLoop.SetFunctionsRuns` | module/simulator/src/simulator_handlers.cpp:253-270 | separate names are stored, or a settings conflict is queued when only one function is allowed |
| `ClosedLoop.QuoteFreeIsOneCommand` | module/src/scpi_client.cpp:175-192 | names without a double quote are one command and separate, whatever else they hold |
| `ClosedLoop.FunctionsAreRead` | module/src/instrument_data.cpp:96-98 | functions() reports the configured list, whatever it is, as it is if and only if its names are separate, and changes nothing |
| `NameLists.NamesAreRead` | module/src/scpi_client.cpp:124-130 | a printed list is read back as it was if and only if its names are separate |
| `ClosedLoop.PreparedIsReady` | module/src/instrument.cpp:32-41 | what prepare() establishes and that it leaves every other field alone |
| `ErrorLoop.EntryIsRead` | module/src/scpi_client.cpp:259-274 | a printed entry is read back with its code, and its message up to the first unquoted comma |
| `ErrorLoop.MessageComesBack` | module/simulator/src/simulator_handlers.cpp:591-599 | a message comes back unchanged if and only if it holds no comma outside the quotes a splitter sees |
| `ErrorLoop.OneByOneIsFaithful` | module/src/scpi_client.cpp:132-147 | draining entry by entry gives the queue back if and only if every message comes back |
| `ErrorLoop.AllAtOnceIsFaithful` | module/src/scpi_client.cpp:276-297 | reading the queue on one line gives it back if and only if no message holds an unquoted comma and all but the last close their quotes |
| `ErrorLoop.BothWaysAgree` | module/simulator/src/simulator_handlers.cpp:591-615 | both ways of reading agree for every queue whose messages hold no double quote, whatever commas and semicolons they hold |
| `ErrorLoop.WaysAgreeExactly` | module/simulator/src/simulator_handlers.cpp:591-615 | as long as every message comes back on its own, both ways of reading agree if and only if the queue is separable |
| `ErrorLoop.QuoteInMessage` | module/simulator/src/simulator_handlers.cpp:600-615 | a message with one quote, as the echo of a command puts it there, comes back on its own and not in front of another entry |
| `ErrorLoop.TwoLinesToDisagreement` | module/simulator/src/simulator_handlers.cpp:600-615 | two lines to a fresh simulator leave a queue on which the two ways of reading disagree |
| `DataLoop.NaNIsPlain` | module/simulator/src/simulator_measurement.cpp:89-106 | the printed NaN encoding is read back as NaN |
| `DataLoop.OrdinaryIsNumber` | module/src/scpi_client.cpp:213-228 | a measured value below 1E37 is read as a number, the value within half a unit of the last digit printed |
| `DataLoop.DataStatusAligns` | module/simulator/src/simulator_measurement.cpp:408-443 | the reading made of a DATA:STAT? response has one value and one status per function, entry i from the measurement of function i: NaN for NaN, and otherwise the measured value within half a unit of the last digit printed, or NaN when that is too large for a number |
| `DataLoop.DataWithStatusAligns` | module/src/instrument_data.cpp:191-210 | through the command line, for every list given or the configured one: what is measured is the list asked for if and only if it is one command and its names are separate; a list that is one command comes back with one value, as close as it was printed, and one status per function measured, so the odd-count error is unreachable, and in a binary format the client gets a protocol error instead |
| `DataLoop.BinaryIsNotRead` | module/simulator/src/simulator_measurement.cpp:414-421 | a binary block is never read as a number |
| `Windows.WindowElements` | module/simulator/src/simulator_calculate.cpp:26-39 | a window holds exactly source[first + k * step] for k below both the count and what is reached |
| `Windows.WindowIsUnderstood` | module/src/instrument.cpp:189-203 | for all counts, offsets and sparsings and wherever it starts in the line, the window the client writes is decoded to the one asked for if and only if no negative offset stands in front of a sparsing factor; without a count, if and only if no window was asked for |
| `Windows.NegativeOffsetIsRefused` | module/simulator/src/simulator_calculate.cpp:43-59 | the query of a recording is refused if and only if it has a count, a negative offset and a sparsing factor, with one error that names the offset |
| `Windows.TraceDataReads` | module/src/instrument_data.cpp:448-451 | in every other case trace_data gets exactly the part of the recording it asked for, each number within half a unit of the last digit printed |
| `Windows.TraceStatusReads` | module/src/instrument_data.cpp:453-463 | trace_status gets exactly the status words of that part |
| `Windows.SpectrumDataReads` | module/src/instrument_data.cpp:276-278 | transform_data gets exactly the part of the spectrum it asked for, whatever it asks, each number as close as it was printed |
| `Windows.PagesJoinUp` | module/simulator/src/simulator_calculate.cpp:26-39 | consecutive windows of unit steps read the whole series exactly once |
| `Transport.SimulatorTransport.Write` | module/simulator/include/fluke/norma/simulator/simulator_transport.hpp:47-69 | every complete line is handled in order and the unfinished rest stays pending |
| `Transport.SimulatorTransport.ReadLine` | module/simulator/include/fluke/norma/simulator/simulator_transport.hpp:71-89 | the oldest response, or a timeout when there is none |
| `Transport.SimulatorTransport.Close` | module/simulator/include/fluke/norma/simulator/simulator_transport.hpp:40-43 | closing drops unread responses and keeps unfinished bytes |
| `Transport.WritesJoinUp` | module/simulator/include/fluke/norma/simulator/simulator_transport.hpp:47-69 | write(a); write(b) leaves the same state, responses and tail as write(a + b) |
| `Transport.StreamDecides` | module/simulator/include/fluke/norma/simulator/simulator_transport.hpp:47-69 | the same for any cutting of a stream into writes |
| `Instrumentation.ScpiClient.Send` | module/src/scpi_client.cpp:80-96 | a command with a line terminator never reaches the wire; any other is handled as exactly one line |
| `Instrumentation.ScpiClient.Query` | module/src/scpi_client.cpp:102-106 | the response to the line just sent, or a timeout when it has none; the link stays in step |
| `Instrumentation.ScpiClient.ReadAllErrors` | module/src/scpi_client.cpp:132-147 | empties a queue of up to 63 errors in one read more than it holds, in order; a longer one is reported as not draining after 64 |
| `Instrumentation.EveryRunCanBeDrained` | module/src/scpi_client.cpp:132-147 | in every run of the simulator 33 reads are enough, so that report never comes |
| `Instrumentation.NormaInstrument.Prepare` | module/src/instrument.cpp:32-41 | from every state with the link in step, prepare() succeeds and leaves the prepared state |
| `Instrumentation.NormaInstrument.SetFunctions` | module/src/instrument_data.cpp:88-94 | succeeds just for non-empty lists without line terminators; a list that is one command leaves the link in step, and separate names are stored or conflict; when every command of the line is accepted, the list configured is the one asked for if and only if it is one command and separate |
| `Instrumentation.NormaInstrument.Functions` | module/src/instrument_data.cpp:96-98 | the configured names if and only if they are separate; nothing changes |
| `Instrumentation.NormaInstrument.DataWithStatus` | module/src/instrument_data.cpp:191-210 | one value, within half a unit of the last digit printed, and one status per function measured, each from its measurement, or a protocol error in a binary format; the list measured is the one asked for if and only if it is one command and separate; an invalid argument for a name with a line terminator |
| `Instrumentation.NormaInstrument.ReadErrorsAtOnce` | module/src/instrument.cpp:151-153 | empties the queue, and returns it if and only if it is separable |

## Left out

- Numbers: the hexadecimal, infinity and NaN spellings of `strtod`, the width and overflow of `int` and `long`, and the rounding
  of `double`. Exact decimals and unbounded integers stand for them. Of `printf` a measured value needs that it prints the digits
  asked for, rounded.
- Text: white space, digits and case are those of the C locale; a NUL character does not end a text. Trimming and
  upper-casing are functions rather than the loops of the source.
- Table: the rows are written as a tree of mnemonics; `TableText` shows that it is the compiled form of the literal rows. The
  string keys the handlers compare are constructors, so the branches for keys without a handler do not exist.
- `Text.Split`: written as a function of quote state and text; both source loops are proved against it.
- `Effects.EffectOf`: `Hang` stands for a measurement that never ends; the methods of the simulator ask that it does not occur.
- Saved setups: a set of slots, as the simulator stores nothing else for them; the four identification fields are one text.
- `Simulator.NormaSimulator.HandleIntegral`: the accumulators are not integrated over time, since the simulator has no clock.
- `Client.SplitReading`: the conversion of NaN to an integer status is undefined in C++; one fixed value stands for it.
- `Client.DataArguments`: the blank in front of the arguments belongs to the command line built by its caller.
- `DataLoop.DataWithStatusAligns`: of a list that is several commands it says that another list is measured, not what the client
  makes of the joined responses of all these commands.
- `Session.QueriesGetTheirOwnResponse`: opening and closing happen between calls, since the source does not lock them; time is a
  timeout that may come at any moment.
- `SimulatorSession.SimulatorQueriesGetTheirOwnResponse`: a measurement that never ends is a line that is never answered; that
  it also stops the simulator is not modelled. The printed numbers and the configured identification texts are taken to hold
  no line terminator.
- `Server.SimulatorServer.OnLine`: asynchronous operations are handlers called one at a time, with the outcome of each operation
  as a parameter; accepting fails only once the acceptor is closed, but may succeed then, too.
- `TcpTransport.TcpTransport.Open`: name resolution and socket options are reduced to their outcome.
- `Instrumentation.ScpiClient.Send`: the mutex is part of `Session` only, since the in-process transport is used from one thread.
- Integer and boolean query helpers, preamble parsing, identification and the other setters and getters of the instrument class,
  which send one line each.
- Keyword tables and function-name builders, the C interface, the Python module and the desktop application.
