# Verified models of DCOP, its clients, and two users of it

This project models the parts of tdelibs that keep long-lived state and rely on rules
about it that the C++ code never checks, and proves those rules.

* **The DCOP server** (`dcop/dcopserver.cpp`, `dcop/dcopserver.h`): a router of messages
  between client processes. `Broker` is the server as a state machine over values;
  `BrokerProofs`, `BrokerRemoval` and `BrokerRuns` prove what every step and every run keeps, `BrokerNotices`
  what those who asked for notices about names are told, `BrokerLaws` what the server owes to whoever asks it for
  something, and when it is to end. `Broadcasts` has the two loops that send one message to many.
  `DcopServer` is the server as the source writes it, a class whose tables, lists and counters
  change in place; each of its methods is proved to do to its objects what the state machine
  does to values, so that the theorems about runs speak about the class. `Registry` is the
  choice of a free application name, `OutputQueue` the queue of unsent bytes, `PtrLists` the
  list with a cursor that the sources use, `Connections` the two classes of objects the server
  allocates.
* **The table of signal connections** (`dcop/dcopsignals.cpp`): `Signals` has the three-way
  index and the loops that delete from the lists they walk through; `SignalLaws` what those who connect,
  emit and disconnect can rely on; `SignalArgs` the comparison of argument strings.
* **The DCOP client** (`dcop/dcopclient.cpp`): `ClientKeys` is the discipline of keys for nested
  calls as a machine with an explicit stack; `DcopClient` is the client object, whose
  methods call each other the way the C++ methods do and keep the saved key in a local
  variable, proved to make only steps of that machine. `CallChains` composes the server, with the signals, notices
  and messages to many that it sends, with any number of clients, whose handles come back, and `CallFailures` has the
  runs that go wrong without the discipline that `CallChains` shows to be exact. `Signature` is the normaliser of
  function signatures.
* **The configuration database of kab** (`kab/qconfigDB.cc`): `ConfigCodec` (complex strings),
  `ConfigLists` (string lists), `ConfigLines` (the kinds of lines of a file), `ConfigMaps` (sorted
  maps), `ConfigFile` (printing and parsing sections), `ConfigLoad` (the round trip of a file), `ConfigNameless`
  (how reading ends, with sections left open and opening lines without a name) and `ConfigDB` (the code with its
  loops and streams).
* **kded's scheduler** (`kded/kded.cpp`): `RebuildScheduler`.

`Options` and `DcopTypes` hold shared types, `Texts` the searches and the test for blanks that several sources use.
`dafny verify dfyconfig.toml` checks the whole project.

## Where the code does less than it says

The model follows the code in each of these. For each there is the exact condition under which the code does what it
should, and an input that shows it fail.

* `DCOPIceWriteChar` (dcop/dcopserver.cpp:240-267) passes `ptr` by value, so after a partial send it queues the first
  bytes of the chunk again instead of the rest. `OutputQueue.WriteCharContinuesExactly` says when the
  stream survives, `OutputQueue.WriteCharSafeExactly` that a chunk is safe for every behaviour of the socket
  exactly when all its bytes are equal, `OutputQueue.WriteCharRepeatsBytes` shows two bytes going wrong.
* A Reply, ReplyFailed or ReplyWait is taken out of one list without a look whether it was there
  (dcop/dcopserver.cpp:898-908). `BrokerProofs.AnswerCallKeepsBooksExactly` has the exact condition under which the
  bookkeeping of dcop/dcopserver.h:91-101 survives, and `BrokerRuns.StepKeeps` the same for every step of the server
  (`Broker.Conforming`). `BrokerRemoval.StrayReplyDangles` shows what is left otherwise: the handle of a closed
  connection stays on a list. `CallFailures.StrayReplyGivesKey` shows where that leads once the handle belongs to
  another client, which takes the number of an aborted call for its key; `CallFailures.StrayReplyReached` and
  `CallFailures.IdleReached` show that disciplined clients get there.
* The server looks a receiver up among its clients first (dcop/dcopserver.cpp:811-833), and a client may register as
  "DCOPServer". `CallChains.TakesServersNameExactly` says when it gets that name, `CallChains.RegisterKeepsNamesExactly`
  when the names stay as the keys need them, `CallChains.StepKeeps` is exact for the whole system, and
  `CallFailures.ServersNameTaken` is a run in which a call meant for the server goes to another client, without a key,
  and its caller never gets one.
* A client may ask for signals or notices by a message that is no call (dcop/dcopserver.cpp:761-770), and then has no
  key when the first of them comes. It takes the key of that message, 1, for its own (dcop/dcopclient.cpp:346-347).
  `CallChains.NoticeKeepsExactly` says that exactly the clients that were issued a key may listen, and
  `CallChains.StepKeeps` has the rule as part of what is exact for the whole system. `CallFailures.ListenerTakesKey`
  continues any run by such a client, `CallFailures.ListenersShareKey` shows two clients that have the same key, which
  nobody issued.
* A ReplyDelayed to a pattern of names is sent on as a Send with the key of the reply (dcop/dcopserver.cpp:734-795).
  `CallChains.Miscast` is when that breaks the rule of the keys (`CallChains.MiscastBreaks`, and `CallChains.StepKeeps`
  for all steps); `CallFailures.ForeignCast` is what comes of it in any state, `CallFailures.ForeignCastReached` a run
  to such a state.
* A client that registers under another name loses its former one, but only debug builds tell those who asked for
  notices (dcop/dcopserver.cpp:1436-1466); dcop/dcopclient.h:739-754 promises a notice for each name that is gone.
  `BrokerNotices.NoticesTellNamesExactly` says that a listener knows the names exactly as long as no client gets another
  name, `BrokerNotices.RenameIsNotTold` shows a name that stays known after it is gone.
* `emitSignal` delivers to a by-name connection whose sender is "DCOPServer" whoever emits (dcop/dcopsignals.cpp:61).
  `Signals.ByNameExactly` says that a by-name connection is served only for its sender exactly when that is another
  name, `Signals.ServersSignalFromAnyone` what any client's emission reaches otherwise.
* `removeConnections` with an object says that it removes the connections which that object receives, and the volatile
  ones that it sends (dcop/dcopsignals.cpp:224-229), but keeps those of a client from one of its objects to another.
  `SignalLaws.RemovesAsDocumentedExactly` says when it removes what it says, `SignalLaws.HalfSurvives` shows a connection
  that is kept whichever end is removed.
* A string list loses an item boundary after an item that ends with a backslash
  (`ConfigLists.ListDecodes`, `ConfigLists.ListRoundTripExactly`, `ConfigLists.BackslashJoinsItems`).
* An opening line without a name, such as `[]`, is read into the subsection that was read last in the same call,
  and if there is none, into a pointer that was never set (kab/qconfigDB.cc:1600-1641). `ConfigNameless.UndefinedExactly`
  says for all texts when that happens; `ConfigNameless.NamelessFirst` and `ConfigNameless.NamelessReadsAgain` show
  either case.
* A saved database does not load as it was if a name, key or value breaks the rules of the lines. `ConfigLoad.LoadSaved`
  has the exact condition for all databases, `ConfigLoad.LoadQuoted` for those whose values come from the encoders, where
  only names and keys matter. `ConfigLoad.HashKeyIsLost` loads a database without its only key, which starts with "#".
* The encoders leave carriage returns as they are, and these end a line when the file is read.
  `ConfigLines.EncodedIsQuoted` says which texts fit into a line, and `ConfigLoad.ReturnCutsValue` loads only a part of the
  string `a`, carriage return, `b`.
* A header with a newline in it may bring keys and sections into the database. `ConfigLoad.HeaderLoadsExactly` says which
  headers are harmless, `ConfigLoad.HeaderBringsKey` shows one that is not.
* Messages of one sender may be taken up out of order. `ClientKeys.StepKeepsOrderExactly`,
  `ClientKeys.RunKeepsOrderExactly` and `ClientKeys.OrderKeptExactly` say when they are not;
  `ClientKeys.PostedIsOvertaken` is such a step.
* The delayed check begins a build even while another one runs or is due, and a request is then answered by a build
  that began before it came in. `RebuildScheduler.DelayedCheckSafeExactly` says when the check is safe,
  `RebuildScheduler.DelayedCheckAnswersTooEarly` is a run from the start in which it is not.

## Model

| member | source | states |
|---|---|---|
| Registry.DecimalInjective | dcop/dcopserver.cpp:1450 | different numbers have different decimal texts |
| Registry.DecimalReads | dcop/dcopserver.cpp:1450 | the decimal text of a number has only digits, no zero too many in front, and its value is the number |
| Registry.TakenSuffixes | dcop/dcopserver.cpp:1446-1453 | pigeonhole: suffixes 2 .. n-1 can all be taken only if there are that many names, so the search ends |
| Registry.FreeSuffix | dcop/dcopserver.cpp:1446-1453 | the least number from 2 on whose name is free, at most the number of names plus 2 |
| Registry.ChooseName | dcop/dcopserver.cpp:1443-1455 | the loop of registerAs ends with a free name: the one asked for if it is free, else the one with the least free suffix |
| Broker.Initial | dcop/dcopserver.cpp:971-979 | the invariant holds of a server that has just started |
| BrokerProofs.AddCallKeepsBooks | dcop/dcopserver.cpp:821-822 | Call and Find keep the rule that links the three lists, and bring no closed connection into them |
| BrokerProofs.AnswerCallKeepsBooksExactly | dcop/dcopserver.cpp:895-909 | Reply, ReplyFailed and ReplyWait keep the rule exactly when the call is on the callee's plain list, or is a final answer to a call nobody knows |
| BrokerProofs.AnswerLateKeepsBooks | dcop/dcopserver.cpp:734-743 | ReplyDelayed keeps the rule with no condition on the client |
| BrokerProofs.Counterpart | dcop/dcopserver.h:91-101 | an entry on the caller's side has a counterpart on one of the callee's lists, and the other way round |
| BrokerRemoval.DropPendingErases | dcop/dcopserver.cpp:1204-1262 | the three draining loops, with the short-circuit removal, strike the closed connection out of every list of every other connection and change nothing else |
| BrokerRemoval.EraseCounts | dcop/dcopserver.cpp:1204-1262 | the counts between all other pairs stay as they were |
| BrokerRemoval.EraseKeepsBooks | dcop/dcopserver.cpp:1204-1262 | the rule holds among the connections that remain |
| BrokerRemoval.RemovalAnswers | dcop/dcopserver.cpp:1204-1276 | exactly one ReplyFailed with key 1 per call that the closed connection still owed, plain or delayed, and no other message about calls; if it had a name, the notice goes to exactly the others that asked for notices |
| BrokerRemoval.StrayReplyDangles | dcop/dcopserver.cpp:898-908 | a plain Reply to a call that was put off leaves the caller's handle on the callee's list after the caller is gone |
| BrokerRuns.RegisterKeepsNames | dcop/dcopserver.cpp:1419-1456 | registering and renaming keep the table of names a bijection with the registered connections |
| BrokerRuns.RegisterKeepsCount | dcop/dcopserver.cpp:1427-1430 | registering keeps the number of clients and the meaning of the timer |
| BrokerRuns.SetDaemonKeepsCount | dcop/dcopserver.cpp:1371-1411 | so does switching daemon mode on and off |
| BrokerRuns.RemovalKeeps | dcop/dcopserver.cpp:1195-1288 | a disconnect keeps the whole invariant and equals erasing the connection |
| BrokerRuns.ConnectKeeps | dcop/dcopserver.cpp:1184-1193 | a new connection keeps the whole invariant |
| BrokerRuns.MessageKeepsNames | dcop/dcopserver.cpp:711-922 | no message of any client, conforming or not, breaks the table of names |
| BrokerRuns.StepKeeps | dcop/dcopserver.cpp:711-922 | a step keeps the bookkeeping, the names, the client count and the timer rule exactly when it is no plain answer to a call that was put off and no ReplyWait to a call that is not waiting |
| BrokerRuns.Run | dcop/dcopserver.h:91-101 | in every reachable state: waitingOnReply of A has as many B as the two lists of B have A, all entries are open, appIds is a bijection, the client count is the number of registered non-daemons, an armed timer implies shutdown or suicide with none of those |
| BrokerRuns.StepConserves | dcop/dcopserver.cpp:711-922 | one step: calls forwarded plus outstanding before equal answers plus outstanding after, for every pair, with answers that nobody asked for counted apart |
| BrokerRuns.Conservation | dcop/dcopserver.cpp:734-908 | over whole runs: calls forwarded from A to B equal those finished plus those outstanding, with answers that nobody asked for counted apart |
| BrokerRuns.CalleeDeathSettles | dcop/dcopserver.cpp:1204-1246 | the callee's death finishes all that are outstanding, so each call is finished exactly once |
| BrokerRuns.StepKeepsNames | dcop/dcopserver.cpp:711-922 | every step of every client, conforming or not, keeps the table of names a bijection |
| BrokerRuns.StepKeys | dcop/dcopserver.cpp:826-911 | forwarding never changes a key, and a step uses up at most the next server key, whatever clients answer |
| BrokerRuns.IssuedKeys | dcop/dcopserver.cpp:852-870 | in every run, of conforming clients or not, the keys issued follow each other from the server key on |
| BrokerRuns.IssuedKeysDistinct | dcop/dcopserver.cpp:974 | from the start, the first 2^32 - 42 keys of any run are 42, 43, ... and pairwise distinct |
| BrokerNotices.HeardExactly | dcop/dcopserver.cpp:1419-1470 | one step of another client: what a listener is told is exactly what changed in the table of names, unless a client that has a name gets another one |
| BrokerNotices.NoticesTellNamesExactly | dcop/dcopclient.h:739-754 | over all runs of the others: a client that asked for notices and knows the names knows them after every step exactly when no client gets another name |
| BrokerNotices.RenameIsNotTold | dcop/dcopserver.cpp:1427-1467 | a client called "a" registers as "b": the name "a" is gone, and whoever follows the notices still has it |
| BrokerLaws.CallersAreAnswered | dcop/dcopserver.cpp:832-876 | a call or search that no client takes gets exactly one answer, to the caller and with its key or the next server key: a Reply if it is a call to the server that the server understands, and a ReplyFailed otherwise; nothing else is answered |
| BrokerLaws.NobodyIsReached | dcop/dcopserver.cpp:744-830 | a message to nobody changes nothing but the key that is next |
| BrokerLaws.NamesAreReached | dcop/dcopserver.cpp:744-911 | a message to a name reaches the one client that has that name, unchanged and once, whatever its kind |
| BrokerLaws.PatternsReach | dcop/dcopserver.cpp:777-795 | a message to a pattern reaches exactly the clients whose names begin like it, with its key, and only if it is no call |
| BrokerLaws.NamesAreGiven | dcop/dcopserver.cpp:1419-1456 | who asks for a name gets it, or if another client has it, that name with a dash and the least number from 2 on that no other client has; nobody else changes |
| BrokerLaws.DaemonsAreAsAsked | dcop/dcopserver.cpp:1371-1411 | after the request a client with a name is a daemon exactly if it asked to be one, and nothing else changes; a client without a name stays as it is |
| BrokerLaws.NoticesAreAsAsked | dcop/dcopserver.cpp:1495-1508 | who asked for notices gets them, asking for an end undoes that, and without having asked it does nothing |
| BrokerLaws.NewcomersHaveNothing | dcop/dcopserver.cpp:1184-1193 | whoever connects has no name, no notices and no calls, and nobody else changes |
| BrokerLaws.TimerExactly | dcop/dcopserver.cpp:1278-1330 | when the termination timer is armed, for every step: a disconnect arms it exactly if no application is left and the server is to end with them, or no client has a name during a shutdown; the first shutdown arms it; a message stops it exactly if there is one more application afterwards; and nothing else changes it |
| Broadcasts.NoticesAbout | dcop/dcopserver.cpp:1553-1575 | the loop over the clients sends one Send with key 1 to each that asked for notices, except the one it is about |
| Broadcasts.ForMatching | dcop/dcopserver.cpp:777-795 | the loop over the names sends one Send, with the key that came in, to each client whose name begins like the pattern |
| DcopServer.DCOPServer.constructor | dcop/dcopserver.cpp:971-979 | a new server object is the initial state of the machine |
| DcopServer.DCOPServer.WatchConnection | dcop/dcopserver.cpp:1184-1193 | the new connection object is a connect step, and the signal table stays consistent |
| DcopServer.DCOPServer.Route | dcop/dcopserver.cpp:734-743 | the list updates on the two connection objects are the update of the machine, also when they are the same object |
| DcopServer.DCOPServer.RegisterAs | dcop/dcopserver.cpp:1413-1472 | the object's tables, counter and timer change as the machine says, the plain name is the part of the new name in front of a dash, and exactly those who asked for notices, but not the client itself, are told |
| DcopServer.DCOPServer.SetNotifications | dcop/dcopserver.cpp:1495-1508 | the counter of the connection goes up or down and never below zero, as the machine says |
| DcopServer.DCOPServer.BroadcastRegistration | dcop/dcopserver.cpp:1553-1575 | the notice about a name goes once to each client that the machine calls a listener |
| DcopServer.DCOPServer.Multicast | dcop/dcopserver.cpp:777-795 | a message to a pattern goes once to each client that the machine says it matches |
| DcopServer.DCOPServer.SetDaemonMode | dcop/dcopserver.cpp:1371-1411 | the flag, the counter and the timer change as the machine says |
| DcopServer.DCOPServer.Answer | dcop/dcopserver.cpp:842-875 | the server's own answer carries the key of the call, or the next server key, and is a Reply or a ReplyFailed as the machine says (see `BrokerLaws.CallersAreAnswered`) |
| DcopServer.DCOPServer.ProcessMessage | dcop/dcopserver.cpp:711-922 | handling a message is a message step of the machine, for every opcode, sender and receiver, with the notices and the messages to a pattern of names that the step casts, each receiver once; a request to connect files exactly the connection asked for, if it is granted, a request to disconnect deletes exactly those it is about, and no other message touches the signals |
| DcopServer.DCOPServer.AbortCalls | dcop/dcopserver.cpp:1205-1224 | the loop that aborts calls drains the list and tells each caller |
| DcopServer.DCOPServer.ForgetCalls | dcop/dcopserver.cpp:1247-1262 | the loop over waitingOnReply tries the plain list first and the delayed one only if that fails |
| DcopServer.DCOPServer.StrikeOff | dcop/dcopserver.cpp:1264-1276 | a closed client leaves the table of names and the count, and exactly those who asked for notices are told |
| DcopServer.DCOPServer.ArmTimer | dcop/dcopserver.cpp:1280-1287 | the timer is armed as the machine says, which is exactly if nothing is left to wait for (see `BrokerLaws.TimerExactly`) |
| DcopServer.DCOPServer.RemoveConnection | dcop/dcopserver.cpp:1195-1288 | closing a connection is a disconnect step, with the notices of that step; the signal table loses what involves it and nothing else |
| DcopServer.DCOPServer.SlotShutdown | dcop/dcopserver.cpp:1310-1330 | the first shutdown sets the flag, arms the timer, sends the server's signal, and exits at once exactly when no client is registered; later ones do nothing |
| DcopServer.DCOPServer.ConnectSignal | dcop/dcopsignals.cpp:96-157 | as a request to the server: it succeeds exactly when the arguments fit and a volatile sender is registered, and then the connection asked for is filed; a volatile one gets the signal from then on exactly when the client that was found emits it |
| DcopServer.DCOPServer.DisconnectSignal | dcop/dcopsignals.cpp:168-222 | as a request to the server: exactly the connections that it is about are deleted, from all lists at once, and all of them involve the client |
| DcopServer.DCOPServer.Emit | dcop/dcopsignals.cpp:37-84 | one message for each connection object that gets the signal, in order, each a Send with key 1 to an open client (who gets it: `SignalLaws`) |
| DcopServer.DCOPServer.Serve | dcop/dcopserver.cpp:705-922 | the object fed with whatever conforming clients do goes through a run of the machine, up to the end or the exit, and the invariant of all reachable states holds of it |
| DcopServer.DCOPServer.Handle | dcop/dcopserver.cpp:705-922 | one turn of the event loop is one step of the machine, and what is sent in it is what the step sends, what it casts, and the signals, each once |
| DcopServer.SignalRequestsSucceed | dcop/dcopserver.cpp:1509-1549 | a call about signals is answered with a Reply, and the tables of the router stay as they are |
| DcopServer.PlainNames | dcop/dcopserver.cpp:1458-1462 | the plain name of a name with a number is the name in front of it |
| OutputQueue.WriteContinues | dcop/dcopserver.cpp:272-297 | DCOPIceWrite: what is on the wire followed by what is unsent is what there was and the new chunk |
| OutputQueue.WriteCharContinuesExactly | dcop/dcopserver.cpp:240-267 | DCOPIceWriteChar does so exactly when it queues the whole chunk or the bytes it queues equal those it has not sent |
| OutputQueue.WriteCharSafeExactly | dcop/dcopserver.cpp:240-267 | a chunk is safe for every way the socket may behave exactly when all its bytes are equal |
| OutputQueue.WriteCharRepeatsBytes | dcop/dcopserver.cpp:260-266 | of the bytes 1, 2 the stream becomes 1, 1 |
| OutputQueue.OutputReadyContinues | dcop/dcopserver.cpp:332-384 | slotOutputReady moves bytes from the queue to the wire and loses none |
| OutputQueue.OutputReadyProgress | dcop/dcopserver.cpp:365-384 | every successful send makes progress, also when an empty chunk is at the head |
| OutputQueue.SendsWhatFits | dcop/dcopserver.cpp:166-238 | the sending loop goes on through partial sends and interrupts until all is sent or the socket would block |
| OutputQueue.Run | dcop/dcopserver.cpp:299-315 | output is blocked exactly while something is queued, at the end of every run |
| OutputQueue.StreamIntact | dcop/dcopserver.cpp:240-384 | over any interleaving of writes and partial, interrupted or blocked sends, the wire followed by the unsent bytes is everything written, in order |
| OutputQueue.WriteIceData | dcop/dcopserver.cpp:166-238 | the sending loop sends a prefix and reports how much is left |
| OutputQueue.DCOPIceWrite | dcop/dcopserver.cpp:272-297 | the method on the connection object is the step on the queue and keeps the stream |
| OutputQueue.DCOPIceWriteChar | dcop/dcopserver.cpp:240-267 | the method on the connection object is the step on the queue, with its fault |
| OutputQueue.SlotOutputReady | dcop/dcopserver.cpp:332-384 | the method on the connection object keeps the stream |
| PtrLists.RemoveRefAtIndex | dcop/dcopsignals.cpp:215-216 | removeRef takes out what findRef finds, the first occurrence only |
| SignalArgs.AcceptsIffPrefix | dcop/dcopsignals.cpp:118-127 | the comparison of argument strings accepts exactly when the slot's argument list is a prefix of the signal's |
| SignalArgs.HasArgsExactly | dcop/dcopsignals.cpp:103-116 | a signature has arguments exactly if some closing parenthesis comes after some opening one |
| SignalArgs.ArgsAreBetween | dcop/dcopsignals.cpp:103-116 | the arguments are what is between the first opening parenthesis and the first closing one after it |
| Signals.SweepDelete | dcop/dcopsignals.cpp:187-220 | fetching the next item and then deleting the current one leaves the cursor on the item fetched |
| Signals.AddKeepsConsistent | dcop/dcopsignals.cpp:145-156 | a new connection object keeps each object exactly once in each list it belongs to |
| Signals.PurgeKeepsConsistent | dcop/dcopsignals.cpp:215-219 | deleting any set of objects from all lists keeps the table consistent |
| Signals.PurgedOfClient | dcop/dcopsignals.cpp:230-272 | after the removal of a client no object names it as receiver or volatile sender, and all others are still there |
| Signals.EmittedOnlyToOpen | dcop/dcopsignals.cpp:51-83 | whatever is emitted, only open connections are served, each connection object once |
| Signals.ReceiversMembers | dcop/dcopsignals.cpp:51-83 | exactly the objects of that signal that pass the tests are served |
| Signals.ByNameExactly | dcop/dcopsignals.cpp:59-63 | a connection by name is served only for the sender it names, whoever emits, exactly when that name is not "DCOPServer" |
| Signals.ServersSignalFromAnyone | dcop/dcopsignals.cpp:59-63 | who listens to the server by name gets the signal from every client that emits it |
| SignalLaws.VolatileIsServed | dcop/dcopsignals.cpp:54-72 | a volatile connection gets the signal exactly if the emitter is the client it was made for and the object is the one it names, if it names one |
| SignalLaws.AnonymousIsServed | dcop/dcopsignals.cpp:64-72 | a connection without a sender gets it whoever emits |
| SignalLaws.NamedIsServed | dcop/dcopsignals.cpp:59-72 | a connection by name gets it exactly if the emitter has that name, or the name is that of the server |
| SignalLaws.OthersAreNotServed | dcop/dcopsignals.cpp:51-83 | nothing that is not listed gets it; with excludeSelf the emitter is left out and nobody else |
| SignalLaws.ServedInOrder | dcop/dcopsignals.cpp:51-83 | who gets it gets it in the order of the list |
| SignalLaws.EmissionNames | dcop/dcopsignals.cpp:40-47 | an emission names the object in front of the first "#" and the signal behind it |
| SignalLaws.ConnectedIsServed | dcop/dcopsignals.cpp:129-156 | a new volatile connection gets what its sender emits and nothing else, and all others get what they got before |
| SignalLaws.NewIsServedLast | dcop/dcopsignals.cpp:152-156 | it gets it after all others |
| SignalLaws.TargetsExactly | dcop/dcopsignals.cpp:187-212 | to be deleted are the connections of the caller from that sender that agree with all arguments that are not empty |
| SignalLaws.ConnectedIsDisconnected | dcop/dcopsignals.cpp:187-219 | what was connected is deleted with the same arguments, exactly as long as a volatile sender has its name |
| SignalLaws.DeletedIsSilent | dcop/dcopsignals.cpp:213-219 | what was deleted gets nothing any more, and all else gets what it got before |
| SignalLaws.RemovesAsDocumentedExactly | dcop/dcopsignals.cpp:224-250 | removal by object removes what it says exactly if no connection of the client to itself has the object at one end only |
| SignalLaws.HalfSurvives | dcop/dcopsignals.cpp:240-250 | a connection from one object of a client to another survives the removal of either |
| Signals.DCOPSignals.ConnectSignal | dcop/dcopsignals.cpp:96-157 | refuses without a change, or files one fresh object at the end of the signal's, the receiver's and the volatile sender's list |
| Signals.DCOPSignals.Unfile | dcop/dcopsignals.cpp:252-269 | one object is taken out of each of its lists; the cursor of each is left where removeRef leaves it |
| Signals.DCOPSignals.RemoveConnections | dcop/dcopsignals.cpp:230-272 | walking the client's list deletes from all lists exactly the related objects: with an object name, one from the client to itself only if both names match |
| Signals.DCOPSignals.DisconnectSignal | dcop/dcopsignals.cpp:168-222 | walking the signal's list deletes from all lists exactly the matching objects, and reports whether there were any; without sender and signal it removes by object |
| Signals.DCOPSignals.EmitSignal | dcop/dcopsignals.cpp:37-84 | the objects served are those of the signal after the object name is split off, in order (who they are: `SignalLaws.VolatileIsServed` and the laws next to it) |
| Signals.Serve | dcop/dcopsignals.cpp:51-83 | the loop serves the wanted objects of the list in order |
| Signature.KeepsNonBlanks | dcop/dcopclient.cpp:1017-1041 | all non-blank characters stay, in order, and nothing gets longer |
| Signature.ResultIsNormal | dcop/dcopclient.cpp:1017-1041 | every blank of the result is one space between two identifier characters |
| Signature.NormalizeIdempotent | dcop/dcopclient.cpp:1017-1041 | a signature is left alone exactly when it is in normal form; normalising twice is normalising once |
| Signature.NormalizesParts | dcop/dcopclient.cpp:1017-1041 | two parts with blanks between them are normalised each for itself, with one space between them exactly if both characters there are of identifiers |
| Signature.TrimsBlanks | dcop/dcopclient.cpp:1017-1041 | blanks at either end are dropped |
| Signature.SkipBlanks | dcop/dcopclient.cpp:1025-1026 | the first inner loop stops at the next character that is not a blank |
| Signature.CopyWord | dcop/dcopclient.cpp:1029-1032 | the second inner loop copies up to the next blank and never writes past what was read |
| Signature.NormalizeFunctionSignature | dcop/dcopclient.cpp:1017-1041 | the loop with its moving positions computes the normal form inside a buffer of the size of the input |
| ClientKeys.StepKeeps | dcop/dcopclient.cpp:459-529 | every step of a client keeps the frames nested, the current key that of the stack, every accepted message accounted for, and every iterator over the queue on an item or behind the end |
| ClientKeys.OneKey | dcop/dcopclient.cpp:499-517 | all calls and handled calls on a stack that have a key have the current key |
| ClientKeys.NothingForeignInside | dcop/dcopclient.cpp:499-506 | above a frame with a key, nothing with another key is ever handled |
| ClientKeys.Discipline | dcop/dcopclient.cpp:438-529 | over all runs: one key on the stack, the current key is back when the stack is, every accepted message was handled once, refused later or is still queued, and while something is queued the timer is armed or a loop over the queue is under way |
| ClientKeys.IdleTimerDrains | dcop/dcopclient.cpp:438-455 | when the timer fires while the client does nothing, every queued message is taken up, in order, and the timer is not armed again |
| ClientKeys.TakenUpExactly | dcop/dcopclient.cpp:346-347 | a message is handled at once exactly if it is a request with a sender, calls are accepted, and the client works under no key or the one of the message; it is queued exactly if only the key is another one; otherwise nothing becomes of it |
| ClientKeys.CallsAreAnswered | dcop/dcopclient.cpp:459-560 | over all runs: every call that came in was answered exactly once, with its key and to its sender, or it is being handled, or it waits in the queue |
| ClientKeys.AnswersExactly | dcop/dcopclient.cpp:471-485 | a step sends nothing but one answer: what a handler has come to, when it ends, or that a call failed, when it is refused |
| ClientKeys.StepKeepsOrderExactly | dcop/dcopclient.cpp:499-506 | the messages of a sender stay in order exactly when the step takes up none of them while another one, accepted before it, still waits |
| ClientKeys.RunKeepsOrderExactly | dcop/dcopclient.cpp:438-506 | over a run they are in order all the way exactly when no step does that |
| ClientKeys.OrderKeptExactly | dcop/dcopclient.cpp:438-506 | if they can be told apart, the order in the end tells whether a step did; with none refused, it is the order in which they were handled |
| ClientKeys.PostedIsOvertaken | dcop/dcopclient.cpp:499-506 | a message posted during a call is overtaken by a later one of the same sender that comes when the call is over |
| ClientKeys.SweepIs | dcop/dcopclient.cpp:438-455 | going through the queue handles exactly the messages of the current key, in order, and leaves the others |
| DcopClient.DCOPClient.ProcessMessage | dcop/dcopclient.cpp:335-347 | a message read from the wire, whatever comes in while it is handled: its arrival, then, exactly if it is handled at once, what comes in meanwhile and the answer; key restored, nothing foreign handled |
| DcopClient.DCOPClient.ProcessInternal | dcop/dcopclient.cpp:460-506 | the same for requests from the wire or from the queue, with the refusals, the posting and the answers |
| DcopClient.DCOPClient.Dispatch | dcop/dcopclient.cpp:508-529 | the handler may call and receive in any nesting; all of that happens between the two ends of the frame, and the key saved in the local variable is restored |
| DcopClient.DCOPClient.CallInternal | dcop/dcopclient.cpp:1833-1983 | a call that waits: it begins, whatever comes in happens inside it, it ends, and the key is restored |
| DcopClient.DCOPClient.ProcessPostedMessages | dcop/dcopclient.cpp:438-455 | the loop over the queue removes while it walks, whatever its handlers bring in: it takes up each message that it comes to and that is due, and ends only behind the last one; key restored, nothing foreign handled; with handlers that bring in nothing it leaves exactly the messages of other keys, and arms the timer again exactly if there are any |
| DcopClient.Live | dcop/dcopclient.cpp:335-560 | the life of a client object, whatever happens to it and in whatever nesting: when nothing is going on any more, every call that came in was answered once, or waits with the timer armed |
| DcopClient.ToldInTurn | dcop/dcopclient.cpp:335-347 | what happens one after the other comes to its events one after the other |
| DcopClient.ToldOnce | dcop/dcopclient.cpp:508-529 | what happens inside a handler or a call comes between its two ends, and a message that is not handled lets nothing happen inside |
| DcopClient.ToldByTurns | dcop/dcopclient.cpp:438-455 | the loop over the queue passes a message of another key, and otherwise takes it up with all that happens inside |
| CallChains.Answering | dcop/dcopserver.cpp:832-876 | the server answers calls it cannot pass on, and issues the next key to a client that has none |
| CallChains.SpokenIsGood | dcop/dcopclient.cpp:1840-1851 | a call has the key of the client that its chain began with, or none exactly if the caller has read none yet |
| CallChains.LeaveKeeps | dcop/dcopserver.cpp:1195-1262 | a client that goes away in mid-chain leaves the keys of all others and of all calls under way as they are, and its handle on no list |
| CallChains.JoinKeeps | dcop/dcopserver.cpp:1184-1193 | a new client may have a handle that another one had, and is confused with it nowhere |
| CallChains.TakesServersNameExactly | dcop/dcopserver.cpp:1419-1456 | a client that registers gets the name of the server exactly when it asks for it and no other client has it |
| CallChains.RegisterKeepsNamesExactly | dcop/dcopserver.cpp:1419-1456 | registering leaves the server's name free and names only clients with a key exactly when a client with a key asks for another name |
| CallChains.NoticeKeepsExactly | dcop/dcopclient.cpp:346-347 | a signal or notice on the way to a client keeps its key in order exactly when the client was issued one |
| CallChains.SignalKeeps | dcop/dcopsignals.cpp:51-83 | so a signal does no harm to those who asked for signals in a disciplined way |
| CallChains.MiscastBreaks | dcop/dcopserver.cpp:777-795 | a message that matches somebody and is sent to a pattern with a key other than that of a Send breaks the invariant |
| CallChains.StepKeeps | dcop/dcopserver.cpp:711-922 | a step of server or clients keeps keys distinct and every call marked with the key of its chain exactly when the message served, if any, is an answer fit for the books, gives nobody the server's name, gives no name and no signals or notices to a client without a key unless it is a call, is no call without a key to a client, is sent to a pattern of names only with the key of a Send, and uses no key after the last |
| CallChains.Run | dcop/dcopserver.cpp:974 | so does every run of such messages and of signals and notices, clients coming and going, with handles that come back |
| CallChains.ChainsKeepTheirKey | dcop/dcopclient.cpp:499-517 | in every reachable state keys are distinct from 42 on, no two clients have the same one, every client that has a key has the one issued to it, and every call under way, queued or handled has the key of the client its chain began with, even if that client is gone and its handle is another one's |
| CallChains.HandledAtOnceExactly | dcop/dcopclient.cpp:499-506 | a request is handled at once exactly when the client is in no chain or the request belongs to that chain, otherwise it is queued |
| CallChains.CallbackIsHandled | dcop/dcopclient.cpp:499-506 | a call that comes back to a client taking part in its chain, however deep in its stack, is handled at once |
| CallFailures.StrayReplyGivesKey | dcop/dcopserver.cpp:1225-1246 | from any state in which a plain Reply to a call that was put off is next: caller leaves, its handle comes back, callee leaves, and the new client has the key 1, which nobody issued |
| CallFailures.StrayReplyReached | dcop/dcopserver.cpp:898-905 | from any reachable state with two idle clients, disciplined steps lead to such a state |
| CallFailures.IdleReached | dcop/dcopserver.cpp:1413-1472 | there are such states: two clients come and register |
| CallFailures.ServersNameTaken | dcop/dcopserver.cpp:811-833 | a client is called "DCOPServer", and the first call of another one goes to it without a key and leaves its caller without one |
| CallFailures.ListenerTakesKey | dcop/dcopserver.cpp:761-770 | from any state, reached in whatever way: a new client that asks for signals by a Send takes the key of the first signal for its own, which nobody issued to it |
| CallFailures.ListenersShareKey | dcop/dcopclient.cpp:346-347 | a run from the start after which two clients have the same key |
| CallFailures.ForeignCast | dcop/dcopserver.cpp:734-795 | from any state with keys in order: a ReplyDelayed to a pattern of names reaches every other client that matches as a Send with the key of the reply |
| CallFailures.ForeignCastReached | dcop/dcopserver.cpp:777-795 | there are such states: two clients come and register, and a pattern matches one of them |
| ConfigCodec.RoundTripWithin | kab/qconfigDB.cc:313-413 | decoding at the place of an encoded string, inside any text, gives the string and the length of its code |
| ConfigCodec.RoundTrip | kab/qconfigDB.cc:313-464 | decoding an encoded string gives the string, and the whole code counts as read |
| ConfigCodec.DecodesExactly | kab/qconfigDB.cc:313-413 | for all texts: decoding gives a text and a count exactly if, after blanks, there is a quote, then characters that are no quote or backslash, the four escaped characters and end marks that say that text, then a quote, and the count is the length of that; so it fails exactly on what is no complex string |
| ConfigCodec.BlanksAreSkipped | kab/qconfigDB.cc:341-342 | blanks in front of a complex string are skipped and not counted |
| ConfigCodec.OneLine | kab/qconfigDB.cc:415-464 | the code starts and ends with a quote and has no newline; it has a carriage return exactly if the text has |
| ConfigCodec.MakeComplexString | kab/qconfigDB.cc:415-464 | the encoding loop computes the code |
| ConfigCodec.ParseComplexString | kab/qconfigDB.cc:313-413 | the decoding loop fails exactly on what is no complex string, and otherwise gives the text and the count (what that is: `ConfigCodec.DecodesExactly`) |
| ConfigLists.ListDecodes | kab/qconfigDB.cc:993-1095 | what decoding makes of the code of any list: items that end in a backslash are glued to the next |
| ConfigLists.ListRoundTripExactly | kab/qconfigDB.cc:993-1095 | a list comes back exactly when no item ends with a backslash |
| ConfigLists.BackslashJoinsItems | kab/qconfigDB.cc:1028-1029 | two items with a backslash between them come back as one |
| ConfigLists.ListOneLine | kab/qconfigDB.cc:1070-1095 | the code of a list starts and ends with a quote and has no newline; it has a carriage return exactly if an item has |
| ConfigLists.InsertList | kab/qconfigDB.cc:1070-1095 | the loop computes the code of the list |
| ConfigLists.FindEnd | kab/qconfigDB.cc:1015-1042 | the search for an unescaped end mark finds the end of the item |
| ConfigLists.GetList | kab/qconfigDB.cc:993-1066 | the loop decodes the items, or fails with the first that does not decode |
| ConfigMaps.InsertKeepsOrder | kab/qconfigDB.cc:511 | insertion keeps the keys in strict order |
| ConfigMaps.InsertMembers | kab/qconfigDB.cc:511 | insertion loses nothing, overwrites nothing and leaves the key in the map |
| ConfigLines.NameReadsExactly | kab/qconfigDB.cc:1661-1758 | an opening line is read as that section exactly for names that are not empty and have no blank, no "]" and no "END" |
| ConfigLines.CloseReads | kab/qconfigDB.cc:1687-1726 | a closing line ends a section whatever its name is |
| ConfigLines.KeyReadsExactly | kab/qconfigDB.cc:556-609 | for all keys and values: a key line gives back its key and value exactly for keys that are not empty, printable, without "=" and do not start with "#", with a value that does not make it look like a section line |
| ConfigLines.CommentReads | kab/qconfigDB.cc:43-54 | the comments that are written are read as comments |
| ConfigLines.OpeningLine | kab/qconfigDB.cc:1661-1758 | a good name between brackets opens that section, whatever blanks are around the brackets and the name |
| ConfigLines.ClosingLine | kab/qconfigDB.cc:1687-1726 | END between brackets closes a section, whatever blanks are around them and whatever comes after a blank |
| ConfigLines.CommentExactly | kab/qconfigDB.cc:43-54 | a line is a comment exactly if its first character that is no blank is "#" |
| ConfigLines.KeyIsTrimmed | kab/qconfigDB.cc:556-609 | blanks around a key do not matter, and the value is all that follows the first "=", with its blanks |
| ConfigLines.GraphsAre | kab/qconfigDB.cc:586-593 | the characters of a key are the letters, digits and punctuation marks |
| ConfigLines.EncodedIsQuoted | kab/qconfigDB.cc:415-464 | what the encoders make fits into the value of a key line exactly if there is no carriage return in the text |
| ConfigFile.ReadKeys | kab/qconfigDB.cc:271-292 | saved keys are read back in order into the map |
| ConfigFile.ReadSub | kab/qconfigDB.cc:1636-1647 | a saved subsection is read into its own place |
| ConfigFile.ReadSaved | kab/qconfigDB.cc:1549-1659 | reading a saved tree puts what the lines can show of it into an empty section and goes on with the text that follows, at every level |
| ConfigFile.ReadYieldsPlain | kab/qconfigDB.cc:1592-1659 | whatever the file says, every name that is read follows the rules for names, every key is printable, not empty and without "=", and every value is on one line |
| ConfigNameless.UndefinedExactly | kab/qconfigDB.cc:1600-1641 | for all texts: loading uses a subsection pointer that was never set exactly when it reaches an opening line without a name before any other opening line of the same section |
| ConfigNameless.FailsExactly | kab/qconfigDB.cc:1610-1629 | for all texts: loading fails exactly if a section that was opened is not closed at the end of the file |
| ConfigNameless.NamelessFirst | kab/qconfigDB.cc:1636-1641 | "[]" as the first opening line of any section is such a line |
| ConfigNameless.NamelessLater | kab/qconfigDB.cc:1636-1641 | "[]" after another opening line leads into the subsection of that line again |
| ConfigNameless.NamelessReadsAgain | kab/qconfigDB.cc:1600-1647 | a file whose nameless section is read into the section before it |
| ConfigFile.ReadKeepsOrder | kab/qconfigDB.cc:1592-1659 | whatever the file says, every map that is read has its keys in order, once each, after nameless sections too |
| ConfigLoad.ReadCounts | kab/qconfigDB.cc:1592-1659 | reading any text puts no more keys into a section and those inside than there are lines that declare one |
| ConfigLoad.LoadSaved | kab/qconfigDB.cc:2443-2546 | for all sorted databases, whatever their names, keys and values: saved and loaded it is the same tree, with the file read to its end, exactly when all names are good and all keys and values are shown by their lines, where the last line may look like an opening line |
| ConfigLoad.LoadQuoted | kab/qconfigDB.cc:2443-2546 | with values as the encoders make them: exactly when all names and keys follow the rules of the lines |
| ConfigLoad.HeaderLoadsExactly | kab/qconfigDB.cc:2479-2487 | an empty database comes back empty exactly when every further line of the header is a comment or says nothing |
| ConfigLoad.HashKeyIsLost | kab/qconfigDB.cc:43-54 | a database whose only key starts with "#" is loaded as an empty one |
| ConfigLoad.ReturnCutsValue | kab/qconfigDB.cc:415-464 | of an encoded text with a carriage return only the part in front of it comes back |
| ConfigLoad.HeaderBringsKey | kab/qconfigDB.cc:2481-2484 | a header of two lines whose second declares a key puts that key into the database |
| ConfigDB.ReadLineFromStream | kab/qconfigDB.cc:100-123 | the loop gives the next line that is no comment |
| ConfigDB.CleanKey | kab/qconfigDB.cc:586-593 | the loop leaves exactly the alphanumeric and punctuation characters, in order |
| ConfigDB.ParseLine | kab/qconfigDB.cc:556-609 | the line is split at its first "=" |
| ConfigDB.FirstWord | kab/qconfigDB.cc:1711-1713 | the two cursors find the first word inside the brackets |
| ConfigDB.Section.Add | kab/qconfigDB.cc:1420-1469 | a new section object takes its place in the map, unless the name is empty or in use; the objects stay a tree, no section is in two places |
| ConfigDB.Section.InsertLine | kab/qconfigDB.cc:556-609 | the line's key and value enter the map of the section, or nothing changes |
| ConfigDB.Section.ReadSection | kab/qconfigDB.cc:1592-1659 | the reading loop, which reads subsections with itself into their own objects, computes the parse and leaves the rest of the text |
| ConfigDB.Section.Save | kab/qconfigDB.cc:1549-1590 | the writing loops over the section objects append the printed tree to the stream |
| ConfigDB.QConfigDB.Save | kab/qconfigDB.cc:2443-2517 | the file is the comments and the printed tree |
| ConfigDB.QConfigDB.Load | kab/qconfigDB.cc:2519-2546 | the database is the parse of the file, with ordered maps; loading is undefined exactly for the files named above, and fails exactly if a section is left open; a file that was saved from a sorted tree gives that tree, read to its end, exactly when the tree is loadable |
| RebuildScheduler.StepKeeps | kded/kded.cpp:470-553 | every request, change, timer and end of a build keeps counter, timer and order |
| RebuildScheduler.AnsweredInOrder | kded/kded.cpp:463-553 | over all runs, with the delayed check or without: transactions are ended once each, in order, and a waiting request has a build running or a timer armed |
| RebuildScheduler.AnsweredInTime | kded/kded.cpp:499-553 | over all runs in which the delayed check, if there is one, comes in an idle moment: each is ended by the first build that began after it came in |
| RebuildScheduler.NoChangeIsForgotten | kded/kded.cpp:527-537 | after any change of a directory, however things go on: a build has begun since, or the timer is armed, or a build runs that leaves something in the queue |
| RebuildScheduler.BuildsAreCounted | kded/kded.cpp:458-482 | builds begin when the timer fires or the delayed check is due and at no other time, and directories are watched, if they are to be, from the first build on that does not leave it to a later one |
| RebuildScheduler.DelayedCheckSafeExactly | kded/kded.cpp:463-468 | whatever happened before, no continuation answers a request too early after the delayed check exactly when it comes while no build runs and no timer is armed |
| RebuildScheduler.DelayedCheckAnswersTooEarly | kded/kded.cpp:463-468 | a run from the start: a request, the delayed check, the timer, a second request, and the second build answers it although it began before |
| RebuildScheduler.Kded.RequestRecreate | kded/kded.cpp:539-553 | the request is queued and counted as the machine says |
| RebuildScheduler.Kded.DirChanged | kded/kded.cpp:527-537 | a change arms the timer, or leaves an entry without a transaction while a build runs, so that it is not forgotten (see `RebuildScheduler.NoChangeIsForgotten`); there are changes only once the directories are watched |
| RebuildScheduler.Kded.Recreate | kded/kded.cpp:470-482 | a build begins, whoever asks for it, and the directories are watched |
| RebuildScheduler.Kded.SlotTimeout | kded/kded.cpp:458-461 | the timer that fires begins a build |
| RebuildScheduler.Kded.RunDelayedCheck | kded/kded.cpp:463-468 | the delayed check begins a build once, and leaves the timer alone |
| RebuildScheduler.Kded.RecreateDone | kded/kded.cpp:499-521 | the draining loop answers the counted requests and schedules the next build for the others |

## Left out

- ICE, sockets, authentication, process management and the Windows variants: `send` is any number of bytes accepted, or an interrupt, or a full socket; a closed ICE connection is the disconnect step. Fatal write errors only queue the connection for closing and are the disconnect step too.
- Text of messages: a message to a client is its opcode, key and receiver; a request to the server is one of those that change its tables or deal with signals, or any other with or without success, and the text of an answer is left out.
- Log output and the actions of the termination timer: only whether it is armed is modelled.
- Registration during shutdown stops the timer that shutdown armed; the model follows the code there, and the rule about the timer is therefore stated in one direction only.
- Signal connections with `excludeSelf`: modelled in the selection of receivers, while the server's own callers never set it.
- `TQDict` buckets: tables are finite maps. The order in which a loop over a dictionary visits its entries is not known, so of the messages that go to many clients it is stated which there are, not their order.
- The rename notice, which is only compiled into debug builds. In the composed system a client that was connected to a signal counts as a receiver of signals until it leaves, so signals may come after it was disconnected too.
- Calls with priority, call timeouts, `enter_loop`, and the returns of a call on a lost connection, which do not all restore the current key. The model of the client knows the key 2 only as the constant that the code compares with.
- Answers between clients in the composed system: they travel, but the end of a call is a step of its own, since an answer does not touch the keys of a client that has one; what a client answers is the client's part alone (`ClientKeys.CallsAreAnswered`).
- ConfigDB: a section object that the caller hangs into two places of a database (`add` with a section of the caller's) is not captured. `TQTextStream` is not part of the repository: a line is taken to end at a newline, a carriage return, or both together, and characters are bytes.
- Values of the configuration database other than strings and lists of strings, lock files, file ages, read-only modes and notification of changes.
- kded's module loading, directory watching and host name changes; `updateResourceList` and the building of the cache itself.
- Stubs, the DCOP-Qt bridge, `dcopref.h` and the plain C client: boilerplate around the same protocol.
