# A verified model of XMLRCS

XMLRCS distributes recent changes of wikis. `es2r.py` reads a stream of events and pushes `site|xml`
items onto a Redis list; `xmlrcsd`, a threaded C++ daemon, pops the items and fans them out to TCP clients
that have subscribed; a C# library parses what arrives and subscribes again after a lost connection. These
files model the four parts in which something can go subtly wrong and prove what holds in every run.

`dafny verify dfyconfig.toml` verifies the whole project with Dafny 4.11.

## The modules

* **The daemon under every schedule.** `Daemon` is a step system with one listener, the Redis pump, the Killer,
  and a command and a sender thread per client, for any number of clients: program counters, the owner of each
  mutex, the client vector, buffers, and a history of what was fanned out and written. A run is any sequence of
  (thread, answer of the outside world) picks; a pick whose thread is blocked changes nothing. `DaemonInvariant`
  holds the invariant and its preservation thread by thread, `DaemonSafety` object lifetime, the registry and
  freedom from deadlock, `DaemonDelivery` what reaches each client, `DaemonSessions` what the command threads and
  the pump keep. `DaemonCommands` says what the lines a client has sent come to, `DaemonFanout` which edits it is
  sent for them, `DaemonKiller` whom the Killer kills, and `DaemonWitness` builds runs in which the work gets done.
* **The daemon's code as code.** `Commands` says what a command line does to a client's flag and vector,
  `Subscribed` what a series of them means for the fan-out, `LineReader` how bytes become lines, `Session` is the class `Client` with the source's fields and loops, proved
  against those two, and `Registry` is the client vector as the pump, the listener and the Killer change it,
  including the Killer's sweep with its restart after each removal; `PumpLoop` joins it to the Redis list.
* **The subscription protocol.** `Agreement` runs the C# client's list against the server's flag and vector over
  a byte channel that can be lost at any moment; `Provider` is the C# class, proved against it.
  `Resubscribing` asks what the server's answers to the client's own commands do to the connection.
* **es2r.** `Health` (error windows, `process_event`), `Backoff` (retry delays), `Converter` (the Python methods
  that update these fields, proved against the two), `Supervisor` (supervisor, watchdog and workers as a timed
  step system) and `RedisQueue` (the list between es2r and the daemon).
* **Encodings.** `XmlText` and `XmlDocument` (how XML 1.0 reads an attribute value, and a document),
  `QuoteAttr` (Python's `quoteattr`), `EditElement` (the element written), `Scalars` (numbers and truth values),
  `UnixTime` (the timestamp as the C# client takes it), `ChangeFormat` (`format_xml`), `FieldTable` (its
  element field by field), `EditReader` (what the C#
  client makes of a line), `EditRoundTrip` (both together), `Notices` (the daemon's other lines as the
  client reads them), and `JsEscape` (ws2r's escaper).
* **The whole way.** `Pipeline` follows changes from es2r through any run of the Redis list, any schedule of the
  daemon and the wire to the records that the application behind the C# client is handed.
* `Base` holds an option type and a few facts about sequences.

## Where the code and its description differ

* `README.md:26` of the repository calls Redis a message queue. Items are pushed and popped at the same end, so
  the list is a stack: the popped sequence is in pushed order exactly when no pop ever found more than one item
  (`RedisQueue.FifoIffAlone`), and the orders that can come out are exactly those in which nothing comes twice and,
  whenever an earlier item follows a later one, all items between the two are out already
  (`RedisQueue.PossibleIff`). So no later item, earlier item and item from between come in that order
  (`RedisQueue.NeverLastFirstMiddle`), and more than that is impossible (`RedisQueue.SkippingIsImpossible`).
* `quoteattr` of `ws2r.js` replaces `&` by `&apos;`, which contains `&`, so it never leaves its first loop on text
  with an ampersand (`JsEscape.AmpersandHangs`).
* `format_xml` writes some values unescaped and checks no text for characters XML forbids. The element is read
  back exactly when the values are clean in a sense a caller can test (`EditRoundTrip.AttributesReadBackIff`).
  Line breaks in an unescaped value keep the element well formed but break the line (`EditRoundTrip.OneLineIff`).
* `format_xml` also publishes changes that the C# client cannot take: a null among bot, patrolled and minor, or a
  timestamp that is null or no time, raises in the client and ends its connection (`EditRoundTrip.RoundTrip`,
  `EditRoundTrip.NoTimeRejected`, `Pipeline.HeardEndToEnd`).
* The daemon's replies repeat a command unescaped (`client.cpp:131-134`, `client.cpp:325`, `client.cpp:380`), and
  the C# client hands every line to `LoadXml`, whose exception ends the connection. A reply does so exactly
  when it repeats a command that may not stand between the tags of an XML element (`Notices.ReplyEndsIff`); for
  text without a less-than sign that is an illegal character, an ampersand that begins no reference, or `]]>`
  (`XmlDocument.TextIff`). `Subscribe("a&b")` is such a command (`Resubscribing.AmpersandEnds`). With resubscribing
  on, one such name in the list ends every new connection by its own reply (`Resubscribing.ReconnectEndsIff`).
* A reconnect that the error rate has triggered for a format failure can be lost: the exception is raised inside
  the `try` block whose handler records a second error, and that record may answer False because the first has
  pruned the window below ten (`Health.RateRaiseLostIff`, `Health.RateRaiseLost`). The same path counts one
  failure twice (`Health.CounterReachesBound`).
* The C# library's example builds the Provider with reconnecting on and resubscribing off; after one loss its
  subscription is listed and no longer in force (`Agreement.LostAfterReconnect`).
* A worker whose connects fail never reaches the test of a pending reconnect request, because `continue` goes
  round it, whatever the other threads do (`Supervisor.FailingNeverTests`); that `continue` and the one after a
  source was taken away early are the only ways round it (`Supervisor.NearsTestIff`, `Supervisor.WorkerDies`). The deadline is kept by the
  supervisor alone, and it is the timeout plus two iterations of its loop, not one: the first decision that comes
  too late may come at the end of the iteration after the one whose decision was just in time
  (`Supervisor.Deadline`, `Supervisor.Overdue`, `Supervisor.OneIterationIff`).
* `insert_to_redis` reports failure by returning False; `process_event` does not look at the result and records a
  success even when nothing was pushed (`Converter.Converter.ProcessEvent`). `connect_to_event_stream`
  returns None, not False, after an HTTP error; its caller treats both alike.
* The Killer pings again from the start of the list after every removal, so a surviving client gets one ping and
  one more for every timed-out client behind it (`Registry.Daemon.Sweep`).

## What counts as one step

The test and set of `killed` (`client.cpp:249-255`); clearing `ThreadRun2` with the read of `killed` in the
`Kill` that follows (`client.cpp:385-386`); `Launch`; in es2r setting the request together with its test
(`es2r.py:142-148`) and clearing it (`es2r.py:168-172`). Finer steps break two things. A Killer that waits for
`ThreadRun2` in the destructor may free the client between lines 385 and 386, and the command thread then reads
`killed` in freed memory (`DaemonSafety.HalfExitFrees`); `DaemonSafety.Lifetime` holds of the steps above. And a
watchdog request that lands between lines 170 and 172 would leave the event set and its time None. `write` is all or nothing, clocks never go
backwards, and lines handed to the sender are not empty.

A `read` or `write` takes its step sooner or later. For `read` that is the receive timeout of 80 seconds set at
`server.cpp:66-69`; the source sets none for `write`. Freedom from deadlock, and the end of the destructor's waits,
rest on it where a thread stands at such a call.

## Model

| member | source | states |
|---|---|---|
| `DaemonSafety.RunInv` | src/xmlrcsd/client.cpp:29-388 | every state of every schedule of all threads satisfies the full invariant: lock owners match program counters, the life cycle of each object, the registry, the counters |
| `DaemonSafety.Lifetime` | src/xmlrcsd/client.cpp:80-100 | in every run each client object is destroyed at most once, and no thread stands at a statement that touches an object that does not exist or was freed |
| `DaemonSafety.KilledIsDestroyed` | src/xmlrcsd/client.cpp:80-100 | nothing is leaked: in every run a killed client has been freed or is being destroyed, by the Killer or by its own command thread and not by both; a freed one is unregistered, its socket closed and both its threads ended |
| `DaemonSafety.WritesOnlyTouched` | src/xmlrcsd/client.cpp:244-261 | a step leaves every object outside its declared set as it was, so the set used in the lifetime theorem misses no write |
| `DaemonSafety.ReadsOnlyTouched` | src/xmlrcsd/streamitem.cpp:26-36 | a step does the same whatever an object outside that set holds, so the set misses no read |
| `DaemonSafety.RegistryExact` | src/xmlrcsd/client.cpp:61-66 | in every run `clients` is strictly increasing by ID; UsersCount is its length plus one exactly while the listener is between counting and registering; total_conn minus UsersCount is the number of clients whose destructor has unregistered; every object is registered, unregistered or still the listener's |
| `DaemonSafety.BlockedIffWaiting` | src/xmlrcsd/main.cpp:43-58 | a live thread cannot step exactly when it waits for a lock's owner or, in the destructor, for one of the client's threads |
| `DaemonSafety.WaitDescends` | src/xmlrcsd/client.cpp:80-97 | the thread waited for is alive and waits, if at all, strictly later in the order: thread waits, clients_lock, subscriptions_lock, OutgoingBuffer_lock |
| `DaemonSafety.NoDeadlock` | src/xmlrcsd/client.cpp:107-112 | in every run, from any live thread the chain of waiting ends at a live thread that can step whatever the outside world answers |
| `DaemonSafety.WaitsEnd` | src/xmlrcsd/client.cpp:89-98 | once a client is killed and disconnected it stays so, and each step of its own threads brings the flag its destructor waits for strictly closer while no other thread's step undoes that |
| `DaemonSafety.WaitsOver` | src/xmlrcsd/client.cpp:93-97 | for every killed client those measures are 0 exactly when ThreadRun and ThreadRun2 are cleared |
| `DaemonSafety.WaitsFinish` | src/xmlrcsd/client.cpp:89-98 | over any further schedule: after as many moves of the client's sender, and of its command thread, as the measures said at the start, the two flags are cleared |
| `DaemonSafety.HalfExitFrees` | src/xmlrcsd/client.cpp:385-386 | with the statement split in two, a Killer at the second wait of the destructor frees the client before its command thread reads killed |
| `DaemonDelivery.DeliveryExact` | src/xmlrcsd/client.cpp:29-49 | in every run and for every client: written is a prefix of enqueued; while connected written, the line the sender holds and the buffer make up everything enqueued; the edits enqueued are exactly the items matched at the client's own turns since its registration, once each and in order, save one about to be pushed; a registered client has had a turn for every item but at most the current one |
| `DaemonDelivery.DeliveryAtRest` | src/xmlrcsd/streamitem.cpp:16-37 | when no fan-out is under way a registered client has had its turn for every item since its registration and has been sent exactly the matching ones |
| `DaemonDelivery.SameOrder` | src/xmlrcsd/streamitem.cpp:26-36 | in every run any two clients get the items they share in the same relative order, as positions in one common fan-out order |
| `DaemonDelivery.SharedSpan` | src/xmlrcsd/client.cpp:35-45 | over any span of items for which two clients have both had their turns and matched alike, the edits written to one are a prefix of those written to the other |
| `DaemonDelivery.WrittenEdit` | src/xmlrcsd/client.cpp:35-45 | the i-th edit written to a client is the item at its i-th position in the common fan-out order |
| `DaemonCommands.CommandsTakeEffect` | src/xmlrcsd/client.cpp:283-382 | in every run a client's flag and vector are what the lines its thread has read make of none, run in order; a line still in hand has no effect yet |
| `DaemonCommands.CommandsAreAnswered` | src/xmlrcsd/client.cpp:283-382 | in every run what the command thread has enqueued are the answers to those lines, in order, but for one it may still be about to enqueue |
| `DaemonCommands.WhoEnqueues` | src/xmlrcsd/client.cpp:107-112 | in every run each statement adds exactly the pump's edit or warning, a ping, the client's own reply or nothing to a client's lines, and takes none away |
| `DaemonFanout.EditsFollowCommands` | src/xmlrcsd/streamitem.cpp:26-36 | in every run a registered client has had its turn for each item since its registration but at most the current one, and its edits are exactly the items whose site the lines run for it by that turn stand subscribed to, once each and in order |
| `DaemonKiller.TimesExact` | src/xmlrcsd/client.cpp:298-299 | in every run LastPing is when a line that is not empty was last read from the client, or when it was accepted, and last_check is when the Killer last woke |
| `DaemonKiller.KillerDecides` | src/xmlrcsd/main.cpp:45-55 | at a client of its list the Killer turns to killing it if and only if nothing was heard from it for more than 80 seconds before this sweep, and otherwise to pinging it |
| `DaemonKiller.KilledOnlyWhenSilent` | src/xmlrcsd/client.cpp:244-261 | in every run a client is killed only by its own command thread at the end of its session, or by the Killer after such a decision |
| `DaemonWitness.EditGetsThrough` | src/xmlrcsd/streamitem.cpp:16-37 | for every site and edit a run in which a client connects, subscribes by name, and has the answer and then the edit written to it |
| `DaemonWitness.WarningGetsThrough` | src/xmlrcsd/main.cpp:153-166 | for every warning a run in which it is written to a client and the pump is idle again |
| `DaemonWitness.PingGetsThrough` | src/xmlrcsd/main.cpp:40-58 | a run in which a client heard in time is pinged and the sweep ends |
| `DaemonWitness.SilentIsFreed` | src/xmlrcsd/main.cpp:45-52 | a run in which a silent client is killed, unregistered and, its threads done, freed |
| `DaemonSessions.RunSound` | src/xmlrcsd/client.cpp:196-242 | in every run of the daemon every client's vector has no duplicate, never "all", only names of length 1 to 200, and at most 801 of them |
| `DaemonSessions.RunNotices` | src/xmlrcsd/client.cpp:300-381 | in every run, if the lines a client's command thread reads earn replies of some kind, and pings and warnings are of that kind, then so is every notice ever enqueued for it |
| `DaemonSessions.RunTidy` | src/xmlrcsd/client.cpp:300-381 | in every run on lines as ReadLine yields them, every reply, ping and warning ever enqueued for the client is one line |
| `DaemonSessions.FannedIsTaken` | src/xmlrcsd/main.cpp:144-150 | in every run the fan-outs begun are the items taken from Redis, in that order, but for one the pump may still hold |
| `Commands.RunsSound` | src/xmlrcsd/client.cpp:196-242 | over every command sequence the vector has no duplicate, never "all", only names of length 1 to 200, and at most 801 of them |
| `Commands.CommandRefines` | src/xmlrcsd/client.cpp:300-381 | flag and vector behave as a flag and a set; for S and D the reply is ok exactly when that abstract state changed; every command but pong and exit is answered |
| `Subscribed.SentIff` | src/xmlrcsd/streamitem.cpp:30 | after any lines the fan-out sends a client exactly the sites that a line answered by ok or error 1 has subscribed it to and no later D or clear has taken away, and every site while it stands subscribed to all |
| `Subscribed.SubscribeMatches` | src/xmlrcsd/client.cpp:196-216 | a Subscribe that is granted adds its site, or with "all" every site, to those sent, and a refused one none |
| `Subscribed.UnsubscribeMatches` | src/xmlrcsd/client.cpp:218-242 | after Unsubscribe the site is sent only if all are, and no other site changes |
| `Subscribed.WordsDo` | src/xmlrcsd/client.cpp:300-378 | version, clear, ping, stat, pong and exit, each with its effect and its reply |
| `Subscribed.UnknownDoes` | src/xmlrcsd/client.cpp:379-381 | any other line that is no S or D command is answered by error 0 and does nothing |
| `Subscribed.SubscribeDoes` | src/xmlrcsd/client.cpp:302-327 | S with any number of spaces, on every sound vector: which case of flag, 801 names, lengths 1 to 200 and repeats it is, its effect and its reply |
| `Subscribed.UnsubscribeDoes` | src/xmlrcsd/client.cpp:328-350 | D likewise |
| `Subscribed.ReplyNumbers` | src/xmlrcsd/client.cpp:310-348 | the text and the number of each answer to S and D |
| `LineReader.LinesAppend` | src/xmlrcsd/client.cpp:136-167 | reading a stream in two pieces gives the lines of the whole stream |
| `LineReader.ReturnsIgnored` | src/xmlrcsd/client.cpp:158-159 | carriage returns make no difference wherever they stand |
| `LineReader.LineReadBack` | src/xmlrcsd/client.cpp:136-167 | a text without line breaks, ended in either convention, is read as exactly that line |
| `Session.Sanitize` | src/xmlrcsd/client.cpp:174-185 | returns nothing at all for a name that ends in a line break and any other name unchanged, so it is the identity on whatever ReadLine yields |
| `Session.Client.ReadLine` | src/xmlrcsd/client.cpp:136-167 | yields the first line of the remaining input and leaves the rest, or an error exactly when no line feed remains; the line has no break |
| `Session.Client.Subscribe` | src/xmlrcsd/client.cpp:196-216 | the fields and the result code are those of the specification for the sanitized name, with every error case |
| `Session.Client.Unsubscribe` | src/xmlrcsd/client.cpp:218-242 | the same for removing a name |
| `Session.Client.CommandLoop` | src/xmlrcsd/client.cpp:279-382 | on a connection nobody else closes the loop leaves the subscriptions, the replies and LastPing that the lines up to the first exit call for, in order, and then closes; on a client that is not connected it does nothing |
| `Session.OneReplyEach` | src/xmlrcsd/client.cpp:293-381 | the number of replies is the number of lines before the first exit that are not pong |
| `Session.ServedParts` | src/xmlrcsd/client.cpp:283-382 | what a session leaves taken apart: the subscriptions, the replies, and LastPing as the time of the last line that was not empty |
| `Session.SessionRefines` | src/xmlrcsd/client.cpp:279-382 | a whole session keeps the vector sound and follows the flag and the set |
| `Registry.Daemon.Register` | src/xmlrcsd/server.cpp:70-74 | a fresh client without subscriptions goes to the end of the vector and both counters go up by one |
| `Registry.Daemon.Kill` | src/xmlrcsd/client.cpp:244-261 | a client not yet killed is closed, disconnected, unregistered and its buffer emptied; a killed one is left alone |
| `Registry.Daemon.Pass` | src/xmlrcsd/main.cpp:42-56 | one pass pings the clients before the first timed-out one and kills that one, leaving those behind it untouched |
| `Registry.Daemon.Sweep` | src/xmlrcsd/main.cpp:42-58 | the sweep ends, removes exactly the clients with LastPing + 80 < last_check, keeps the others connected and in order, and appends to each of them one ping plus one for every timed-out client behind it |
| `Registry.DueAt` | src/xmlrcsd/main.cpp:53-55 | the pings due to the client at a position are one plus the number of timed-out clients at later positions |
| `Registry.SurvivorAt` | src/xmlrcsd/main.cpp:45-56 | each client in time stands, after the sweep, behind as many survivors as stood before it |
| `Registry.SplitFrameIff` | src/xmlrcsd/streamitem.cpp:18-25 | splitting site, bar, XML at the first bar gives back site and XML if and only if the site has no bar, whatever bars the XML has |
| `Registry.Daemon.ProcessItem` | src/xmlrcsd/streamitem.cpp:16-37 | an item without a bar changes nothing; otherwise exactly the clients whose flag or vector matches get the XML, once |
| `PumpLoop.Round` | src/xmlrcsd/main.cpp:144-166 | one RPOP from the list; total_io counts non-empty replies, last_io is set by them and by a warning, and the warning goes to everyone exactly when there was no item and more than 12 seconds had passed |
| `Agreement.ClientServerAgree` | clients/c#/XmlRcs/XmlRcs/Provider.cs:349-378 | with AutoResubscribe on and well-formed names, at most 801 explicit, in every run of calls, pings, losses, reconnects and single-byte reads, whenever connected the commands under way take the server's flag and vector to exactly the client's list |
| `Agreement.ServerWithinList` | clients/c#/XmlRcs/XmlRcs/Provider.cs:408-432 | resubscribing or not and however many names, the drained server never holds a subscription the client does not list |
| `Agreement.SubscribeAgreesIff` | clients/c#/XmlRcs/XmlRcs/Provider.cs:408-417 | a connected Subscribe of any text, line breaks and a line exit included, keeps the agreement if and only if the name is listed already, or is well formed and the server has room |
| `Agreement.UnsubscribeAgreesIff` | clients/c#/XmlRcs/XmlRcs/Provider.cs:424-432 | a connected Unsubscribe of any text, line breaks included, keeps the agreement if and only if the lines that the server reads of it do to the client's list what the client does and none of them is exit, which ends the connection |
| `Agreement.UnsubscribeOneLineIff` | clients/c#/XmlRcs/XmlRcs/Provider.cs:424-432 | for a text of one line that is when the name is listed, or what the server reads in it is not |
| `Agreement.ReconnectAgreesIff` | clients/c#/XmlRcs/XmlRcs/Provider.cs:362-369 | a reconnect restores the agreement if and only if AutoResubscribe is on or nothing is listed |
| `Agreement.LostAfterReconnect` | clients/c#/XmlRcs/README.md:24-25 | with reconnecting on and resubscribing off, after subscribe, loss and reconnect the one subscription is listed but not in force |
| `Agreement.ConnectSays` | clients/c#/XmlRcs/XmlRcs/Provider.cs:349-378 | the bytes of a new connection: pong and, if wanted, S for every listed name in order; the clock of the last ping is set even when the socket cannot be opened |
| `Agreement.EnsureTable` | clients/c#/XmlRcs/XmlRcs/Provider.cs:126-141 | a call goes on at once on a connection heard within 20 seconds, and otherwise connects if it may |
| `Agreement.CallsSay` | clients/c#/XmlRcs/XmlRcs/Provider.cs:408-432 | a call that answers True has added its own line once, after whatever the connect said |
| `Agreement.EncodeTable` | clients/c#/XmlRcs/XmlRcs/Provider.cs:358 | the channel is ASCII: each other character becomes a question mark |
| `Agreement.EventsSay` | clients/c#/XmlRcs/XmlRcs/Provider.cs:238-242 | the client says pong to a ping and to nothing else, and ping by itself; what it hears sets its clock |
| `Agreement.ReadsAll` | src/xmlrcsd/client.cpp:136-167 | reading every byte under way takes the server where the link was heading and leaves nothing, or ends the connection if a line exit is among them |
| `Agreement.OnlyTrueLists` | clients/c#/XmlRcs/XmlRcs/Provider.cs:408-432 | a call that answers False or throws leaves the list alone, and one that answers True changes it by its own name only |
| `Resubscribing.ReconnectEndsIff` | clients/c#/XmlRcs/XmlRcs/Provider.cs:362-369 | with resubscribing on, a reconnect gets an answer to its own S lines that ends it if and only if a listed name may not stand in an XML element |
| `Resubscribing.SubscribeEndsIff` | clients/c#/XmlRcs/XmlRcs/Provider.cs:408-417 | the answer to a first Subscribe of a name ends the connection if and only if the name may not stand in an XML element |
| `Resubscribing.AmpersandEnds` | src/xmlrcsd/client.cpp:131-134 | `a&b` is such a name, well formed for client and server |
| `Provider.Provider.IsConnected` | clients/c#/XmlRcs/XmlRcs/Provider.cs:126-141 | answers whether the link is up and kills it when the server was silent for more than the timeout |
| `Provider.Provider.SendText` | clients/c#/XmlRcs/XmlRcs/Provider.cs:215-221 | appends the ASCII line to the channel, or nothing when the link is or has just gone down |
| `Provider.Provider.Connect` | clients/c#/XmlRcs/XmlRcs/Provider.cs:349-378 | does to the fields what the specification says, including the exception that leaves lastPing set, the dummy pong and the resubscribing loop |
| `Provider.Provider.Subscribe` | clients/c#/XmlRcs/XmlRcs/Provider.cs:408-417 | does to list, channel and clock field what the specification says, connecting first when allowed |
| `Provider.Provider.Unsubscribe` | clients/c#/XmlRcs/XmlRcs/Provider.cs:424-432 | the same for removing a name |
| `Provider.Provider.Disconnect` | clients/c#/XmlRcs/XmlRcs/Provider.cs:450-461 | the link is down afterwards and the list is kept |
| `RedisQueue.TextsConserved` | src/es2r/es2r.py:252-266 | over every run, popped and remaining texts together are the multiset pushed |
| `RedisQueue.RunConserves` | src/xmlrcsd/main.cpp:144-150 | every item pushed is either in the list or popped, never both and never twice, and the list is in pushed order |
| `RedisQueue.NeverLastFirstMiddle` | src/xmlrcsd/main.cpp:144-150 | no three items pushed as i, j, k are popped as k, i, j |
| `RedisQueue.PossibleIff` | src/xmlrcsd/main.cpp:144-150 | an order comes out of some run if and only if it has no repeat and, whenever an earlier item follows a later one, everything between the two has come out before |
| `RedisQueue.SkippingIsImpossible` | src/xmlrcsd/main.cpp:144-150 | the order 2, 0 has no such three items and still comes out of no run |
| `RedisQueue.FifoIffAlone` | src/xmlrcsd/main.cpp:144-150 | the popped sequence is a prefix of the pushed one exactly when every pop that found an item found only one |
| `RedisQueue.RedisList.RPop` | src/xmlrcsd/main.cpp:144-150 | gives the last item of the list, which is the text pushed at the place that the queue of the theorems above pops |
| `RedisQueue.RedisList.RPush` | src/es2r/es2r.py:255-257 | a command that succeeds, or fails after the server has run it, puts the text at the end once, and any other nothing |
| `RedisQueue.RedisList.InsertToRedis` | src/es2r/es2r.py:252-269 | a first success leaves exactly one frame; True means one copy or two; and how many one call with its retry leaves for every combination of failures before and after the server ran the command |
| `RedisQueue.InsertedTable` | src/es2r/es2r.py:252-269 | that table in numbers |
| `Health.WindowsExact` | src/es2r/es2r.py:212-250 | over every history since the last successful connect: recent_errors is the errors of the minute before the last one, recent_events the successes later than the last prune cutoff, the counter the errors since the last success |
| `Health.VerdictExact` | src/es2r/es2r.py:223-240 | record_error answers True exactly when the consecutive limit is reached, or ten successes were stored, some fall in the last minute, and errors exceed the limit among the last minute's records |
| `Health.RaisesExact` | src/es2r/es2r.py:361-381 | process_event raises, in terms of the history, on a message that fails before its success is recorded if the error is too much, on a format failure if both its errors are, and on no other |
| `Health.HalfMeansMore` | src/es2r/es2r.py:235-238 | at the default limit of one half the rate test says that errors outnumber successes |
| `Health.LiveTracks` | src/es2r/es2r.py:383-403 | in every run of a worker its health is what the records made since it last connected make of a fresh one |
| `Health.LiveWindows` | src/es2r/es2r.py:212-250 | so in every run of a worker on a clock that does not go back its windows are the exact views of that history |
| `Health.RecordsPerMessage` | src/es2r/es2r.py:340-381 | after any history the records made by a message lead from the health before to the health after; they are one success, one error or two, or none for an ignored message, and two exactly when a format failure's own exception is caught again |
| `Health.LimitRaises` | src/es2r/es2r.py:364-381 | reaching the consecutive limit makes process_event raise, on every failing path |
| `Health.RateRaiseEscapes` | src/es2r/es2r.py:361-381 | a raise that the rate triggers on the format path escapes exactly when the second record is True, spelled out in terms of the windows |
| `Health.RateRaiseLostIff` | src/es2r/es2r.py:364-380 | when both records fall in one instant the raise is lost exactly when the limit is more than one error away and fewer than ten successes fall in the last minute |
| `Health.RateRaiseLost` | src/es2r/es2r.py:364-380 | a concrete history with the default limits in which it is lost |
| `Health.CounterBounded` | src/es2r/es2r.py:446-455 | in every reachable state consecutive_errors is at most one above the limit, and below the limit while the event loop runs |
| `Health.CounterReachesBound` | src/es2r/es2r.py:364-380 | the bound is met by a run, for every limit: one error less than the limit and a format failure take the counter to one above it |
| `Converter.Converter.RecordError` | src/es2r/es2r.py:212-240 | updates the three fields and answers as the specification says; one error joins the history, of which the fields stay the exact views |
| `Converter.Converter.RecordSuccess` | src/es2r/es2r.py:242-250 | updates the fields as the specification says; one success joins the history |
| `Converter.Converter.ProcessEvent` | src/es2r/es2r.py:340-381 | a change that has an element and a text for a server name leaves its frame on the list once if the first push succeeds, and any other message leaves nothing; makes the records that the specification says, a success even if the push failed, and raises as it says; the handler of the try block also catches the format path's own exception |
| `Converter.Converter.ConnectToEventStream` | src/es2r/es2r.py:383-429 | a success clears counter and windows; a handled failure waits the backed-off delay; any other escapes without a wait |
| `Backoff.WaitsGrow` | src/es2r/es2r.py:409-428 | over consecutive handled failures, also across workers, delays never shrink and never exceed max_reconnect_delay |
| `Backoff.WaitsExact` | src/es2r/es2r.py:383-429 | over every run of attempts a success or an escaping exception waits nothing and any other attempt the delay of its place after the last success, where escaped attempts count too |
| `Backoff.DelayTable` | src/es2r/es2r.py:409-412 | delays double up to the sixth failure and stay there, and none exceeds the maximum |
| `Backoff.TotalWait` | src/es2r/es2r.py:409-428 | with the defaults n failures after a success wait 10 * (2^n - 1) seconds in all for n up to 5 and 310 + 300 * (n - 5) from there |
| `Backoff.FreshAfterSuccess` | src/es2r/es2r.py:401-403 | a success starts the count afresh |
| `Supervisor.OnlyOneAlive` | src/es2r/es2r.py:471-512 | in every run of supervisor, watchdog and workers at most one stream worker is alive |
| `Supervisor.ClearedOnlyWhenDead` | src/es2r/es2r.py:501-505 | a request is withdrawn only by the supervisor, only when no worker is left alive, and on its way to starting the next one |
| `Supervisor.StartLeavesOne` | src/es2r/es2r.py:163-166 | in every run the step that starts a worker leaves exactly one alive, a new one about to connect |
| `Supervisor.EveryRequestReplaced` | src/es2r/es2r.py:501-505 | in every run there are as many workers as the first and those started, and every request withdrawn has its worker as soon as the supervisor has passed the start |
| `Supervisor.DeadIsReplaced` | src/es2r/es2r.py:491-510 | a decision that finds no worker alive, asked or not, has a new one before its iteration ends |
| `Supervisor.AskingCloses` | src/es2r/es2r.py:140-152 | whoever asks takes the event source for closing as its next step |
| `Supervisor.OnlyAskersTake` | src/es2r/es2r.py:125-138 | in every run a source is taken only by its worker at the end of an iteration, or by a supervisor or watchdog that has made a request with its last step |
| `Supervisor.HistoryExact` | src/es2r/es2r.py:140-152 | in every run reconnect_requested_at is when the last request was made, whoever looks again, and the events counted are those processed since |
| `Supervisor.WorkerLeaves` | src/es2r/es2r.py:433-469 | in every run a worker stays in its event loop only while all goes well and no request is seen, and dies only at its test of a pending request |
| `Supervisor.EventsFlow` | src/es2r/es2r.py:445-455 | for every number of events a run in which the one worker processes them all |
| `Supervisor.OneEventWhilePending` | src/es2r/es2r.py:445-455 | at most one more event is processed while a request is pending |
| `Supervisor.Deadline` | src/es2r/es2r.py:478-512 | if an iteration of the supervisor takes at most the pace, a request is never pending longer than worker_shutdown_timeout plus twice the pace, or plus the longest gap between two decisions if that is shorter: by then it has been withdrawn for a new worker or the process has exited |
| `Supervisor.Overdue` | src/es2r/es2r.py:478-512 | for every configuration a run that meets that bound with the request still pending |
| `Supervisor.OneIterationIff` | src/es2r/es2r.py:491-503 | timeout plus one pace bounds every run if and only if decisions are no further apart than one pace |
| `Supervisor.SourcesTakenOnce` | src/es2r/es2r.py:125-138 | no event source is taken for closing twice, none is installed over another, and at the end of its worker's iteration every source opened has been taken |
| `Supervisor.FailingNeverTests` | src/es2r/es2r.py:431-437 | under every schedule of all threads a worker whose connects all fail in the handled way never tests a pending request |
| `Supervisor.NearsTestIff` | src/es2r/es2r.py:433-469 | under every schedule, while a request is pending each step of a live worker brings it closer to the test or, at the test, ends it, except exactly after a handled connect failure and when its source was taken before it fetched it; no other thread sets it back |
| `Supervisor.WorkerDies` | src/es2r/es2r.py:433-469 | under every schedule, a worker that goes neither way round the test while a request is pending is dead after one more of its own steps than the measure said at the start, nine at most, unless the process has exited |
| `XmlText.RawReadsBackIff` | src/es2r/es2r.py:307-313 | text between double quotes without escaping is read back, line ends and white space normalized, if and only if it is legal and has no double quote, ampersand or less-than sign |
| `XmlDocument.WrappedIff` | clients/c#/XmlRcs/XmlRcs/Provider.cs:231-237 | a text between the tags of a root element makes a well-formed document if and only if the text alone is content: whatever it holds, it can not run into the end tag, nor close the root early |
| `XmlDocument.TextIff` | clients/c#/XmlRcs/XmlRcs/Provider.cs:231-237 | a text without a less-than sign is content if and only if its characters are legal, each ampersand begins a reference, and there is no `]]>` |
| `QuoteAttr.SequentialIsOnePass` | src/es2r/es2r.py:310-311 | the replacements of quoteattr in sequence are one pass over the characters; nothing is escaped twice |
| `QuoteAttr.QuotedReadsBackIff` | src/es2r/es2r.py:310-311 | an XML reader gets quoteattr's text back exactly, white space and quotes included, if every character is legal, and otherwise nothing |
| `EditElement.EditReadsBackIff` | src/es2r/es2r.py:306-333 | an element with attributes in order is a well-formed document with exactly the attributes meant if and only if every value is clean |
| `EditElement.NamesUnique` | src/es2r/es2r.py:306-332 | attributes in the fixed order have pairwise distinct names |
| `EditElement.EditOneLineIff` | src/es2r/es2r.py:306-333 | the element is one line if and only if no unescaped value has a line break |
| `Scalars.IntReadsBack` | clients/c#/XmlRcs/XmlRcs/Provider.cs:223-229 | a whole number written by Python and read by TryParseIS is itself if 32 bits hold it and 0 otherwise |
| `Scalars.PaddedNumber` | clients/c#/XmlRcs/XmlRcs/Provider.cs:223-229 | blanks on either side of a number given as text make no difference |
| `Scalars.BoolReadsBackIff` | clients/c#/XmlRcs/XmlRcs/Provider.cs:285-293 | True and False survive bool.Parse; null and numbers raise |
| `UnixTime.TimeReadsBackIff` | clients/c#/XmlRcs/XmlRcs/Configuration.cs:29-35 | a timestamp that is no text survives exactly if it is a number of seconds from 0001-01-01 to 9999-12-31; null and truth values raise |
| `ChangeFormat.FormatXml` | src/es2r/es2r.py:271-338 | builds the planned element step by step, or ends as the first missing key or wrong type decides; what the plan holds is the table of `FieldTable.FieldsReadBack` |
| `ChangeFormat.PublishedIff` | src/es2r/es2r.py:271-338 | an element comes out if and only if the required keys are there and texts are texts |
| `ChangeFormat.FirstLookDecides` | src/es2r/es2r.py:271-338 | the first look at a missing key makes it give None, the first value of a wrong type makes it raise, whichever comes first in its order; with neither there is an element |
| `EditReader.ReadAttributes` | clients/c#/XmlRcs/XmlRcs/Provider.cs:251-320 | the loop over attributes fills the record as folding the switch does, and stops with the exception of the first bad flag or timestamp |
| `EditReader.KindTable` | clients/c#/XmlRcs/XmlRcs/Provider.cs:290-305 | the three words of the type in any case, and nothing else, set it |
| `EditReader.DeafAfter` | clients/c#/XmlRcs/XmlRcs/Provider.cs:380-401 | after a line that raises nothing more is heard, whatever follows |
| `EditRoundTrip.AttributesReadBackIff` | src/es2r/es2r.py:271-338 | a published change is read back with exactly its attributes, each name once, if and only if nothing unescaped has a double quote, ampersand or less-than sign and no text has an illegal character |
| `FieldTable.FieldsReadBack` | src/es2r/es2r.py:288-334 | the element of a published clean change says under each of the nineteen names exactly what the table over the change's keys gives, or has no such attribute, and has no other name |
| `EditRoundTrip.RoundTrip` | clients/c#/XmlRcs/XmlRcs/Provider.cs:251-320 | from a clean change the client gets the summary, title, user, type, flags and time unchanged and each number if it fits in 32 bits, else 0; it raises exactly when a flag is no truth value or the timestamp no number of seconds that a DateTime can hold |
| `EditRoundTrip.NoTimeRejected` | src/es2r/es2r.py:332-333 | a concrete change that is published and clean, with flags in order and a null timestamp, on which the client raises |
| `EditRoundTrip.OneLineIff` | src/es2r/es2r.py:271-338 | the text of a published change is one line if and only if none of the values it writes unescaped, named field by field, has a line break |
| `Pipeline.LinesArrive` | src/xmlrcsd/client.cpp:122-129 | a client that reads up to either line end gets exactly the lines the sender wrote, one for each, also for a line that has its own line feed |
| `Pipeline.EndToEnd` | clients/c#/XmlRcs/XmlRcs/Provider.cs:380-401 | over any run of the Redis list and any schedule of the daemon whose pump takes what the list gives back, every client reads exactly the lines written to it, and the edits among them are changes that were pushed, at increasing positions of the order in which Redis gave them back, each conveying its change |
| `Notices.ReplyEndsIff` | src/xmlrcsd/client.cpp:300-381 | a reply ends the connection of the C# client if and only if it repeats a command that may not stand in an XML element; every other reply is read without an exception |
| `Notices.WarningReads` | src/xmlrcsd/main.cpp:153-166 | both warnings about an empty list are read without an exception, as elements warning, with a restart, and fatal |
| `Pipeline.NoticesExplained` | src/xmlrcsd/client.cpp:300-381 | in every run each notice enqueued for a client is read without an exception, or is the reply that repeats an unreadable line its command thread has read |
| `Pipeline.HeardUpToEnd` | clients/c#/XmlRcs/XmlRcs/Provider.cs:380-401 | of any lines the records of the changes behind the edits are heard, in order, up to the first line that raises |
| `Pipeline.HeardEndToEnd` | clients/c#/XmlRcs/XmlRcs/Provider.cs:380-401 | over any run of list and daemon, of all bytes written to a client the application hears the records of the changes behind the edits, in order, up to the first line that raises; that line, if any, is an edit whose flags or timestamp the client rejects or the reply that repeats an unreadable command of the client's own |
| `Pipeline.HeardInFull` | clients/c#/XmlRcs/XmlRcs/Provider.cs:380-401 | if every command of the client may stand in an element and the client takes every change, all is heard |
| `JsEscape.MyReplace` | src/ws2r/ws2r.js:13-20 | the loop ends when pattern or replacement lacks the character, with the number of its occurrences as measure, and has then replaced every occurrence once |
| `JsEscape.HaltsIff` | src/ws2r/ws2r.js:13-20 | it ends if and only if the pattern is missing from the text or from the replacement |
| `JsEscape.AmpersandHangs` | src/ws2r/ws2r.js:24 | quoteattr leaves its first loop if and only if the text has no ampersand |
| `JsEscape.QuoteAttr` | src/ws2r/ws2r.js:22-31 | on text without ampersands the result is the six replacements between double quotes |
| `JsEscape.EscapeIsOnePass` | src/ws2r/ws2r.js:22-31 | on such text the replacements in sequence are one pass over the characters |
| `JsEscape.QuotedReadsBackIff` | src/ws2r/ws2r.js:22-31 | an XML reader gets such text back with each newline (and tab and carriage return) turned into a space if every character is legal, and otherwise nothing |

## Left out

- Sockets, hiredis, SSE, JSON decoding, signals, `fork`, syslog and arguments: calls into foreign code. They appear as answers of the outside world, an abstract list and an append-only log per client.
- Partial `write` results, reuse of descriptors, NUL truncation of Redis replies at `main.cpp:150`, wrap-around of client IDs and of `LastPing + 80`: platform arithmetic and platform detail.
- The statistics text of the `stat` command and the uptime in it: it takes part as an arbitrary string.
- The restart of es2r by the daemon after an empty list (`main.cpp:167-183`): killing a process found by a pid in Redis.
- Registry.Daemon.Sweep: requires that no listed client has been killed already, because the source's sweep run alone would then spin until that client's own thread unregisters it; the interleaved case is part of the step system.
- Session.Client.CommandLoop: runs on a connection that nobody else closes; what another thread does in between is the subject of the step system.
- Agreement.ClientServerAgree: each Provider call is one step, with one clock reading; ASCII encoding turns each character outside ASCII into one question mark, also one that .NET holds as a pair; a connection that the server ends at exit is down for the client at once.
- Provider.Provider.Connect: threads, events and finalizers of the C# client are not modelled; a loss noticed by its reader thread is an event of the run.
- Supervisor.Deadline: `running` stays true, sleeps are covered by the pace, and `mark_progress` is replaced by an arbitrary outcome of the watchdog's comparison.
- Health.WindowsExact: times are reals and the error rate is exact division, so rounding of floating point is not modelled.
- ChangeFormat.FormatXml: values are texts, whole numbers, truth values and null; nested objects and fractions as values, and a message that is no object, are not modelled.
- UnixTime.TimeReadsBackIff: numbers, truth values and letter case follow the invariant culture of .NET; a timestamp is kept as milliseconds and not converted to local time, and a fraction in a timestamp given as text is rounded exactly instead of in floating point.
- XmlDocument.WrappedIff: names are ASCII, what namespaces ask of names with a colon is not modelled, and a document starts with its root element, as every line of the daemon does.
- Pipeline.HeardEndToEnd: the client's own timeout, a loss of the link and a call of Disconnect end the hearing earlier; what is heard then is the same up to there.
- JsEscape.MyReplace: a replacement text with a dollar sign has a special meaning to String.replace; none of the six has one.
- `ws2r.py`, the rest of `ws2r.js`, `check_xmlrcs.py`, `tp.cpp`, `generic.cpp`, `ThreadPool.cs`, packaging: the same shape as what is modelled, or input and output only.
