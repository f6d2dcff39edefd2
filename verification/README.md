# Link server

The repository is a link server: clients ask it over UDP to bring dial-up devices up and down, a
notification peer tells it what became of them, and it broadcasts the devices' status to a C and a
Java client. This project models the server as a state machine and proves what its linked lists,
statuses and shell commands keep on every run, and that both clients read back what the server
prints.

`Manager` is the state machine on values: the two copies of the relation "client wants device", the
device records, and every operation that edits them. A shell command is answered by `Env.world`, a
function of how many commands have run: a reply is either -1 with any errno or an exit status.
Quantifying over worlds quantifies over everything the commands can do. A step of a run is a pass of
the main loop at some time: at most one datagram, then the client sweep, then the device sweep.

Two tiers of results stand beside each other:

- *Any outcomes* (`Safety`, `MainLoop`, `Trace`, `Uptime`, `Filtering`, `Emptying`, `Table`, `Sweeping`,
  `Messages`, `Waiting` but for what takes a device DOWN, `ReplyTruth` of `EndToEnd`): nothing is assumed
  of the commands. `Table` has the cases of a status change in plain records, `Sweeping` where each
  sweep ends, `Messages` and `Requests` what each literal text does.
- *Well-behaved* (`WellBehaved` and what builds on it): `link_force_down` exits 0, `link_down` does
  not return -1, `link_up` may do anything, and `g_retries` is not negative. The bound on the actions of
  device sweeps (`Counters`, `ActionsBound` of `Progress`) assumes nothing of `link_down` either.
  `Limits` shows why, with exact conditions, and with runs on which users and statuses, or the two
  families of lists, no longer agree; on one of them a client reads CONNECTED for a device that counts
  nobody, on another a device stays UP without users and refuses every UP.

`LinkedLists` has the pointer splicing of the two pairs of list functions, on one list and on one of
many lists in a heap. `Server` has the classes whose fields the C code assigns; `g_devices`,
`g_clients`, every device's clients and every client's devices are such lists, and no two of them share
a node. Each of its methods walks and splices them and is proved to do what the state machine does, so
that the theorems on runs are theorems about `Server.Operate`, which reads the configuration and then
runs the main loop. `Wire` is the text that the server sends; `CClient` and `JavaClient` are the two
parsers; `EndToEnd` ties what they read to the server's lists on whole runs.

Where the code and `doc/README.states` differ, the model follows the code. The document calls UP to
DOWN impossible, but FORCE_DOWN and ISDOWN do it (`server/list_fns.c:671-681`). It lists
DOWN to DISCONNECTING and DISCONNECTING to UP as possible; the code rejects both
(`server/list_fns.c:635-639` and `server/list_fns.c:649-658`).

## Model

| member | source | states |
|---|---|---|
| `MainLoop.Run` | server/server.c:117-170 | Over every run, with any messages and any command outcomes: a client in a device's list has that device in its own list, every listed client is in `g_clients` and every listed device in `g_devices`, no list holds an entry twice, and `g_devices` never changes |
| `MainLoop.Receive` | server/server.c:202-242 | Any datagram keeps those invariants, also when the request fails half way |
| `MainLoop.Tick` | server/server.c:159-169 | Both sweeps keep them, also when either is abandoned half way |
| `Safety.AlterKeeps` | server/list_fns.c:578-706 | `alter_device_status` keeps the lists consistent whatever the commands return, through its fall-through cases and its recursive call |
| `Safety.AlterShrinks` | server/list_fns.c:578-706 | No status change ever adds a client to a list of any device |
| `Safety.ConnectKeeps` | server/list_fns.c:451-477 | A client's UP keeps the lists consistent, whether or not `link_up` works |
| `Safety.DisconnectKeeps` | server/list_fns.c:479-507 | So does a client's DOWN, and afterwards the client is in no list of that device, even if `link_down` returned -1 |
| `Safety.RemoveFromAllKeeps` | server/list_fns.c:399-419 | After a success the client is in the list of none of the devices walked |
| `Safety.AgeClientsKeeps` | server/list_fns.c:317-343 | Freeing an aged client never leaves a reference to it in a device's list |
| `Safety.SweepDevicesKeeps` | server/list_fns.c:117-163 | The device sweep keeps the lists consistent even when a failing `link_up` ends it early |
| `Safety.ServeKeeps` | server/process_client.c:38-121 | Every client request keeps them |
| `Safety.NoticeKeeps` | server/process_peer.c:15-45 | Every peer notice keeps them |
| `MainLoop.Boot` | server/list_fns.c:17-57 | A configured server has exactly the configured names, each once, all DOWN and without users |
| `MainLoop.BootOrder` | server/list_fns.c:17-57 | `g_devices` is in the order of the configuration |
| `Trace.RunLawful` | server/list_fns.c:578-706 | Over every run and for any command outcomes: no step goes DOWN to UP, DOWN to DISCONNECTING, UP to CONNECTING or DISCONNECTING to UP; `link_up` never runs on an UP device, `link_down` only on an UP device; the history of changes accounts for every device's current status |
| `Trace.DownNeedsUp` | server/process_peer.c:17-28 | Between two `link_down`s of a device, the first of which did not return -1, lies a `link_up` that did not return -1 and, behind it, an accepted ISUP |
| `Trace.RunDownNeedsUp` | server/process_peer.c:17-28 | On every run, for any commands: between two successful `link_down`s of a device lies a `link_up` that did not return -1 and, behind it, an accepted ISUP |
| `Trace.BackUp` | server/process_peer.c:17-28 | A device that has left UP is UP again only behind a `link_up` that did not return -1 and then an accepted ISUP |
| `Uptime.UpSince` | server/list_fns.c:659-661 | On every run, whatever the commands do, a device that is UP has been UP without a break since a pass that received the peer's ISUP of it while it was CONNECTING |
| `Uptime.UptimeShown` | server/send_message.c:127-129 | The uptime that a pass broadcasts of an UP device is the time since the pass that received the peer's ISUP of it |
| `Uptime.PassRose` | server/process_peer.c:17-28 | In one pass a device becomes UP only by the peer's ISUP of it while CONNECTING, and the clock of an UP device never restarts |
| `Table.DisconnectingFromUp` | server/list_fns.c:531-551 | An UP device asked to disconnect: when `link_down` returns -1 nothing has changed, else it is DISCONNECTING, with its clock restarted if the exit status was 0 and as it was if not, and no list changes |
| `Table.ConnectingFromDisconnecting` | server/list_fns.c:591-606 | A DISCONNECTING device asked to connect is forced down first; when that returns -1 the change fails with its errno and not even the counter has changed, else the attempt is counted from g_retries |
| `Sweeping.SweepEnds` | server/list_fns.c:117-163 | Whatever the commands do, there is a position up to which every device was handled if its time was up and passed by if not; if the sweep returned -1, the command of the device at that position returned -1 with that errno, and every device behind it has its record, its users and no command in the log; if it returned 0 the position is the end |
| `Sweeping.SweepEndsForceful` | server/list_fns.c:136-144 | When `link_force_down` exits 0, what ends the sweep early is a `link_up` that returned -1 on an overdue CONNECTING device with attempts left, which has lost one attempt and kept its clock and users |
| `Sweeping.RemoveEnds` | server/list_fns.c:399-419 | Taking a client off all devices goes through them in order until a disconnection fails with another errno than ENODEV, whose result it returns; the client is out of the lists up to there, and the devices behind are as they were |
| `Sweeping.AgeEnds` | server/list_fns.c:317-343 | The client sweep frees exactly the clients silent for more than `g_client_timeout`, in order, until the removal of one fails; that one and all behind it stay |
| `Waiting.LastLeaves` | server/list_fns.c:546-549 | The last user's DOWN makes an UP device DISCONNECTING, since now if `link_down` exits 0 and since it was UP if it exits with another status |
| `Waiting.DownWaits` | server/list_fns.c:145-156 | On any run, with any commands: a device whose last user's DOWN at t0 ran a `link_down` that exited 0 is DISCONNECTING since t0 behind every pass up to t0 + g_disconnect_timeout, unless it is asked for or forced down meanwhile |
| `Waiting.RunWaits` | server/list_fns.c:145-156 | The same from any state in which a device without users is DISCONNECTING |
| `Waiting.AgedWaits` | server/server.c:159-169 | The same within the pass that ages out its last user |
| `Waiting.AgedDrains` | server/server.c:159-169 | But when `link_down` exits with another status and the device had been UP for longer than g_disconnect_timeout, that same pass takes it DOWN |
| `Waiting.TickDrains` | server/server.c:159-169 | The first pass behind the timeout takes the device DOWN, although the client sweep in front of the device sweep may fail, as `link_down` may do anything |
| `Waiting.SenderStays` | server/server.c:117-170 | The sender of a pass's client message survives that pass, however long it had been silent |
| `Trace.AlterStatus` | server/list_fns.c:578-706 | A status change touches one device; when it fails the device keeps its status, and when it succeeds the device is where it was asked to be, or DOWN exactly when its retries or its time to disconnect had run out |
| `Trace.RunClosed` | server/server.c:117-170 | Induction over runs: whatever every status change and every edit of lists, retries and hearing times keeps, holds after every run |
| `WellBehaved.WipeLast` | server/list_fns.c:553-576 | Although `link_force_down` empties whole lists, behind the departure of the last user it unlinks only that user's pair |
| `WellBehaved.ConnectGood` | server/list_fns.c:451-477 | With well-behaved commands a client's UP keeps both families of lists equal and users matched with statuses; it succeeds if and only if the device has users or the `link_up` it runs does not return -1, and then adds exactly that pair, else nothing |
| `WellBehaved.DisconnectEffect` | server/list_fns.c:479-507 | A client's DOWN succeeds, removes exactly its pair, and makes a device it leaves without users DISCONNECTING, its clock restarted exactly if it was UP and `link_down` exited 0; any other device is as it was |
| `WellBehaved.DisconnectGood` | server/list_fns.c:479-507 | And it keeps users matched with statuses |
| `WellBehaved.ToDownGood` | server/list_fns.c:671-681 | Taking a device DOWN with well-behaved commands succeeds and removes the device's column and nothing else |
| `Filtering.AgeingFilters` | server/list_fns.c:317-343 | Whenever the client sweep succeeds, whatever the commands did, `g_clients` and every device's list are the old ones, in order, without exactly the clients silent for more than `g_client_timeout` |
| `Emptying.AgeingExact` | server/list_fns.c:399-419 | Whenever the sweep succeeds, whatever the commands did: a device that lost its last user was not DOWN, and, if it was UP or CONNECTING, is DISCONNECTING if and only if none of its commands failed with ENODEV meanwhile, which remove_client_from_all_devices swallows; if one did, its record is as it was, else its clock restarted exactly if its `link_down` exited 0; a device that did not lose its last user is as it was and no command of it ran |
| `Limits.StrandedRun` | server/list_fns.c:409-415 | UP, ISUP, and a client that falls silent while `link_down` fails with ENODEV: the sweep frees the client and leaves the device UP without any, and every later UP of it is refused with EINVAL |
| `Ageing.AgeingGood` | server/list_fns.c:317-343 | With well-behaved commands the sweep succeeds, the remaining clients' lists are untouched, and exactly the devices that lost their last user became DISCONNECTING, the clock of each restarted exactly if its `link_down` exited 0 |
| `Ageing.AgedGood` | server/list_fns.c:399-419 | Ageing out one client removes its row and changes no other client's membership in either list |
| `Relation.ReceiveGood` | server/server.c:202-242 | On any datagram the relation 'client wants device' changes by exactly what the message says: UP adds the sender's pair if it succeeds, DOWN removes it, FORCE_DOWN and ISDOWN remove the device's column, everything else nothing, so no one else is evicted; an UP succeeds exactly if the device exists and has users or its `link_up` does not return -1, a DOWN exactly if the pair was there |
| `Relation.ServeGood` | server/process_client.c:38-121 | The same for each client request |
| `Relation.SweepAllGood` | server/list_fns.c:117-163 | With well-behaved commands the device sweep keeps the lists equal and users matched with statuses; each device was passed by, given one attempt or taken DOWN and emptied, or, behind an early end, is as it was; without a CONNECTING device the sweep returns 0 |
| `Relation.SweepPairs` | server/list_fns.c:117-163 | A device sweep drops exactly the pairs of the devices it takes DOWN, and takes one with users DOWN only when its retries are exhausted |
| `Relation.TickGood` | server/server.c:159-169 | Both sweeps together remove exactly the silent clients' rows and the columns of the devices that are DOWN afterwards |
| `Relation.RunGood` | server/list_fns.c:377-507 | On every well-behaved run a client is in a device's list iff the device is in the client's list, and a device is UP or CONNECTING iff its list is not empty |
| `Relation.WantsPair` | server/list_fns.c:451-507 | In such a state either list answers whether a client wants a device |
| `Conservation.UsersConserved` | server/send_message.c:115-126 | On every well-behaved run the sum of the devices' user counts is the sum of the lengths of the clients' device lists |
| `Timing.SilenceDrains` | server/list_fns.c:117-163 | On a well-behaved run with no message after T and passes at most G apart, by T + client_timeout + disconnect_timeout + 2G there is no client and every device is DOWN |
| `Timing.EmptyTick` | server/list_fns.c:145-156 | Without clients a tick only takes the overdue DISCONNECTING devices DOWN |
| `Timing.TickStep` | server/server.c:159-169 | A pass without a message removes all clients once all have been silent too long, and moves no clock ahead of its own time |
| `Retry.RetryBound` | server/list_fns.c:136-144 | Over passes of the main loop at most G apart in which one user stays and no message concerns the device, other clients and devices doing as they like: if none of the `link_up`s run meanwhile returns -1, a device brought up at t0 has it attempted g_retries + 1 times, stays CONNECTING until the (g_retries+1)-th pass in which it is overdue and is DOWN behind it, and that pass lies between t0 + (g_retries+1)(connect_timeout+1) and t0 + (g_retries+1)(connect_timeout+G) |
| `Retry.RetryCount` | server/list_fns.c:598-606 | On every well-behaved run, whatever `link_up` returns: from a first user's accepted UP on, a device that is left alone has `link_up` attempted once for each step of its counter, and exactly g_retries + 1 times in all when it goes DOWN |
| `Retry.RunAttempted` | server/list_fns.c:598-606 | The same from any CONNECTING device with any number of attempts left |
| `Retry.CalmlyWithin` | server/process_client.c:38-121 | Passes within client_timeout of a user's last message, whose messages neither take that user off the device nor force it off nor report on it, leave the device alone |
| `Retry.PassCalm` | server/server.c:117-170 | When no `link_up` returns -1, a pass that leaves the device alone does to it what one sweep does, whatever else happens in it |
| `Retry.AgeClientsUps` | server/list_fns.c:317-343 | Ageing clients never runs `link_up`, whatever the commands do |
| `Retry.DeviceExhausts` | server/list_fns.c:598-606 | When no attempt returns -1: the same for one device from any number of attempts left |
| `Retry.ConnectStarts` | server/list_fns.c:451-466 | The first user's UP runs `link_up` once; if that returns -1 the UP fails and the device keeps its status, else the device is CONNECTING with that user and g_retries - 1 on its counter |
| `Progress.OverdueSpends` | server/list_fns.c:117-163 | As long as force-down exits 0: every action on an overdue device runs one command, and the work left (CONNECTING: attempts left + 2, DISCONNECTING: 1) drops by exactly one, even when `link_up` returns -1; whatever `link_down` returns elsewhere |
| `Progress.ActionsBound` | server/list_fns.c:117-163 | As long as force-down exits 0: left without messages, the device sweeps act at most (g_retries + 1) times per device, however often `link_up` or `link_down` fail, whoever is aged out and wherever that is abandoned |
| `Counters.RunSound` | server/list_fns.c:598-606 | On the same runs, messages included, the counter of a CONNECTING device stays between -1 and g_retries - 1 |
| `Progress.AgeingLess` | server/list_fns.c:317-343 | Ageing, finished or abandoned, leaves the device sweeps no more to do than there was |
| `Progress.SilenceBound` | server/server.c:117-170 | Left without messages, a well-behaved server runs at most (g_retries + 2) commands per device, client ageing included |
| `Limits.ToDownExact` | server/list_fns.c:671-681 | Taking a device DOWN keeps users matched with statuses if and only if it has no users or `link_force_down` returns -1 or exits 0 |
| `Limits.DisconnectExact` | server/list_fns.c:479-507 | A client's DOWN keeps them matched if and only if it does not take the last user, or the command that it runs then does not return -1 |
| `Limits.MirrorForceOffExact` | server/process_client.c:92-95 | A FORCE_DOWN keeps the two families of lists equal if and only if the device has no users or its `link_force_down` returns -1 or exits 0 |
| `Limits.MirrorDisconnectExact` | server/list_fns.c:479-507 | A client's DOWN keeps them equal if and only if it does not take the last user, or the command that it runs then does not return -1 |
| `Limits.MirrorAlter` | server/list_fns.c:578-706 | No status change makes them differ, whatever the commands do |
| `Limits.MirrorConnect` | server/list_fns.c:451-477 | Neither does a client's UP |
| `Limits.RetriesExact` | server/list_fns.c:598-606 | With commands that behave, users match statuses on every run, and the two families of lists are equal on every run, each if and only if g_retries is not negative |
| `Limits.NegativeRetriesRun` | server/list_fns.c:598-606 | With g_retries negative a single UP leaves a DOWN device with a user |
| `Limits.StubbornRun` | server/list_fns.c:568-575 | A `link_force_down` that exits with another status than 0 leaves a DOWN device with a user |
| `Limits.StubbornOffRun` | server/process_client.c:92-95 | The same command in answer to a FORCE_DOWN leaves a DOWN device without users in its client's list |
| `Limits.NegativeMirrorRun` | server/list_fns.c:635-639 | With g_retries negative an UP and a DOWN of one client leave the device in its list only |
| `Requests.ParseNamed` | server/process_client.c:38-121 | The prefix tests, in their order, tell the client's seven requests by their literal texts, and read back the device name behind four of them |
| `Requests.ParseNotice` | server/process_peer.c:15-45 | And the peer's two notices |
| `Requests.ParseOther` | server/server.c:202-242 | Every other text is a bad client request, a bad notice or an unknown prefix, by its first word |
| `Messages.AskedOnly` | server/process_client.c:15-44 | PING, DEVICES, CLIENT_STATUS and STATUS change nothing but the sender's record: a new client is at the end of `g_clients` with an empty list, and any is heard now |
| `Messages.ForcedOff` | server/process_client.c:78-97 | FORCE_DOWN by the literal text: ENODEV for an unknown device; a DISCONNECTING device is DOWN without a command, any other behind a `link_force_down` that does not return -1; then the device has no users, and is out of the clients' lists exactly if the exit status was 0 |
| `Messages.Noticed` | server/process_peer.c:15-45 | At any time, ISUP takes a CONNECTING device UP with its clock at now and leaves any other as it is, and returns 0 in both cases; an unknown device gives ENODEV |
| `Messages.Refused` | server/process_client.c:114-119 | A text that is no request gives ENOTSUP; with the clients' prefix its sender is still heard |
| `Messages.StatusReply` | server/process_client.c:98-107 | The reply to STATUS, character by character: the device's name, tab, its status, and for UP the seconds since it came UP and its number of users; none for an unknown device |
| `LinkedLists.LinkedList.Append` | server/list_fns.c:27-56 | The walk of add_* links the new entry behind the last one in place; chain acyclic and its nodes its own before and after |
| `LinkedLists.LinkedList.Add` | server/list_fns.c:17-57 | add_*: refused if and only if an entry of the same key is in the list, else appended at the end |
| `LinkedLists.LinkedList.Remove` | server/list_fns.c:59-97 | rm_*: the first entry equal to the argument is unlinked in place, everything else stays in order; fails if and only if there is none |
| `LinkedLists.LinkedList.Find` | server/list_fns.c:99-115 | get_*: the first entry with the key, or none if and only if no entry has it |
| `LinkedLists.LinkedList.Clear` | server/list_fns.c:421-434 | The chain is detached and then unlinked node by node from a local cell; the list is empty and each of its nodes is freed exactly once |
| `LinkedLists.Spliced` | server/list_fns.c:84-88 | A chain in which one node skips the next is the chain without that entry |
| `LinkedLists.AddIn` | server/list_fns.c:17-57 | Among many lists in one heap that share no node, add_* on one keeps them apart and leaves what every other list holds and its nodes as they were |
| `LinkedLists.RemoveIn` | server/list_fns.c:59-97 | The same for rm_*: one node of one list goes, every other list stays |
| `LinkedLists.ClearIn` | server/list_fns.c:421-434 | The same for emptying one list |
| `Server.LinkServer.Disjoint` | server/server.h:29-53 | All linked lists of the server are acyclic, and no two of them share a cell or a node: not those of two devices, of two clients, of a device and a client, nor the two global ones |
| `Server.LinkServer.RemoveAllUsers` | server/list_fns.c:421-434 | Empties the device's list in place and changes no other list |
| `Server.LinkServer.FreeClient` | server/list_fns.c:330-336 | Unlinks exactly the node of the client from `g_clients`; required is that no device still lists the client |
| `Server.LinkServer.AlterDeviceStatus` | server/list_fns.c:578-706 | On the objects: all sixteen cases change the server, run commands and return exactly as the state machine says, and no other field changes |
| `Server.LinkServer.LinkForceDown` | server/list_fns.c:553-576 | Runs the command and empties the device's list and its place in all clients' lists only on exit status 0 |
| `Server.LinkServer.RemoveWants` | server/list_fns.c:377-397 | The walk along the nodes of `g_clients` removes the device from every client's list |
| `Server.LinkServer.ConnectClientToDevice` | server/list_fns.c:451-477 | Agrees with the state machine on new state and return code |
| `Server.LinkServer.DisconnectClientFromDevice` | server/list_fns.c:479-507 | Agrees with the state machine on new state and return code |
| `Server.LinkServer.RemoveClientFromAllDevices` | server/list_fns.c:399-419 | The walk along the nodes of `g_devices` agrees with the state machine, ENODEV ignored |
| `Server.LinkServer.TimeoutOldClients` | server/list_fns.c:317-343 | The walk along the nodes of `g_clients`, which takes the next node, disconnects the silent client everywhere and unlinks its node, agrees with the state machine; no node is added and no other one unlinked from `g_clients` |
| `Server.LinkServer.TimeoutOldDevices` | server/list_fns.c:117-163 | The walk along the nodes of `g_devices` agrees with the state machine, early return included |
| `Server.LinkServer.HearClient` | server/process_client.c:15-36 | A new sender enters `g_clients` with an empty list, a known one keeps its lists; either is heard now, at the port it sent from |
| `Server.LinkServer.ServeRequest` | server/process_client.c:38-121 | Agrees with the state machine on each request, and answers the two status requests with the state behind them |
| `Server.LinkServer.ProcessPeer` | server/process_peer.c:15-45 | Agrees with the state machine on each notice; an ISUP returns 0 whether or not it was accepted |
| `Server.LinkServer.ProcessCommand` | server/server.c:202-242 | Agrees with the state machine on every datagram |
| `Server.LinkServer.Pass` | server/server.c:117-170 | One pass: the message, the broadcast of the state behind it, the client sweep and the device sweep, none skipped by an error before it |
| `Server.LinkServer.Loop` | server/server.c:117-170 | The main loop reaches the state of the modelled run, so every theorem about runs holds of the objects |
| `Server.Operate` | server/server.c:41-178 | From the configuration to the end of the main loop, the objects reach the state of the modelled run from boot |
| `Server.LinkServer.AddDevice` | server/list_fns.c:17-57 | A configured name enters `g_devices` once, DOWN and without users; a second one changes nothing |
| `Server.LinkServer.PrintDeviceStatus` | server/send_message.c:105-138 | Prints the status line of what the device's record and list hold |
| `Server.LinkServer.CountUsers` | server/send_message.c:115-126 | Walking the device's nodes counts its users |
| `Server.LinkServer.BroadcastStatusMessage` | server/poll_clients.c:27-68 | The growing buffer is the broadcast of all devices in the order of `g_devices` |
| `Server.LinkServer.SendClientStatus` | server/send_message.c:140-176 | The growing buffer is the tab-separated list of the client's devices, in order |
| `Text.Tokenizer.Next` | linux_client/listen_status.c:197-203 | strtok and nextToken hand out, one at a time, the maximal stretches without delimiters |
| `Text.StrToUlDec` | linux_client/listen_status.c:231-239 | strtoul with base 0 reads back what %d printed, modulo the size of an unsigned long |
| `Text.ParseIntDec` | java_client/linkServer.java:207-208 | Integer.parseInt reads back what %d printed if it fits an int, and throws if it does not |
| `Text.TrimTail` | java_client/multicastThread.java:100 | trim takes the zero padding of a packet off, and no more |
| `CClient.RemoteServer.ProcessStatusMessage` | linux_client/listen_status.c:187-265 | The strtok loop agrees with the parser on values and says when it would step outside of a string |
| `CClient.RemoteServer.ProcessCommand` | linux_client/listen_status.c:121-185 | Agrees with the parser on values on what the text is and on the table behind it; INIT empties it, STATUS goes to the parser, anything else leaves it |
| `CClient.DispatchExact` | linux_client/listen_status.c:121-185 | By their literal texts, with anything behind: INIT forgets the devices, QUIT drops the server, STATUS is taken apart, every other text is refused |
| `CClient.RemoteServer.Lookup` | linux_client/listen_status.c:210-226 | Finds the first entry of the name; an unknown name is appended and nothing else moves |
| `CClient.ReadBack` | linux_client/listen_status.c:228-262 | What the server printed of a device, with a negative uptime too, is read back as that status, time and user count |
| `CClient.ReadExact` | linux_client/listen_status.c:228-265 | Any other status: an UP is read up to the first space behind its first parameter and leaves the string when there is none, and an unknown status changes nothing |
| `CClient.DispatchStatus` | linux_client/listen_status.c:163-178 | The server's broadcast is taken for a status message and parsed to its end |
| `CClient.RoundTrip` | linux_client/listen_status.c:187-265 | Parsing the rendered broadcast sets each device to what the server showed, appends the unknown ones in order, and leaves what is known of any other |
| `CClient.FreshTable` | linux_client/listen_status.c:121-142 | Whatever the client knew, after an INIT and one broadcast its table is the server's, in the server's order |
| `CClient.Restart` | linux_client/listen_status.c:121-185 | The same of the client object, given the two messages |
| `JavaClient.TrackedServer.UpdateDeviceStatus` | java_client/linkServer.java:180-232 | The token loop agrees with the parser on values, and on what it leaves behind when it throws |
| `JavaClient.TrackedServer.ParseMessage` | java_client/multicastThread.java:97-141 | The two leading words decide what a packet does; only STATUS changes the devices |
| `JavaClient.TrackedServer.GetDevice` | java_client/linkDeviceList.java:41-49 | The first device whose name, with every character folded, is the folded name asked for |
| `JavaClient.ReceiveOther` | java_client/multicastThread.java:97-141 | The packet INIT starts over, QUIT drops the server, and one whose first two words are none of the three messages throws and changes nothing |
| `JavaClient.ReceiveExact` | java_client/linkServer.java:193-201 | A broadcast gets through if and only if the client knows all of its devices |
| `JavaClient.RoundTrip` | java_client/linkServer.java:180-232 | When the folded names of a broadcast differ and are all known: its packet, padded or not, sets for each line the first entry with the line's folded name to what the server showed, and leaves every other entry, and all names, as they were |
| `JavaClient.ReceiveStops` | java_client/linkServer.java:193-201 | At the first device that the client does not know it throws, with just the devices in front of it set |
| `JavaClient.PacketTokens` | java_client/multicastThread.java:97-109 | Trimmed and taken apart, the packet is the two words and then the tokens of the status lines |
| `JavaClient.ParsersAgree` | linux_client/listen_status.c:197-263 | For the same broadcast the C parser's entry of each name and the Java parser's first entry of that folded name hold the same status, time and user count |
| `JavaClient.OwnDevice.RefreshClientStatus` | java_client/linkDevice.java:112-149 | CONNECTED iff the device is among the tokens of the reply; UNKNOWN for a foreign reply or none; unchanged when it throws |
| `JavaClient.ReplyTokens` | server/send_message.c:149-176 | The reply to CLIENT_STATUS is taken apart into the two words and the client's devices, in order, also when there are none |
| `JavaClient.RefreshedExact` | java_client/linkDevice.java:112-149 | On the server's reply the client reads CONNECTED iff the device is in its list, else DISCONNECTED |
| `EndToEnd.ReplyTruth` | java_client/linkDevice.java:112-149 | At the end of any run, whatever the commands do, the reply to the datagram `CLIENT CLIENT_STATUS` makes the client CONNECTED exactly for the devices in its list, and so for every device that counts it as a user |
| `EndToEnd.ReplyCounts` | java_client/linkDevice.java:112-149 | On well-behaved runs the reply to that datagram makes it CONNECTED iff the device counts the client as a user |
| `EndToEnd.ReplyFooled` | server/process_client.c:92-95 | After such a FORCE_DOWN the Java client goes on to read CONNECTED for a DOWN device that counts no user |
| `EndToEnd.BroadcastTruth` | server/poll_clients.c:27-68 | On every well-behaved run both clients, the Java client knowing the folded names and these being different, read off the broadcast of any pass each device's status, uptime and user count; a device read as UP has a user, one read as DOWN or DISCONNECTING is wanted by no client |

## Left out

- Memory: malloc always succeeds, and nothing is said of free except that no list refers to a freed
  client. Buffers are long enough, and a datagram is a text of less than 400 characters without NUL.
- The clock is read once per pass, and `sleep (2)` takes no time.
- `system ()` is an outcome: -1, which a wait status of 127 also counts as, or an exit status.
- Server.LinkServer.ServeRequest: does not model the reply to DEVICES, which joins names and
  descriptions, nor a `sendto` that fails; the request has been served by then, and the reply is a result.
- Server.LinkServer.ProcessCommand: does not model a `recvfrom` that fails; it is given the datagram.
- CClient.RemoteServer.ProcessCommand: does not model the list of servers; it is given the server that
  sent the broadcast, and a QUIT is only recognised.
- JavaClient.TrackedServer.ParseMessage: does not model what an INIT requests from the server, nor the
  list of servers that a QUIT shortens; both are only recognised.
- Retry counters and user counts are unbounded integers; the wire results require that the counts fit
  an int. An unsigned long has 64 bits.
- Broadcasts longer than a packet, which the network layer would cut.
- Configuration parsing: the initial condition is any list of names, put into `g_devices` one by one.
- `rm_server` and the ageing of servers in the C client: removing the head drops the whole list. A
  QUIT is only recognised.
- `requestDeviceList` and `reInit` in the Java client: an INIT is only recognised. Its device list is
  whatever the client knows.
- The case folding of `equalsIgnoreCase` is a parameter, any table of characters.
- Sockets, select, signals, threads, mutexes and the Java client's user interface, retry and ageing
  threads.
- `remove_all_devices_from_client`, which is never called, and the dump functions.
- CClient.RoundTrip: needs names that are not empty, hold no tab or newline, and are distinct; of an
  UP line without both parameters the model only says that the parser leaves the string.
- EndToEnd.ReplyCounts: needs names without blanks and control characters, since the Java client
  splits at blanks and trims the packet.
