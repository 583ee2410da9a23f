# tvd: verified model

tvd is a small daemon between a TV driver and one client. It keeps a table of tuner devices that the
driver plugs in and out, opens at most one stream per device, answers commands that arrive as PDUs on a
socket, passes file descriptors along, and sends notifications. This project models that logic in Dafny and
proves what holds over every run of it.

`dafny verify dfyconfig.toml` checks everything.

## How it is built

| module | what it models |
|---|---|
| `Base`, `Protocol` | machine integers, C strings, little-endian numbers; the protocol's numbers |
| `Wire`, `PduBuffer` | libpdu's contract: format letters, `append_to_pdu`, `read_pdu_at`, the write buffer with its tail |
| `Records`, `ProgramLists`, `Octets` | tuner, channel and program: documented layout, written layout, reader, sizes; what a client reads from a list of them |
| `DtvPdu`, `DtvMessages` | `src/dtv_pdu.c` and the message building of `src/dtv_io.c`, in place on a buffer |
| `Ancillary`, `SetSourceReply` | `src/memptr.c`, the descriptor tail, the control message, the native handle |
| `TunerIds`, `Dtv` | `src/dtv.c`: printing, parsing and listing tuner ids |
| `DeviceTable`, `TvHal` | `src/tv_hal.c`: a state machine over values, and the class over the array that follows it |
| `SendQueue`, `IoStates` | `src/io.c`: the send queue and event mask, as a state machine and as a class |
| `Services` | registry, DTV service, dispatch and I/O events as one state machine |
| `Runs` | the invariant of that machine, step by step and over all its runs |
| `Streams`, `Wakeups`, `Guarantees`, `Faults` | the theorems over all runs: the driver's streams; the send queue; DTV's coming and going and tuner ids; accesses to memory that is not there |
| `CommandAnswers` | what each command does and is answered, and what each notification carries, by number and octet |
| `Scenarios` | runs from start-up that show where the code and its intent part |
| `Daemons` | the daemon's globals as a class; `OnEvent` does what the state machine does |

Everything the daemon does not decide is an input of each step: whether memory is there, what the driver
and the vendor library answer, how many buffers the transport takes before it would block, whether the event
loop accepts a registration, and the order of driver callbacks, tasks and socket events.

libpdu, libfdio and `hardware/tv_input.h` are not part of this model. What is used of them: numbers are
written least significant octet first; `append_to_pdu` fails exactly when the payload would exceed the 16-bit
length field and otherwise writes behind the payload whether or not the buffer has room, so that staying inside
the allocation is proved for every caller; a failed registration leaves the event loop as it was; the
enumerators of `hardware/tv_input.h` are names without numbers. The event mask is the set of its flags.

## Where the code and its intent part

* `get_int_length` compares with `> 10`, so ids that start with 10 lose their last digit
  (`TunerIds.IdReturnsIff` is the exact condition, `TunerIds.IntendedIdReturns` the law with `>= 10`).
* `append_program` leaves out the title, and both subtitle loops run to `lang_num` instead of `stl_lang_num`
  (`Records.AppendedLayout`, `Records.ProgramSizes`). A program can be read back exactly when its language counts
  agree (`Records.AppendedProgramReadsBack`), and every program of a list from its own octets exactly when all of them
  do (`ProgramLists.InStepIff`). A list as a whole can also be read back when programs whose counts differ make up for
  each other: `DtvMessages.ListReplyReadsBack` and `DtvMessages.EitReadsBack` have the exact condition, which is
  agreement unless the counts differ both ways in one list, and `ProgramLists.WrongCountsCancel` has such a list.
* A program with fewer subtitle entries than audio languages is read behind its last entry, whatever `stl_lang_num`
  says (`Scenarios.LanguagesReadBehind`, `Scenarios.LanguagesBroadcast`).
* `append_channel` names eight conversions and passes seven arguments. The model passes the missing name.
* The loop over a native handle's integers stops at `numInts` although they start at `numFds`
  (`SetSourceReply.IntsArriveIff` is the exact condition, `SetSourceReply.IntendedHandleArrives` the law of
  `numFds + numInts`).
* After a failed open the previous, already closed stream stays recorded, and is granted again without being
  opened (`DeviceTable.GetStreamKeepsExactIff` and `Streams.StepKeepsExactIff` are the exact conditions for a step,
  `Streams.GrantedStreamIsOpenIff` for a grant in any run, `Scenarios.GrantedButClosed` a run from start-up).
* A stream for a device that is not listed is opened and recorded behind the live slots, and outlives
  unregistration (`DeviceTable.GetStreamKeepsLedgerIff`, `Streams.StepKeepsStreamsIff`, `Scenarios.LostStream`).
  When the table is full, the record lies behind the array (`Scenarios.HundredAndFirst`).
* The driver keeps our callback for ever, so its events still come after a failed registration has set
  `device` to NULL (`Scenarios.WithdrawnWithoutDevice`).
* The descriptors of a handle go into the tail of a reply before its allocation is checked
  (`Scenarios.DescriptorsWithoutReply`). `Faults.StepFaultsIff` and `Faults.RunFaultsIff` say exactly when one of
  these accesses is made: the missing entries, the record behind the array, the NULL device, the missing tail. The
  model ends a run there.
* When the requested stream is acting already, `tv_input_hal_get_stream` succeeds without filling in the handle that
  `set_source` then reads (`Streams.StaleMattersIff` is the exact condition, `Scenarios.StaleHandleIsSent` a run). The
  model takes any handle for what is in memory then.
* The `struct cmsghdr` behind the descriptors is misaligned for every even number of them on a 64-bit machine
  (`Ancillary.ControlAlignedIff`).
* Unregistering DTV succeeds when it is not registered (`Runs.UnregisterSucceedsIff`).
* `send_pdu` ignores a failed registration. The queue then stands still until something else is sent, and moves
  on only if that send drains it or registers (`SendQueue.SendArmsIff`, `SendQueue.SendEndsStallIff`,
  `Wakeups.StalledUntilSend`, `Scenarios.VersionStalls`).
* The document gives DTV the service id 0x64. The code's 0x01 is used.

## Model

| member | source | states |
|---|---|---|
| Streams.NoStreamIsLost | src/tv_hal.c:47-268 | over every run whose SET_SOURCE commands open streams for listed devices only, every stream open in the driver is recorded by the first slot of its device, and none is open while DTV is absent, so re-registering drops nothing |
| Streams.StepKeepsStreamsIff | src/tv_hal.c:243-265 | any step from such a state keeps it so exactly when it is not a SET_SOURCE that opens a stream for an unlisted device or with the id -1 |
| DeviceTable.LedgerMeans | src/tv_hal.c:23-33 | an open stream is recorded by exactly one slot, and a device has at most one open stream, duplicate device ids included |
| DeviceTable.GetStreamKeepsLedgerIff | src/tv_hal.c:200-268 | with any outcome of the driver's three calls, get_stream keeps the ledger exactly when it opens nothing unrecorded; kinds and length of the table stay |
| DeviceTable.GetStreamKeepsExactIff | src/tv_hal.c:200-268 | if the open streams are exactly the recorded ones, they still are after get_stream exactly when it neither opens a stream unrecorded nor closes the previous one for one that fails to open |
| DeviceTable.NotifyKeepsExact | src/tv_hal.c:47-116 | every hot-plug event keeps the open streams equal to the recorded ones |
| DeviceTable.GrantedIsOpen | src/tv_hal.c:245-267 | from such a state a successful call leaves its stream open, whether it was acting already or is new |
| DeviceTable.StrandedIsGranted | src/tv_hal.c:247-265 | after every close followed by a failed open, the next call for the recorded stream succeeds, and that stream is closed |
| Streams.StepKeepsExactIff | src/tv_hal.c:247-265 | any step of the daemon keeps record and driver equal while DTV is installed, exactly under those two conditions on a SET_SOURCE |
| Streams.StreamsStayExact | src/tv_hal.c:200-268 | over every run without such a SET_SOURCE, the open streams are exactly the recorded ones while DTV is installed |
| Streams.HistoryKnowsStrands | src/tv_hal.c:47-268 | over every run without an unrecorded open: a device's slot records a closed stream exactly when its last close was followed by a failed open, and since then nothing has opened for it, it has not been withdrawn or reconfigured, and DTV has stayed |
| Streams.GrantedStreamIsOpenIff | src/tv_hal.c:200-268 | over every such run, whatever happens to other devices: a SET_SOURCE that is answered with success leaves its stream open exactly unless that stream was on record and the device stranded in this sense |
| Streams.StaleMattersIff | src/dtv_io.c:355-391 | in every reachable state: what a granted SET_SOURCE answers, or whether it faults, depends on a handle that nothing has filled in exactly when the stream was acting already |
| Scenarios.StaleHandleIsSent | src/tv_hal.c:243-258 | for every device whose id returns: register, plug in, get x, get x; the second answer is success and carries whatever handle was in memory |
| Scenarios.GrantedButClosed | src/tv_hal.c:245-265 | for every device whose id returns (non-negative, not starting with 10) and any two streams: register, plug in, get x, fail to get y, get x again; if the handle in memory can be sent at all, the answer is success with that handle, and nothing is open |
| Scenarios.LostStream | src/tv_hal.c:243-265 | for every such device that was never announced: register, get its stream, unregister; both answers are success, no slot records the stream, and it is still open |
| Faults.StepFaultsIff | src/tv_hal.c:93-110 | a step in a reachable state calls the NULL device, writes behind the slots, writes to a missing tail or reads behind the subtitle languages exactly when it is the withdrawal or reconfiguration of a listed tuner without a device, a stream opened for an unlisted device beside 100 listed ones, a granted SET_SOURCE with descriptors and no memory, or a GET_PROGRAMS answer or event table with fewer subtitle entries than audio languages |
| Faults.RunFaultsIff | src/dtv_io.c:376-391 | over every run: such an access is made exactly when such an event is met, so never by another command, nor by unregistering |
| Scenarios.WithdrawnWithoutDevice | src/tv_hal.c:93-96 | register, unregister, fail to register, plug in, pull out: close_stream is called through NULL |
| Scenarios.HundredAndFirst | src/tv_hal.c:243-265 | with a hundred tuners announced, the stream of a device that was not is recorded behind the array |
| Scenarios.DescriptorsWithoutReply | src/dtv_io.c:376-391 | a granted SET_SOURCE whose reply cannot be allocated writes its descriptors nowhere |
| Scenarios.LanguagesReadBehind | src/dtv_io.c:632-642 | any readable GET_PROGRAMS answered with too few subtitle entries reads behind them, before any allocation |
| Scenarios.LanguagesBroadcast | src/dtv_io.c:190-194 | so does an event table, from start-up on |
| DeviceTable.GetStreamIsLocal | src/tv_hal.c:243-265 | streams and slots of other devices are not touched |
| DeviceTable.NotifyKeepsLedger | src/tv_hal.c:47-116 | every hot-plug event keeps the ledger, the capacity and the tuner-only table, and opens nothing |
| DeviceTable.EventReleasesDevice | src/tv_hal.c:76-111 | unplug and configuration change close exactly the device's streams, and leave no slot of that id acting |
| DeviceTable.UninitClosesAll | src/tv_hal.c:153-165 | after tv_input_hal_uninit no stream is open |
| Runs.TableStaysHistory | src/tv_hal.c:35-116 | over every run the live prefix is the accepted announcements in arrival order, less the oldest of each id per removal; at most 100 slots, tuners only |
| DeviceTable.NotifyFollowsHistory | src/tv_hal.c:47-116 | each event extends that history by what it did |
| DeviceTable.RemovalTakesOldest | src/tv_hal.c:35-45 | in the closed form of the history, a removal takes out the oldest surviving announcement of its id and keeps the order of the rest |
| DeviceTable.AllTuners | src/tv_hal.c:167-198 | in a table of tuners the filter by tuner type is the whole table, in order |
| TvHal.DeviceList.RemoveDeviceByIdx | src/tv_hal.c:35-45 | the shift loop over the array removes one slot and keeps all three fields of the others in order |
| TvHal.DeviceList.DeviceInitNotify | src/tv_hal.c:47-116 | the handler on the array makes the step of the state machine |
| TvHal.DeviceList.TvInputHalInit | src/tv_hal.c:118-151 | the table is emptied whatever happens; success means the device is there |
| TvHal.DeviceList.TvInputHalUninit | src/tv_hal.c:153-165 | the loop closes exactly the recorded streams |
| TvHal.DeviceList.GetInputNumByType | src/tv_hal.c:167-180 | counts the slots of a type |
| TvHal.DeviceList.GetInputsByType | src/tv_hal.c:182-198 | writes exactly the counted ids, in table order, and nothing behind them |
| TvHal.DeviceList.GetStream | src/tv_hal.c:200-268 | the call on the array makes the step of the state machine, for all driver answers; when it succeeds, the stream of the first independent video source among the configurations is what the device's slot records, and is opened unless it was on record |
| DeviceTable.RequestedIsFirst | src/tv_hal.c:217-241 | a call asks for a stream exactly when it belongs to the first independent video source that the driver offers |
| DeviceTable.EventIgnoredIff | src/tv_hal.c:54-115 | an event leaves everything as it is exactly when it is of another kind or device type, announces to a full table, or concerns no listed device or, for a configuration change, no recorded stream |
| TvHal.FindConfig | src/tv_hal.c:223-228 | the loop returns the stream of the first independent video source, or none when there is none |
| DeviceTable.ChosenIsFirst | src/tv_hal.c:223-228 | a stream is chosen exactly when it belongs to the first independent video source |
| TunerIds.IdReturnsIff | src/dtv.c:33-108 | for every int32 device id: printed, then parsed, it names the same device exactly when it is non-negative and does not start with 10 |
| TunerIds.PrintThenParse | src/dtv.c:79-105 | for every non-negative id the parsed value is the id, or a tenth of it when it starts with 10, without wrap-around |
| TunerIds.NegativeNeverReturns | src/dtv.c:100-105 | no negative id survives, because '-' is parsed as a digit |
| TunerIds.NegativePrinted | src/dtv.c:79-81 | a negative id is printed as a minus sign and its first nine digits |
| TunerIds.IdValueConcat | src/dtv.c:100-105 | the parser's value of any text is made of those of its parts in base ten, each character counting as its code less 48 |
| TunerIds.IntendedIdReturns | src/dtv.c:36-41 | with the guard read as at-least-10, every non-negative id returns |
| TunerIds.Device10IsMistaken | src/dtv.c:36-41 | device 10 is announced as "1" |
| TunerIds.GetIntLength | src/dtv.c:33-42 | the loop returns the digit count, or one less for numbers that start with 10; between 1 and 10 |
| TunerIds.IntLengthLaw | src/dtv.c:33-42 | the same for all naturals |
| TunerIds.ParseTunerId | src/dtv.c:100-105 | the 32-bit loop computes the unbounded value modulo 2^32 |
| TunerIds.IdLength | src/dtv.c:79-81 | no printed id has more than ten characters |
| Dtv.DtvGetTunerNum | src/dtv.c:56-60 | counts the tuners that dtv_get_tuners lists |
| Dtv.DtvGetTuners | src/dtv.c:62-89 | fills every element of the caller's array with the printed ids in table order |
| Guarantees.TunersListed | src/dtv_io.c:282-333 | in every reachable state the GET_TUNERS payload decodes to one tuner per slot, in order, with its printed id |
| Guarantees.TunersFit | src/dtv_io.c:300-305 | that payload has at most 1504 octets |
| Guarantees.GetTunersAnswers | src/dtv_io.c:282-333 | so GET_TUNERS is always answered with the whole table when memory is there |
| Guarantees.TunerIdNamesDeviceIff | src/dtv_io.c:351-355 | the k-th id a client decodes, sent back in SET_SOURCE, names the k-th slot's device exactly under the condition of IdReturnsIff |
| Guarantees.SetSourceReachesDevice | src/dtv_io.c:338-412 | then the first independent video source of that device is opened, and the reply carries the octets of the handle and its first numFds entries as descriptors |
| Wire.ReadIff | doc/ipc.txt:198-225 | reading by a format inverts appending by it, and accepts nothing else |
| Records.RecordRoundTrip | doc/ipc.txt:200-225 | octets decode to a record, with any rest left over, exactly when they are its documented encoding followed by that rest |
| Octets.TunerIs | doc/ipc.txt:200-225 | a tuner's layout, octet by octet |
| Octets.ChannelIs | doc/ipc.txt:200-225 | a channel's layout, octet by octet |
| Octets.TitledProgramIs | doc/ipc.txt:200-225 | the documented program structure, octet by octet |
| Octets.AppendedProgramIs | src/dtv_pdu.c:146-174 | what append_program writes, octet by octet: no title, and lang_num subtitle languages behind stl_lang_num |
| Records.ListRoundTrip | doc/ipc.txt:128-143 | count and records of a list decode to the list |
| Records.OnlyListsDecode | doc/ipc.txt:128-143 | whatever decodes as a list is the list's encoding, count included, followed by the rest |
| Records.WrittenIsSizedLessTitle | src/dtv_pdu.c:48-174 | a record is written in exactly its calculated size, less title and NUL of a program, for any numbers of languages, whatever stl_lang_num says; the lang_num subtitle entries that both loops read must be there |
| Records.AppendedLayout | src/dtv_pdu.c:146-174 | append_program writes the untitled layout exactly when lang_num and stl_lang_num agree, and the documented one never, for no contents of any field |
| Records.AppendedProgramReadsBack | src/dtv_pdu.c:146-174 | what append_program writes decodes to everything but the title, the stl_lang_num counted subtitle languages included, exactly when lang_num and stl_lang_num agree |
| Records.ProgramSizes | src/dtv_pdu.c:85-111 | with its loop run to stl_lang_num, calculate_prog_size is the size of the documented structure; as it is written it is the sum over lang_num entries for every stl_lang_num, and that size exactly when the counts agree |
| Records.WrittenFitsReserved | src/dtv_io.c:632-653 | over any list whose lang_num subtitle entries are there, the written octets fall short of the reserved ones by exactly the titles |
| Records.TunersHaveNoSlack | src/dtv_io.c:302-322 | tuners fill what is reserved for them exactly |
| ProgramLists.InStepIff | src/dtv_io.c:652-658 | a client reads every record of a list from that record's own octets exactly when all language counts agree |
| ProgramLists.SpellsItselfIff | src/dtv_io.c:652-658 | comparing record by record what is written with what is expected, and carrying over what is too much or missing, decides whether the append loop writes the encoding of the list |
| ProgramLists.SpellsItselfWhen | src/dtv_io.c:652-658 | it does when all counts agree; and when no program counts too few, or none too many, only then |
| ProgramLists.WrongCountsCancel | src/dtv_io.c:652-658 | a list of two programs, one counting too few and one too many, that is written as its encoding all the same |
| DtvPdu.CalculateTunerSize | src/dtv_pdu.c:48-62 | the size of the encoding, modulo 2^32; 0 for NULL |
| DtvPdu.CalculateChSize | src/dtv_pdu.c:64-83 | the same for a channel |
| DtvPdu.CalculateProgSize | src/dtv_pdu.c:85-111 | the same for a program with lang_num subtitle languages counted, for every stl_lang_num; says exactly when an entry is read that is not there |
| DtvPdu.CalculateProgSizeIntended | src/dtv_pdu.c:85-111 | the loops run to lang_num and stl_lang_num: the documented size of every program whose counted entries are there, modulo 2^32 |
| DtvPdu.AppendTuner | src/dtv_pdu.c:113-132 | appends the encoding in place, or fails when the PDU is full; tail untouched |
| DtvPdu.AppendChannel | src/dtv_pdu.c:134-144 | the same for a channel, with the name supplied |
| DtvPdu.AppendProgram | src/dtv_pdu.c:146-174 | the same for a program, as it is written |
| DtvMessages.BuildListReply | src/dtv_io.c:296-327 | size loop, allocation and append loop: never outside the buffer, slack exactly the titles, status by memory and 16-bit limit; stops exactly at a program whose entries are missing |
| DtvMessages.ListReplyReadsBack | src/dtv_io.c:567-593 | the payload decodes to the list (programs: counted subtitle languages, no titles) exactly when the list spells itself; so when all counts agree, and only then unless they differ both ways |
| DtvMessages.BuildChannelReply | src/dtv_io.c:521-535 | the SET_CHANNEL reply, filled exactly |
| DtvMessages.BuildEit | src/dtv_io.c:177-236 | the event-table notification: never outside its buffer, slack exactly the titles; stops exactly at a program whose entries are missing |
| DtvMessages.EitReadsBack | doc/ipc.txt:167-173 | the notification decodes to tuner, channel and programs under exactly the same condition |
| DtvMessages.BuildChannelScanned | src/dtv_io.c:69-104 | the channel notification, filled exactly |
| DtvMessages.BuildScanStatus | src/dtv_io.c:109-172 | the scan notifications, filled exactly |
| Ancillary.CeilAlignIs | src/memptr.c:20-30 | the least aligned address behind the given one, at most one alignment away |
| Ancillary.TailFits | src/dtv_io.c:376-382 | for every address: aligned record and control area lie in the reserved tail, one behind the other |
| Ancillary.ControlAlignedIff | src/dtv_pdu.c:22-46 | the control message behind the record is aligned exactly on a 32-bit machine or for an odd number of descriptors |
| Ancillary.FillTail | src/dtv_io.c:382-386 | the record holds the descriptors; the payload area is untouched |
| Ancillary.BuildAncillaryData | src/dtv_pdu.c:22-46 | the control message reads as SCM_RIGHTS with exactly those descriptors, in order, and lies inside the buffer; payload and record stay |
| Ancillary.RightsMessageReads | src/dtv_pdu.c:38-42 | a receiver of such a message gets the descriptors |
| Ancillary.RightsOctets | src/dtv_pdu.c:33-42 | such a message, octet by octet: length, level 1, type 1, data |
| SetSourceReply.BuildSetSourceReply | src/dtv_io.c:360-416 | the payload is, octet by octet, version, numFds, numInts and the entries from numFds to numInts, and the descriptors survive in the tail through all appends; says exactly when the tail is written without a buffer |
| SetSourceReply.HandleIsSpelled | src/dtv_io.c:395-408 | that description of the payload, and the descriptors as the first numFds entries, for every handle |
| SetSourceReply.Transmit | src/io.c:221-238 | every attempt to send delivers the payload and exactly the handle's descriptors, and leaves the buffer as it was for the next attempt |
| SetSourceReply.IntsArriveIff | src/dtv_io.c:395-408 | the reader gets the handle's integers exactly when there are no descriptors or no integers |
| SetSourceReply.IntendedHandleArrives | src/dtv_io.c:395-408 | with the loop run to numFds + numInts every handle arrives, and fills the allocation exactly |
| SendQueue.SendKeeps | src/io.c:267-298 | a send keeps queue conservation and wakeup invariant, registered or not |
| SendQueue.OutKeeps | src/io.c:240-265 | an out step keeps them and clears EPOLLOUT when the queue is drained |
| SendQueue.DescriptorStaysWatched | src/io.c:180-262 | EPOLLERR stays, so the branches that drop the descriptor are never taken |
| SendQueue.SendArmsIff | src/io.c:277-295 | with messages left, EPOLLOUT is watched for exactly when it already was or the loop accepts the registration |
| SendQueue.SendEndsStallIff | src/io.c:267-298 | a queue without wakeup gets going again with the next send exactly when the transport takes all of it or the loop accepts the registration |
| Runs.BuffersConserved | src/io.c:221-298 | over every run, accepted buffers are the finished ones followed by the queued ones; each finished one is freed once |
| Wakeups.NoLostWakeup | src/io.c:153-298 | over every run, while connected, the loop holds exactly our mask, EPOLLERR is in it, and a non-empty queue has EPOLLOUT in it exactly when the last send could register; always when no registration fails |
| Wakeups.StalledUntilSend | src/io.c:277-295 | over every stretch of a run in which nothing is sent, a queue without EPOLLOUT keeps its messages, and no wakeup can come |
| Scenarios.VersionStalls | src/registry.c:108-124 | the version reply itself can be left behind so |
| Wakeups.WakeupsDrain | src/io.c:221-265 | after such a run, as many wakeups as queued messages hand over everything in order |
| Wakeups.HangupStopsInput | src/io.c:180-195 | when the peer hangs up, EPOLLIN leaves the mask and the loop, EPOLLOUT and EPOLLERR stay as they were, and the step fails exactly when the loop refuses |
| Wakeups.NoInputAfterHangup | src/io.c:180-195 | over every run that goes on after it, no command, hang-up or read error reaches the daemon again |
| Wakeups.ErrorDisconnects | src/io.c:117-151 | after an error or hang-up of the socket the connection is gone, nothing is registered, and the queue is as it was |
| Wakeups.SilentAfterError | src/io.c:117-151 | over every run that goes on after it, no socket event reaches the daemon again |
| Faults.StepEndsIff | src/io.c:304-422 | a step ends the run exactly when it is a failed read, a hang-up of the socket, a hang-up of the peer, a drained queue or an error PDU whose registration is refused, an error PDU without memory, or a fault |
| IoStates.IoState.Connect | src/io.c:585-644 | start-up reaches the initial state, or fails |
| IoStates.IoState.SendPendingWbufs | src/io.c:221-238 | the loop sends from the head until the transport blocks; a blocked buffer stays; it ends |
| IoStates.IoState.StateOut | src/io.c:240-265 | the step of the state machine, on the fields |
| IoStates.IoState.StateSend | src/io.c:267-298 | the step of the state machine, on the fields |
| IoStates.IoState.StateInHangup | src/io.c:180-195 | the step of the state machine, on the fields |
| IoStates.IoState.StateErr | src/io.c:117-151 | error and hang-up close the connection |
| Runs.OneReplyPerCommand | src/io.c:304-346 | over every run the replies on the queue answer the handled commands one for one and in order: a response with service and opcode, or an error PDU with the handler's status |
| Guarantees.HandledAreArrived | src/io.c:199-203 | the handled commands are those that arrived |
| Runs.DispatchResponds | src/dtv_io.c:282-681 | every handler either sends one response and succeeds or sends nothing and fails |
| Runs.ServicesStayInOrder | src/registry.c:81-209 | over every run Registry stays installed, no unknown service gains a handler, DTV's handler and send callback go together, there is a driver while DTV is installed, and without one no slot records a stream |
| Runs.RegisterSucceedsIff | src/registry.c:81-130 | registration succeeds exactly for an absent DTV whose driver comes up |
| Runs.UnregisterSucceedsIff | src/registry.c:132-174 | unregistration succeeds whenever it names DTV, and leaves it absent |
| Guarantees.VersionMeansInstalled | src/registry.c:108-124 | a step puts the version reply on the queue exactly when DTV goes from absent to installed |
| Guarantees.NotificationSentIff | src/dtv_io.c:50-60 | a queued notification is sent, unchanged, exactly when DTV is present as its task runs |
| Guarantees.NotificationsConserved | src/dtv_io.c:50-236 | over every run, in whatever order tasks run: each notification built is sent, dropped or still on its way, exactly once; those on the send queue are those whose tasks found DTV there, in the order of the tasks |
| Guarantees.NotificationsInOrder | src/dtv_io.c:50-236 | when tasks run first in, first out, the run and the waiting ones are the built ones in the order of building |
| Guarantees.NoNotificationWhileAbsent | src/dtv_io.c:50-60 | over every stretch in which DTV stays absent no notification is queued for sending, whenever its task was created |
| Runs.UnsupportedIsRefused | src/pdu.c:28-65 | a command without a handler, or a handler without its opcode, gets ERROR_UNSUPPORTED and changes nothing |
| Runs.DtvOpcodes | src/dtv_io.c:666-681 | DTV commands lie strictly between 0 and 0x80, so no response looks like an error or a notification |
| CommandAnswers.GetTunersAnswered | src/dtv_io.c:282-333 | opcode 1, in every reachable state with DTV present: reads nothing, and answers with a list that decodes to one tuner per slot in table order, or error 3 |
| CommandAnswers.SetSourceAnswered | src/dtv_io.c:338-417 | opcode 2: reads tuner id and source type; error 1 when no stream is granted, error 3 when the reply cannot be made, otherwise the octets and descriptors of the handle |
| CommandAnswers.StartScanAnswered | src/dtv_io.c:419-446 | opcode 3: passes tuner id and source type to the vendor's start call, and answers with its status, error 3 or an empty response |
| CommandAnswers.StopScanAnswered | src/dtv_io.c:448-475 | opcode 4: the same with the vendor's stop call |
| CommandAnswers.ClearCacheAnswered | src/dtv_io.c:477-497 | opcode 5: the same with the vendor's clear call, whatever the payload |
| CommandAnswers.SetChannelAnswered | src/dtv_io.c:499-541 | opcode 6: passes tuner id, source type and channel number, and answers with the vendor's status, error 3 or the octets of the channel, which decode to it |
| CommandAnswers.GetChannelsAnswered | src/dtv_io.c:543-593 | opcode 7: passes tuner id and source type, and answers with the vendor's status, error 3 or a list that decodes to the vendor's channels |
| CommandAnswers.GetProgramsAnswered | src/dtv_io.c:595-664 | opcode 8: passes tuner id, source type, channel number and both times, and answers with the vendor's status, error 3 or a list that decodes to the vendor's programs under the condition of ListReplyReadsBack; missing entries end the run |
| CommandAnswers.BadCommandAnswered | src/dtv_io.c:338-681 | error 1 when the arguments of opcodes 2, 3, 4, 6, 7 or 8 are not there, error 6 for opcodes that DTV does not have |
| CommandAnswers.RegisterAnswered | src/registry.c:81-130 | Registry opcode 1: errors 7, 1, 3 and 1 in the order of the checks, or the octets 1, 0, 0, 0 |
| CommandAnswers.UnregisterAnswered | src/registry.c:132-174 | Registry opcode 2: errors 7, 3 and 1 in the order of the checks, or an empty response |
| CommandAnswers.NobodyAnswers | src/pdu.c:28-65 | error 6 for other Registry opcodes, unknown services, and DTV while it is absent |
| CommandAnswers.NotificationQueuedAs | src/dtv_io.c:69-236 | the callbacks queue opcodes 0x81 to 0x84 with tuner id, source type, channel octets and program list, behind the notifications on their way, or nothing when a step fails |
| CommandAnswers.EventTableReads | doc/ipc.txt:167-173 | those octets decode to tuner, source type, channel and programs exactly when the program list spells itself |
| Daemons.Daemon.constructor | src/io.c:656-674 | start-up |
| Daemons.Daemon.GetTuners | src/dtv_io.c:282-333 | the handler makes its step of the state machine |
| Daemons.Daemon.SetSource | src/dtv_io.c:338-417 | the handler makes its step of the state machine, descriptors, missing memory and the unfilled handle included |
| Daemons.Daemon.EmptyVendorReply | src/dtv_io.c:419-497 | start_scan, stop_scan and clean_cache |
| Daemons.Daemon.SetChannel | src/dtv_io.c:499-541 | the handler makes its step of the state machine |
| Daemons.Daemon.VendorList | src/dtv_io.c:543-664 | get_channels and get_programs, missing subtitle entries included |
| Daemons.Daemon.RegisterDtv | src/dtv_io.c:683-710 | the function makes its step of the state machine |
| Daemons.Daemon.UnregisterDtv | src/dtv_io.c:712-732 | the function makes its step of the state machine |
| Daemons.Daemon.RegisterModule | src/registry.c:81-130 | the command on the handler array makes its step of the state machine |
| Daemons.Daemon.UnregisterModule | src/registry.c:132-174 | the command on the handler array makes its step of the state machine |
| Daemons.Daemon.HandlePduByService | src/pdu.c:28-56 | dispatch through the handler array |
| Daemons.Daemon.SendErrorReply | src/io.c:304-326 | an error PDU with the status, or the daemon aborts |
| Daemons.Daemon.HandlePdu | src/io.c:328-346 | one command from dispatch to reply |
| Daemons.Daemon.Notify | src/dtv_io.c:69-236 | the notification callbacks |
| Daemons.Daemon.RunTask | src/dtv_io.c:50-60 | send_ntf_pdu on the I/O thread |
| Daemons.Daemon.OnEvent | src/io.c:360-422 | every event in every state: the daemon does what the state machine does |

## Left out

- Daemons.Daemon.OnEvent: requires that the one size the command or notification adds up stays below 2^32; a buffer allocated by a wrapped size is not modelled.
- DtvPdu.AppendChannel: the format has eight conversions and seven arguments; the model supplies the missing name, because what C does with the missing argument is undefined.
- DtvPdu.AppendProgram: requires the lang_num subtitle entries, because the size loop in front of every call has read them already.
- Streams.NoStreamIsLost: takes the unchecked close_stream calls of notify and uninit to succeed.
- TunerIds.ParseTunerId: a char is taken as unsigned, which matters for octets above 127 only.
- DtvMessages.BuildEit: a NULL channel is not modelled; the append would dereference it.
- Services.HandleSetSource: what an unset handle points to is taken to be some handle; that reading it may end the daemon is not modelled.
- The vendor calls of `src/dtv.c` are constant stubs; the model takes any status for each call with its arguments, and any channel, channel list and program list, instead.
- Driver callbacks on other threads are atomic steps between I/O events; torn reads and writes are not modelled.
- Sockets, epoll, recvmsg, sendmsg, wake locks and logging: system calls, present only as outcomes.
- Command-line options, daemon setup and socket addresses: start-up plumbing.
- The release functions of `src/tv_utils.c` and leaked buffers: heap ownership without a property of values.
- `uninit_io` and `uninit_registry`: shutdown, after which nothing runs.
