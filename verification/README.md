# KNoT Virtual Thing: the device lifecycle in Dafny

The virtual thing is a daemon that reads sensors over Modbus and publishes them to a cloud.
Its guarantees (who may publish, when a request is pending, which timers are live, what is on
disk) are spread over callbacks in several C files that change shared state. This project
models that state as a whole and proves what every step and every run keeps.

## How the model is built

Each C file that works by changing state is a class (or methods over one) whose methods are
proved equal to a function on the old state; the results on all runs are proved about those
functions, so they hold of the methods.

| file | models |
|---|---|
| `KnotTypes.dfy` | values, schemas, events, data items; the parameters that stand for the KNoT protocol library and for the text format of files (`Platform`, `Lawful`) |
| `Modbus.dfy` | `src/iface-modbus.c`: byte reordering in place, bit packing, decoding of a reply |
| `Storage.dfy` | `src/storage.c`: group-structured files, cached settings behind handles, write-through, filtering of groups |
| `Thing.dfy` | the thing record of `src/device.c` |
| `Credentials.dfy`, `DataItems.dfy`, `ConfigUpdate.dfy`, `ConfigResults.dfy`, `UpdateReports.dfy` | `src/properties.c`: credentials with rollback, loading data items, writing a cloud configuration back |
| `SensorEvents.dfy`, `Poll.dfy` | `src/event.c` and `src/poll.c` |
| `Machine.dfy` | `src/sm.c` with the device operations it calls |
| `RawMachine.dfy`, `Handlers.dfy`, `RawGuarantees.dfy` | what holds under any sequence of the thirteen events |
| `ClosedSystem.dfy`, `ClosedInvariant.dfy`, `ClosedRuns.dfy`, `Boot.dfy` | the closed system, in which events come only from the callbacks of `src/device.c`, and its invariant |
| `Responses.dfy`, `ResponseRuns.dfy`, `Batches.dfy`, `Loading.dfy` | what the device answers to each input, what a batch of configurations leaves in memory, and what a start reads, key by key |
| `Behaviors.dfy`, `Guarantees.dfy`, `Sampling.dfy`, `CredentialRuns.dfy`, `FileRuns.dfy`, `Restart.dfy`, `RestartRuns.dfy` | behaviours, that is, the states a run goes through, and the results on all of them |
| `Reachability.dfy`, `Witnesses.dfy` | that the assumptions can be met, and a concrete disk or run for each failure below |
| `Device.dfy` | the device as one object; its event loop is proved to produce exactly the runs of the closed system |

A `World` is the whole process: machine state, connection mask, thing, disk, sensor timers,
pollers, and a log of events handled, states entered and calls to the cloud. File operations
take their outcome from a list of faults inside the disk, so every result that does not say
otherwise holds for every combination of failing opens and writes. A closed run is any list of
link changes, cloud messages and timer expiries. A timer that the source hands to the event
loop is an armed or expired one-shot timer. A dereference of NULL is an outcome of its own.

What is assumed at a start (`ClosedSystem.GoodStart`, `KnotTypes.Lawful`): no file is open, the
credentials file is not the device file; printing and parsing a value round-trip except for
floats; `knot_value_assign_limit` copies the arm of the value type; no two floats are each less
than the other; a valid schema has a value type in the enumeration; an id of sixteen characters
fits. `Reachability.LawfulPlatformsExist` shows that the assumptions on the library can be met,
`Witnesses.Starts` gives a disk from which a device with one data item starts on such a
platform, and `Witnesses.OnlineHappens` a behaviour of it that ends in ONLINE.

## What the code does that one might not expect

The model follows the code in each case.

- `get_data_item_groups` overwrites its error on every turn, so only the last data item group
  decides: repeated groups, and malformed ones before the last, are accepted
  (`Storage.RepeatedGroupAccepted`, `Storage.ErrAfterIsLast`).
- The same function drops all other groups from the cached settings, so the first successful
  write of an update removes the group with the name of the thing, and the next start fails. A
  new process can start on the files exactly when no step so far rewrote the device file
  (`RestartRuns.RestartsUntilSaved`, for one update `Restart.RestartsAfterUpdate`); it happens on
  the first config for a known sensor (`Witnesses.RestartIsLost`).
- The guard of every key removal is inverted, so flags accumulate in the file while memory
  takes the new ones: they agree exactly when the new flags include the old
  (`ConfigResults.UpdateReadsBack`), and differ when a config drops CHANGE
  (`Witnesses.FlagsDiffer`).
- An update dereferences NULL exactly when it can open the device file and the last data item
  group there is malformed (`ConfigUpdate.UpdateKeeps`, `Witnesses.MalformedGroupIsDereferenced`);
  no run from a successful start gets there (`Guarantees.NeverCrashes`). Loading credentials does
  so exactly when the file opens and a key is missing (`Credentials.LoadOutcome`,
  `Witnesses.MissingKeyIsDereferenced`).
- If the id cannot be written and the rollback of the token fails as well, the device is in
  ERROR with a token on disk and none in memory. That is the only way in which a restart finds
  other credentials (`CredentialRuns.ReloadGivesSameCredentials`), and it happens
  (`Witnesses.TokenIsLost`).
- 16-bit reads ignore the declared byte order (`Modbus.SixteenBitsIgnoreEndianness`).
- Value types without a comparison arm look changed on every sample
  (`SensorEvents.CheckValueWithoutArm`).
- `EVT_REG_PERM` is never sent. If it were, coming back ONLINE would start the sensor timers a
  second time over the live ones (`RawGuarantees.ReregistrationLosesTimers`).
- The state tests use older names (`EVT_SCH_OK`, `ST_SCHEMA`) for the `CFG_UPT` events and
  `ST_CONFIG`, and one expects ONLINE after AUTH_OK, which needs
  `device_check_schema_change` to answer 0; it always answers 1.

## Model

| member | source | states |
|---|---|---|
| Guarantees.ConnectedIffBothLinksUp | src/device.c:218-260 | In every run, outside UNREGISTER and ERROR, the device is in AUTH, REGISTER, CONFIG or ONLINE exactly when both links last reported up, which is when the mask is 0xFF, and in DISCONNECTED otherwise |
| Guarantees.PublishesOnlyAfterHandshake | src/sm.c:352-406 | Every publish of every run comes while ONLINE is the last state entered, after a READY, then an AUTH_OK handled in AUTH, then a CFG_UPT_OK handled in CONFIG, with no NOT_READY since |
| CredentialRuns.ReloadGivesSameCredentials | src/properties.c:65-91 | In every state of every behaviour a new process can read the credentials, and finds those memory had (the token, and the id if there is a token) exactly when no registration so far lost its token; so always outside ERROR; it then chooses the same of AUTH and REGISTER |
| CredentialRuns.RegistrationOutcome | src/sm.c:238-246 | After REG_OK, for every token: AUTH exactly when the token fits and three file operations succeed, else ERROR; memory and disk differ on the token exactly when it is not empty and id and rollback both fail to be written |
| CredentialRuns.EventAgreement | src/sm.c:129-477 | For every event but REG_PERM, memory and disk agree on the credentials afterwards exactly when they did before and the event is not a registration that loses its token |
| Guarantees.TimersMatchItems | src/device.c:453-482 | In every behaviour: events are active only in ONLINE or UNREGISTER and always in ONLINE, where the timers are exactly one per item with the TIME flag, with its current period and running; no live timer was ever lost |
| Guarantees.PhaseBoundsChanges | src/sm.c:129-477 | In any segment of any behaviour in which no step handles NOT_READY the phase never falls and pays for every state change, so there are at most five |
| Guarantees.PollersFollowModbus | src/poll.c:38-78 | In every run there is one poller per item, polling is active exactly while Modbus is up, and then every poller is armed, also those that expired while it was not |
| Guarantees.NeverCrashes | src/properties.c:823-872 | No run dereferences the missing group list, touches an absent message timer or re-arms a removed sensor timer, and no file handle stays open between steps |
| FileRuns.FileNamesTheSensorsInMemory | src/properties.c:823-872 | Throughout every run, whichever writes fail, the data item groups of the device file and the items in memory correspond one to one and in order by sensor id and agree on the Modbus source |
| FileRuns.FileKeepsSensors | src/storage.c:481-513 | One update attempt with any faults keeps the names, order, sensor ids and Modbus keys of the data item groups |
| Sampling.PollsPublishChecked | src/device.c:262-290 | In any stretch of ONLINE of any behaviour where the item keeps its schema and event, polls publish exactly the samples that the check lets through when compared with the last one a poll published; a failed read samples the old value again |
| Sampling.ChangeOnlyPublishesChanges | src/event.c:139-166 | In any such stretch, with CHANGE as the only flag on an INT or BOOL item, polls publish the sampled sequence with adjacent repeats removed, relative to the value sent before |
| Sampling.SteadyStep | src/device.c:262-290 | A poll of the item stores the sample and publishes and remembers it exactly when the check says so; no other step in ONLINE touches the item's values |
| ResponseRuns.EachStepResponds | src/device.c:159-290 | Every step of every behaviour leads where a table over states and inputs says, makes exactly the calls to the cloud that a second table lists, and changes id, token, data items and pollers exactly as stated |
| Responses.StepResponds | src/sm.c:129-509 | The same of one step from any state that satisfies the invariant: the state it leads to and the calls it makes |
| Responses.EventMakesCalls | src/sm.c:129-509 | The calls to the cloud that each of the thirteen events causes in each of the seven states, with their arguments and order |
| ResponseRuns.ExpiriesPublish | src/event.c:124-130 | In every behaviour, a sensor timer that expires in ONLINE publishes the current value of its item under the id of the thing and nothing else; otherwise nothing is published |
| ResponseRuns.ExpiryPublishes | src/device.c:164-174 | The same of one step, which changes nothing but the log |
| ResponseRuns.RequestsAreAnswered | src/device.c:183-186 | In every behaviour, a data request without error is answered in ONLINE by one publish per listed sensor that the device has, in list order, with its current value; in other states nothing is published, and a request with an error is ignored |
| ResponseRuns.RequestIsAnswered | src/sm.c:360-363 | The same of one step, which changes nothing but the log |
| ResponseRuns.AnswersInOrder | src/device.c:131-149 | The i-th publish of an answer is the current value of the i-th listed sensor when the device has them all |
| ResponseRuns.UnknownIsSkipped | src/device.c:137-140 | A listed sensor that the device does not have makes no difference to the answer |
| ResponseRuns.RefusedRegistration | src/sm.c:248-262 | A refused registration takes the next random number as the id in hexadecimal and subscribes to it, and the next timeout registers it |
| ResponseRuns.RefusalsGiveNewIds | src/device.c:409-415 | Two refusals with different random numbers give different ids |
| ResponseRuns.ReadyWithoutToken | src/sm.c:133-144 | READY without a token takes, subscribes to and registers a new id |
| ResponseRuns.PermittedRegistration | src/sm.c:414-421 | So does REG_PERM in UNREGISTER |
| ResponseRuns.StepIds | src/device.c:402-451 | Every step: id and token change exactly at READY without a token, a refused registration, a stored one, and on entering UNREGISTER, which erases both from memory and, if it can be written, from the file |
| Responses.EventIds | src/sm.c:129-509 | The same of every event, REG_PERM included |
| ResponseRuns.StepItems | src/device.c:262-290 | Every step: a poll samples its item in every state and remembers the sample as sent when the check lets it through, a batch of configs is applied in ONLINE, and nothing else changes an item |
| ResponseRuns.StepPollers | src/poll.c:38-78 | Every step: the Modbus link starts and stops the pollers, a start arms them all, one that expires while stopped stays unarmed until then, and nothing else changes them |
| Batches.OnlineBatchHolds | src/device.c:473-482 | After a batch in ONLINE each item has the schema of the last config it took and the event of the last one that set it, where a config is taken exactly when the device file can be opened |
| Batches.BatchHolds | src/device.c:110-116 | The same after any part of a batch, whatever fails on the way |
| RawGuarantees.MessageTimerExactlyWhileWaiting | src/device.c:526-543 | Under any event sequence the message timer exists, armed, exactly in AUTH, REGISTER and CONFIG, is never touched while absent, and requests since entry are one more than timeouts |
| RawGuarantees.CallsCarryTheSubscribedId | src/device.c:409-548 | Under any event sequence the id last given to knot_cloud_read_start is the thing's id in AUTH, REGISTER, CONFIG and ONLINE, and every register, auth, config and publish call carried the id subscribed when it was made |
| RawGuarantees.ReregistrationLosesTimers | src/sm.c:369-371 | Leaving ONLINE by UNREG_REQ and coming back through REG_PERM starts events over live timers, which are then lost |
| RawMachine.RawRunKeeps | src/sm.c:129-528 | The invariant behind the two results above holds after every event sequence from sm_start |
| RawMachine.InputKeepsRaw | src/sm.c:495-509 | Every single event keeps that invariant, a timeout also when it comes from the timer that just expired |
| Handlers.TransitionTable | src/sm.c:129-477 | Reference table: the state after each of the thirteen events in each of the seven states |
| Handlers.RequestsAreForTheThing | src/sm.c:215-349 | Entering a waiting state and every timeout in one ends with that state's request, made for id, token, name and items as they are after the event |
| Handlers.ConfigListComplete | src/device.c:118-129 | The config message holds exactly one config per data item, with its schema and event |
| Handlers.GoingOnlinePublishesAll | src/sm.c:398-406 | Going ONLINE publishes the current value of every data item, each once and in order |
| Behaviors.InvThroughout | src/device.c:159-290 | The invariant of the closed system holds in every state of every behaviour |
| Behaviors.RunsAreBehaviors | src/device.c:550-597 | The states that a run of the program goes through are a behaviour |
| Boot.BootInv | src/device.c:550-597 | A device that starts successfully satisfies the invariant of the closed system |
| Boot.BootDescribed | src/properties.c:726-750 | After a successful start the data item groups of the device file describe the items in memory one to one |
| ClosedRuns.StepKeeps | src/device.c:159-290 | Every callback keeps the invariant of the closed system |
| ClosedRuns.SensorTimerKeeps | src/event.c:124-130 | A sensor timer that fires is still there afterwards, is armed with its own period, and changes nothing but the log |
| ClosedRuns.ActivePollTimer | src/poll.c:38-49 | A poll timer that fires while polling is active polls its item and is armed again |
| ClosedInvariant.Transitions | src/sm.c:129-477 | Without REG_PERM the phase rises at every state change that NOT_READY does not cause; READY leaves DISCONNECTED, NOT_READY returns to it except from UNREGISTER and ERROR |
| ClosedInvariant.ConfigsAppliedDisk | src/device.c:473-482 | A batch of configs leaves the device file readable, closes every handle, touches no other file and never dereferences NULL |
| Reachability.HandshakeReachesOnline | src/device.c:176-260 | From every start with working files, both links, a registration if there is no token, an authentication and a config answer lead to ONLINE |
| Witnesses.Starts | src/properties.c:726-750 | A concrete disk with one data item from which a start succeeds, for any token and any later faults |
| Witnesses.OnlineHappens | src/device.c:218-260 | A concrete behaviour with one data item that ends in ONLINE |
| Witnesses.RestartIsLost | src/storage.c:502-504 | A concrete behaviour in which a restart would succeed in ONLINE and fails after one config for a known sensor |
| Witnesses.FlagsDiffer | src/properties.c:638-640 | A concrete update after which the file has CHANGE and memory has no flag |
| Witnesses.TokenIsLost | src/properties.c:803-812 | A concrete behaviour that ends in ERROR without a token where a new process finds one |
| Witnesses.MissingKeyIsDereferenced | src/properties.c:77-83 | A concrete credentials file that is read to a NULL pointer |
| Witnesses.MalformedGroupIsDereferenced | src/properties.c:841-843 | A concrete device file on which an update dereferences NULL |
| Reachability.LawfulPlatformsExist | src/properties.c:182-321 | The assumptions on printing, parsing and limits can be met together |
| Credentials.StoreOutcome | src/properties.c:782-821 | Storing, for every outcome of the file operations: success exactly when the token fits and three operations succeed, then both are on disk; else the token on disk is the old one or empty, or the new one exactly when id and rollback both fail; handles and other files untouched |
| Credentials.ClearOutcome | src/properties.c:752-780 | Clearing, for every outcome: token and id are each emptied in memory and on disk or in neither; handles and other files untouched |
| Credentials.LoadOutcome | src/properties.c:65-91 | A load that returns finds what is on disk, cut to the buffers, and restores the handles; it dereferences NULL exactly when the file opens and a key is missing |
| Credentials.StoreThenLoad | src/properties.c:65-91 | Credentials that were stored read back |
| Credentials.StoreCredentials | src/properties.c:782-821 | The program stores as specified, with the rollback |
| Credentials.ClearCredentials | src/properties.c:752-780 | The program clears as specified |
| Credentials.LoadCredentials | src/properties.c:65-91 | The program loads as specified |
| DataItems.LoadCorrespondence | src/properties.c:436-500 | When loading succeeds from an empty map, groups and items correspond one to one, group names and sensor ids are distinct, each item is the one its group describes and can be read from Modbus |
| DataItems.LoadedExactly | src/properties.c:436-500 | Loading succeeds exactly when every group is complete and valid and no sensor id repeats or is present; then it appends one item per group |
| Loading.LoadsWhatItSays | src/properties.c:323-434 | A group loads as an item exactly when each field of the item is what the group says under the key of that field, and schema, event and bit offset are valid |
| Loading.LimitReadsAsText | src/properties.c:338-350 | A limit in memory reads as the text of its key does |
| Loading.ProfileIsRead | src/properties.c:502-557 | After a start the name, slave, URL, cloud URL and user token are those under their own keys |
| DataItems.ValidBitOffset | src/properties.c:110-143 | The mask test accepts exactly the admissible pairs of bit offset and value type, for every value type the shift of an int is defined for |
| DataItems.SetModbusSource | src/properties.c:145-180 | The source of a group is accepted exactly when its three keys are there and the bit offset is admissible |
| DataItems.SetDataItems | src/properties.c:436-500 | The loop over the groups loads as specified |
| DataItems.SetThingProperties | src/properties.c:559-594 | Name, slave, URL and items are read as specified and the handle is closed on every path |
| DataItems.SetCloudProperties | src/properties.c:596-624 | URL and user token are read as specified |
| DataItems.CreateDevice | src/properties.c:726-750 | The three parts are read in turn and the first failure ends it |
| DataItems.CreateKeepsHandles | src/properties.c:726-750 | On every path that returns, the open handles are those there were, and no file changes but for a missing one created empty |
| ConfigUpdate.UpdateKeeps | src/properties.c:823-872 | For every outcome of the file operations: memory is untouched or has the new config, the handles are restored, only the device file changes and keeps its identity; NULL is dereferenced exactly when the last data item group is malformed |
| ConfigUpdate.UnknownSensorChangesNothing | src/properties.c:823-872 | An update for a sensor that neither memory nor file knows changes neither |
| ConfigUpdate.UpdateDataItem | src/properties.c:823-872 | The program updates memory and the first group with the sensor id as specified |
| ConfigUpdate.UpdateSchemaDataItem | src/properties.c:678-711 | Four keys are written in order, the first failure ends it |
| ConfigUpdate.UpdateEventDataItem | src/properties.c:626-676 | The keys of flags that are set are written, no key is ever removed |
| ConfigUpdate.RemoveUnlessPresent | src/properties.c:638-640 | The inverted guard makes every removal have no effect |
| ConfigUpdate.SetLimit | src/properties.c:290-321 | A limit is written as its value type reads it; a type without an arm is an error |
| ConfigResults.UpdateSucceeds | src/properties.c:823-872 | When all file operations succeed the device file holds exactly its data item groups with the matching one rewritten, or is unchanged if none matches; it reports an error only for a limit of a type that cannot be written |
| ConfigResults.SchemaReadsBack | src/properties.c:678-711 | The rewritten group and memory agree on type id, unit and value type, and on the name exactly when it fits its buffer |
| ConfigResults.AppliedKeeps | src/properties.c:823-872 | Every other group, the order of groups, and the sensor id and Modbus keys of the rewritten one are unchanged; the sensor ids are those there were and stay unique |
| ConfigResults.EventReadsBack | src/properties.c:626-676 | Re-reading a group, for every value type: the union of its old flags and the new ones but for limits whose text does not parse, with the new time and the limits as they parse; for the exact types nothing is lost |
| ConfigResults.UpdateReadsBack | src/properties.c:823-872 | After a whole update of a known sensor with working files, the group in the file reads back memory's schema, its flags are the old ones with the new, and for an exact value type they agree with memory exactly when the new flags include the old |
| UpdateReports.UpdateReportsExactly | src/properties.c:823-872 | For every combination of failures: an update of a readable file reports success exactly when the open and, for a known sensor, every write of schema and event succeed and no limit is of a type that cannot be written; else the error of the open, or -1 |
| ConfigResults.FlagsAgreeExactly | src/properties.c:323-373 | The event step alone: memory and a re-read of what it writes agree on the flags exactly when the new flags include the old |
| Restart.StartsExactly | src/properties.c:726-750 | A start succeeds exactly when three opens succeed and the device, cloud and credentials files are there and hold what it needs; it creates no file then |
| Restart.UpdateSaves | src/properties.c:823-872 | An update leaves in the device file the data item groups and nothing else exactly when its first write succeeds, or its second and there is an event key to write; otherwise it leaves the content alone |
| Restart.RestartsAfterUpdate | src/storage.c:502-504 | For every disk, config and combination of failures: a new process can start after the update exactly when it could before and the update did not rewrite the device file |
| RestartRuns.EventRestarts | src/sm.c:129-477 | For every event but REG_PERM: a new process can start afterwards exactly when it could before and the event is not a batch in ONLINE of which a config rewrites the device file |
| RestartRuns.RestartsUntilSaved | src/storage.c:502-504 | In every state of every behaviour a new process can start on the files exactly when no step so far rewrote the device file with a configuration |
| Storage.WriteThrough | src/storage.c:84-104 | A successful write leaves the file equal to the cache of its handle and changes one key; a failed one returns its error and changes no file, and keeps the value in the cache unless it was refused |
| Storage.RemovalExactly | src/storage.c:456-468 | Removing a key that is there takes that key alone from cache and, if the save succeeds, file; a missing key is -EINVAL and changes nothing |
| Storage.OpenClose | src/storage.c:132-168 | Opening uses a free handle and disturbs no other; closing it gives back the handles there were |
| Storage.ErrAfterIsLast | src/storage.c:497-512 | The error that survives the loop is that of the last data item group |
| Storage.FilterTurn | src/storage.c:497-508 | Removing a group by name in one turn of the loop removes the one under the cursor |
| Storage.LastDataItemKept | src/storage.c:481-513 | Filtering does not change the verdict on the last group |
| Storage.GetAfterFilter | src/storage.c:481-513 | Reading through a data item group is unaffected by the filter, every other group reads as absent |
| Storage.DataItemGroupsOfGoodFile | src/storage.c:481-513 | For well-formed names the call returns precisely the data item names in order, and the cache holds precisely those groups |
| Storage.RepeatedGroupAccepted | src/storage.c:106-130 | A concrete file with a repeated and a malformed group is accepted although the check rejects both |
| Storage.StorageList.Open | src/storage.c:132-155 | The handle table after opening |
| Storage.StorageList.Close | src/storage.c:157-168 | The handle table after closing |
| Storage.StorageList.SaveSettings | src/storage.c:84-104 | The file is replaced by the cache, or untouched on failure |
| Storage.StorageList.WriteKeyString | src/storage.c:261-274 | Write-through of a string key, or -EINVAL with nothing cached when the settings library refuses it |
| Storage.StorageList.WriteKeyScalar | src/storage.c:287-440 | Write-through of a typed key, or -EINVAL with nothing cached when the settings library refuses it |
| Storage.StorageList.RemoveKey | src/storage.c:456-468 | Removal of a key that is present |
| Storage.StorageList.CheckValidGroups | src/storage.c:106-130 | A name is rejected exactly when it is malformed or occurs again later |
| Storage.StorageList.GetDataItemGroups | src/storage.c:481-513 | The cache becomes the order-preserving filter of data item groups; the result is absent exactly when the last one is malformed |
| Modbus.Reordered32IsWireNumber | src/iface-modbus.c:199-225 | For every two registers and every type the 32-bit reordering gives the number of the wire bytes in declared order |
| Modbus.Reordered64IsWireNumber | src/iface-modbus.c:227-248 | The same specification for four registers and the 64-bit reordering |
| Modbus.Reorder32Laws | src/iface-modbus.c:199-225 | On all 32-bit values each reordering is its own inverse, BIG and LITTLE commute and compose to MID_BIG, MID_LITTLE is the identity |
| Modbus.Reorder64Laws | src/iface-modbus.c:227-248 | The same laws on all 64-bit values |
| Modbus.RearrangementLaws | src/iface-modbus.c:199-248 | The same laws for the specification on any number of registers |
| Modbus.DeclaredOrderIsRearrangement | src/iface-modbus.c:199-248 | Reading in declared order is reading a rearrangement of the registers in wire order |
| Modbus.PackedBits | src/iface-modbus.c:265-272 | Bit j of a packed byte is input bit j |
| Modbus.DecodedBit | src/iface-modbus.c:261-264 | A one-bit read stores 1 for a set input bit and 0 for a clear one, and reads as that BOOL |
| Modbus.DecodedByte | src/iface-modbus.c:265-272 | An eight-bit read stores a number below 256 whose binary digit j is input bit j |
| Modbus.DecodedIsWireNumber | src/iface-modbus.c:273-289 | What a successful 16, 32 or 64-bit read stores, as a number on the wire |
| Modbus.SixteenBitsIgnoreEndianness | src/iface-modbus.c:274-277 | A 16-bit read honours a byte-swapping type exactly when its two bytes are equal |
| Modbus.Reorder32 | src/iface-modbus.c:199-225 | The word is rewritten in place by the one permutation of its type |
| Modbus.Reorder64 | src/iface-modbus.c:227-248 | The word is rewritten in place by up to two passes |
| Modbus.ReadData | src/iface-modbus.c:250-303 | The output is the decoded value, or is not touched when the read fails, and then the negated error number is returned |
| SensorEvents.CheckValueExactly | src/event.c:139-166 | An INT or BOOL sample passes exactly when CHANGE is set and it reads differently, or it lies outside a flagged limit |
| SensorEvents.CheckValueFloat | src/event.c:52-60 | A FLOAT sample passes exactly when CHANGE is set and it is less or greater than the last one, or it is less than a flagged lower limit, or greater than a flagged upper one |
| SensorEvents.CheckValueNever | src/event.c:144-149 | Nothing passes while events are inactive or for a type outside the enumeration |
| SensorEvents.CheckValueWithoutArm | src/event.c:72-101 | A type without a comparison arm passes exactly when CHANGE or UPPER is set |
| SensorEvents.ChangeOnlyRemovesRepeats | src/event.c:139-166 | Checking each sample against the last published one with CHANGE only removes adjacent repeats |
| SensorEvents.TimersForMembers | src/event.c:168-182 | The timers of a set of items: exactly one for each with the TIME flag |
| SensorEvents.EventTimers.Check | src/event.c:139-166 | The program decides as specified and changes nothing |
| SensorEvents.EventTimers.Start | src/event.c:184-193 | A new empty queue replaces the old one, whose timers are lost |
| SensorEvents.EventTimers.AddDataItem | src/event.c:168-182 | A timer is added exactly for the TIME flag |
| SensorEvents.EventTimers.Stop | src/event.c:195-202 | Inactive, and no timer left in the queue |
| Poll.Poller.Start | src/poll.c:60-73 | Every entry is armed with its interval |
| Poll.Poller.Stop | src/poll.c:75-78 | Inactive; the timers stay as they are |
| Poll.Poller.Create | src/poll.c:80-104 | One entry more, or none if the timer cannot be created |
| Poll.Poller.Destroy | src/poll.c:106-112 | No entry is left |
| Poll.Poller.CreateAll | src/device.c:292-316 | One poller per item if every creation succeeds, otherwise none is left |
| Thing.WithConfigFrame | src/device.c:364-390 | A config never adds, removes or renumbers an item and touches only schema and event of the item it names |
| Thing.IdLength | src/device.c:409-415 | A generated id has at most sixteen characters |
| Thing.HexReadsBack | src/device.c:409-415 | Reading a generated id in base 16 gives the number it was made from |
| Thing.HexShape | src/device.c:409-415 | A generated id has lower-case hexadecimal digits and no leading zero |
| Thing.KnotThing.UpdateConfigDataItem | src/device.c:364-390 | The named item takes the schema, its name cut to the buffer, and the event unless it is flagged unregistered |
| Thing.KnotThing.SetNewDataItem | src/device.c:345-362 | One more item, with zero values |
| Thing.KnotThing.SetCredentials | src/device.c:402-407 | Id and token are copied, cut to their buffers |
| Device.KnotDevice.Start | src/device.c:550-597 | Success exactly when the properties load, every poller can be created, and Modbus and cloud start; then the process is booted, otherwise no poller is left |
| Device.KnotDevice.Input | src/sm.c:495-509 | One event: the handler, then the entry action if the state changes |
| Device.KnotDevice.GetNextDisconnected | src/sm.c:129-164 | The handler with its effects |
| Device.KnotDevice.GetNextAuth | src/sm.c:172-213 | The handler with its effects |
| Device.KnotDevice.GetNextRegister | src/sm.c:228-279 | The handler with its effects |
| Device.KnotDevice.GetNextConfig | src/sm.c:293-337 | The handler with its effects |
| Device.KnotDevice.GetNextOnline | src/sm.c:352-396 | The handler with its effects |
| Device.KnotDevice.GetNextUnregister | src/sm.c:409-441 | The handler with its effects |
| Device.KnotDevice.Enter | src/sm.c:166-482 | The entry actions |
| Device.KnotDevice.SendConfig | src/device.c:500-514 | The loop that gathers and sends the configs |
| Device.KnotDevice.PublishDataList | src/device.c:516-519 | The loop that publishes the listed sensors |
| Device.KnotDevice.StartEvent | src/device.c:453-466 | Events started and a timer added per item |
| Device.KnotDevice.UpdateConfig | src/device.c:473-482 | Events stopped, every config applied in turn, events started again |
| Device.KnotDevice.StoreCredentialsOnFile | src/device.c:432-445 | Memory takes the token exactly when it was stored |
| Device.KnotDevice.ConnHandler | src/device.c:218-230 | The mask after a link change and the event it causes |
| Device.KnotDevice.OnLinkChanged | src/device.c:232-260 | Polling switched with the Modbus link, then the connection handler |
| Device.KnotDevice.OnCloudReceive | src/device.c:176-216 | The event each message causes, if any; never REG_PERM |
| Device.KnotDevice.OnMsgTimeout | src/device.c:159-162 | The expired message timer causes a TIMEOUT |
| Device.KnotDevice.OnSensorTimeout | src/event.c:124-130 | The callback, then the timer armed again |
| Device.KnotDevice.OnModbusPollReceive | src/device.c:262-290 | Read, check, remember and publish |
| Device.KnotDevice.OnPollTimeout | src/poll.c:38-49 | The poll while active, then the timer armed again |
| Device.KnotDevice.Dispatch | src/device.c:159-290 | Every callback of the program is the step of the closed system |
| Device.KnotDevice.EventLoop | src/device.c:159-290 | The program on any inputs ends where the run of the closed system ends |
| Device.Serve | src/device.c:550-597 | Whatever the program does after a successful start is a run of the closed system from a booted process |

## Left out

- Sockets, serial lines, URL parsing and reconnection (`src/iface-modbus.c:71-197`): plumbing around libmodbus; link changes are inputs.
- The cloud SDK, AMQP and the event loop: a call to the cloud is a log entry, assumed to succeed or fail without effect on the device and not to call back into the state machine; the results of those calls are only logged by the source.
- The text form of settings files, among it the printing of floats, which may lose precision: files are parsed groups, and round trips of values are assumed except for floats.
- Floating point comparison: an uninterpreted relation on bit patterns that never holds both ways round, as with NaN; its values are not computed.
- The KNoT protocol library (`knot_schema_is_valid`, `knot_event_is_valid`, `knot_value_assign_limit`, buffer lengths) is not part of this model but for the parameters of `Platform`. The codes of the value types other than INT and BOOL are not in the repository; the model numbers them after the protocol's enumeration, and no result depends on the numbers.
- The traversal order of the hash map of data items: the model visits items in the order they were loaded. The order shows only in the order of publishes, of configs in a message, of timers and of pollers.
- Concurrency of the daemon with itself: the source is single-threaded and callbacks run one at a time.
- A write that stops half way: each save of a file succeeds or leaves it alone. Crashes are considered between steps, not inside one.
- SensorEvents.EventTimers.Start: takes `l_queue_new` not to fail, and so its return of -ENOMSG is left out; likewise `l_timeout_create` for message and sensor timers. Failure to create a poller is modelled.
- `strncpy` of an over-long registered id: a generated id has at most sixteen characters. Names and credentials are cut to their buffers as in the source.
- Shutdown (`device_destroy`, `knot_thing_destroy`), leaks of small allocations, logging, `main`, command line, `make_dirs`, `storage_foreach_slave` and `storage_foreach_source`: outside the core.
- Event codes outside the enumeration, which only reach the `default` arms.
- DataItems.ValidBitOffset: is stated for value types from 0 to 30, because for others the shift of an int in the source is undefined; the callers pass the type of a valid schema.
- CredentialRuns.ReloadGivesSameCredentials: reads the credentials only; whether the whole start succeeds is `RestartRuns.RestartsUntilSaved`.
- Restart.StartsExactly: is about reading the three files; that pollers can be created and that Modbus and cloud start is `Device.KnotDevice.Start`.
- ConfigResults.EventReadsBack: says of a FLOAT limit only that it is what its text parses to, since the text form may lose precision.
