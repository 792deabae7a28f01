# WAGO coupler: a verified model of the cyclic Modbus master

The program connects to a WAGO Modbus TCP coupler, reads from it which modules are
plugged in, lays out four process images in shared memory (digital and analog, inputs and
outputs) and then cycles: fetch the inputs, send the outputs, watch the cycle time. Other
processes read and write the images while it runs.

This project models that program as it is written and proves what it does. Where the code
does not do what its own header or documentation says, the model follows the code; a lemma
says exactly when the two agree.

`dafny verify dfyconfig.toml` checks everything.

## How the model is built

- `Types`: words, the four signal types (each also names its Modbus address space), errors.
- `Modbus`: the device. Four spaces of 65536 cells, coils holding single bits. Every
  request is served, lost, or carried out with its answer lost, as a script decides; the
  theorems hold for every script. `Exec` runs a list of requests up to the first failure.
- `Transfers`, `ReadWrite`, `Server`: the connection object and its batched transfers,
  imperative, each method tied to `Exec` of the list of requests it issues; then what such
  lists mean for the cells.
- `Endian`, `Clamps`, `Layout`, `Sync`: byte order, decoding of module words, the areas of
  an image, and what fetching and sending through them does.
- `Lifecycle`, `Histories`, `Lives`, `Coupler`, `Promises`: the coupler object as a class whose
  methods are tied to a state machine over its fields, theorems over every sequence of calls
  on it, lives that reach what goes wrong, and what a fetch and a send on the object promise
  and mean.
- `Supervisor`, `Machine`: the overrun counter and the deadline; the program one request at
  a time with other processes and the plant acting between any two steps.
- `Scripts`, `MainLoop`: the events of that machine when the device's script, the terminate
  flag, the clock and what happens outside between the transfers are given; and the program
  itself, whose every run is shown to be that one run of the machine.

## What the code does that its documentation does not say

- Analog output modules report their channels as inputs, so no configuration ever gives
  analog outputs an image; the analog half of a send, which writes coils instead of
  registers, is therefore never reached (`Clamps.AnalogSizesRightIff`,
  `Histories.NoAnalogOutputs`, `Sync.AnalogDeliveredIff`).
- `write_ao` stores one byte at a byte offset where a word was meant
  (`Endian.ByteStoreRightIff`); with no analog output image an initialized object reports an index out of
  range instead.
- The second area of an image starts at the window's size instead of its address. Signals
  up to the first window (512 digital ones) are at their documented addresses; no later
  one is (`Layout.AddressesAgreeIff`, `Sync.FetchDocumentedIff`, `Sync.SendDocumentedIff`).
  Accepted configurations get there: every digital size up to 8128 occurs
  (`Lives.EverySizeOccurs`), and from 513 signals on, signal 512 shows input 1527 instead of
  0x8000 (`Lives.SecondWindowMissed`).
- `read_write_ao` starts both leftover loops at the number of left-over writes. It is right
  for exactly three shapes of its arguments (`ReadWrite.AsWrittenMeetsIff`). In the others it
  reads the first ranges again in place of the last (`ReadWrite.RepeatedAnswer`), never
  issues the last write (`ReadWrite.SkipsLastWrite`), or leaves its vectors
  (`ReadWrite.FarMoreWritesStray`).
- After a disconnect the object still counts as initialized: destruction then ends the
  program (`Histories.DestructionAbortsIff`), a transfer touches images that are gone
  (`Histories.SafeWhenClosedIff`), and a second init adds its areas to the old ones
  (`Histories.StackTilesIff`). `Lives.SecondLife` shows all three for any two configurations.
- If a second init finds fewer signals of a type than the first, but not none, the next fetch
  of that type writes past the end of the shared memory, and a send of outputs reads past it
  (`Histories.SafeInUseIff`, `Lives.SecondLife`, `Lives.FewerModules`).
- A first init that fails after connecting can neither be repeated nor undone
  (`Histories.FailedInitIsFinal`).
- `fetch_image` and `send_image` never report "not initialized": on a new object both
  succeed without a request, and after a failed init a fetch reads the inputs or touches an
  image that was never created (`Promises.FetchNeverRefuses`, `Promises.SendNeverRefuses`,
  `Lives.FailedInit`).
- The header says that a send writes only changed data; it always writes every area
  (`Coupler.TcpCouplerShm.SendImage`).
- Unless it is told to be quiet, the program asks the coupler for its description outside any
  `try`; a failed request there ends it by an uncaught exception (`MainLoop.Program`).
- On a big-endian host a coupler with the documented constants is rejected
  (`Lifecycle.ConstantsPassIff`).

## Model

| member | source | states |
|---|---|---|
| Modbus.ExecOutcome | src/Modbus_TCP_Server.cpp:252-259 | A list of requests completes exactly when all are served; otherwise it ends at the first that is not, with everything before it applied, nothing after it, and that one only if just its answer was lost |
| Transfers.AcceptedIff | src/Modbus_TCP_Server.cpp:43-71 | The limit in numbers: a list is refused exactly when a range ends past 65535, so address 65535 itself is never reached |
| Transfers.LastWriterWins | src/Modbus_TCP_Server.cpp:230-260 | After a batch of writes every register holds the value of the last range that contains it, and every coil is on exactly if that value is not zero |
| Transfers.WritesElsewhere | src/Modbus_TCP_Server.cpp:50-71 | An accepted batch, to coils or to registers, changes no cell outside its ranges, never address 65535, and no other space |
| Transfers.BatchIsFoldOfSingles | src/Modbus_TCP_Server.cpp:210-260 | A batch of writes equals the in-order fold of single writes, for coils and for registers |
| Transfers.ReadsObserve | src/Modbus_TCP_Server.cpp:190-208 | A batch of reads returns one answer per range, the cells of that range, and changes nothing |
| Transfers.ReadsCells | src/Modbus_TCP_Server.cpp:130-208 | Answer i of a batch of reads holds at j the cell at address + j of range i, in each of the four spaces |
| Transfers.RoundTripIffDisjoint | src/Modbus_TCP_Server.cpp:190-260 | Writing and then reading the same ranges returns what was written, whatever it was, exactly when the ranges are pairwise disjoint |
| Transfers.OverlapWitness | src/Modbus_TCP_Server.cpp:246-260 | Any two overlapping ranges give values that do not come back |
| ReadWrite.DocumentedMeets | src/Modbus_TCP_Server.hpp:267-284 | With both leftover loops starting after the zip, any two lists give one answer per read range showing the registers after the writes up to its index, and the final registers are the fold of all writes |
| ReadWrite.AsWrittenMeetsIff | src/Modbus_TCP_Server.cpp:270-316 | The loops as written do so for all arguments of given lengths exactly when there are no writes, as many writes as reads, or twice as many; and the same for arguments without empty ranges |
| ReadWrite.HarmlessMeets | src/Modbus_TCP_Server.cpp:270-316 | In those three cases the loops as written meet the promise for every argument and device |
| ReadWrite.RepeatedAnswer | src/Modbus_TCP_Server.cpp:276-305 | With at least as many reads as writes all writes are done and the answers of the zip are right, but each answer after it shows the first ranges again instead of the remaining ones |
| ReadWrite.RepeatedWrites | src/Modbus_TCP_Server.cpp:276-316 | With at least as many writes as reads, and at most twice as many, every answer is right, and the writes done are exactly those of the zip followed by those from the number of left-over writes up to twice that number |
| ReadWrite.SkipsLastWrite | src/Modbus_TCP_Server.cpp:307-316 | With more, but less than twice as many, writes than reads, a register that only the last range holds keeps its value, whatever is written |
| ReadWrite.FarMoreWritesStray | src/Modbus_TCP_Server.cpp:307-309 | The leftover loop indexes past the end of its vector exactly when there are more than twice as many writes as reads |
| Server.CheckReadRegs | src/Modbus_TCP_Server.cpp:43-48 | Rejects exactly the lists that contain a range past the 16-bit limit |
| Server.CheckWriteRegs | src/Modbus_TCP_Server.cpp:50-71 | A wrong number of values anywhere outranks a range past the limit anywhere; a list is accepted exactly when neither occurs |
| Server.ModbusServer.Connect | src/Modbus_TCP_Server.cpp:24-35 | Error when already connected, otherwise connected exactly when the connection opened |
| Server.ModbusServer.Disconnect | src/Modbus_TCP_Server.cpp:37-41 | Error exactly when not connected; never connected afterwards |
| Server.ModbusServer.Read | src/Modbus_TCP_Server.cpp:73-127 | Single-cell reads: the cell, or which error |
| Server.ModbusServer.Write | src/Modbus_TCP_Server.cpp:210-228 | Single-cell writes: the device afterwards in all three fates, and the error |
| Server.ModbusServer.ReadBatch | src/Modbus_TCP_Server.cpp:130-208 | A rejected batch sends nothing; an accepted one is the run of its reads, with their answers or the error |
| Server.ModbusServer.WriteBatch | src/Modbus_TCP_Server.cpp:230-260 | A rejected batch writes nothing; an accepted one is the run of its writes up to the first failure |
| Server.ModbusServer.ReadWriteAo | src/Modbus_TCP_Server.cpp:261-319 | The order of its checks, and the run of the program as written, including the case that leaves the vector |
| Server.ModbusServer.ReadInto | src/Modbus_TCP_Server.cpp:320-362 | Reads into a buffer: the cells on success, anything in that stretch on failure, nothing elsewhere |
| Server.ModbusServer.WriteFrom | src/Modbus_TCP_Server.cpp:364-384 | Writes from a buffer: its checks and the single request it issues |
| Server.AsWrittenInThree | src/Modbus_TCP_Server.cpp:276-316 | The whole combined transfer is its three loops in sequence, each stopping the next |
| Endian.Swap | src/endian.hpp:53-64 | The two-pointer loop yields the reversed bytes, at every width |
| Endian.SwapTradesOrders | src/endian.hpp:53-64 | The little-endian value of the swapped bytes is the big-endian value of the original, and back |
| Endian.SwapTwice | src/endian.hpp:53-64 | Swapping is its own inverse |
| Endian.ConversionsKeepTheNumber | src/endian.hpp:96-132 | On both kinds of host the conversions keep the number the bytes denote |
| Endian.ConversionsUndoEachOther | src/endian.hpp:96-132 | host-to-X and X-to-host undo each other on both kinds of host |
| Endian.ConfigWordIsLittleToHost | src/WAGO_MB_TCP_Coupler.cpp:201 | What the decoder sees of a word is the byte conversion of its two bytes |
| Endian.ByteViewInNumbers | src/WAGO_MB_TCP_Coupler.cpp:86-91 | The bytes of an analog image in plain arithmetic, on both kinds of host |
| Endian.ByteStoredAt | src/WAGO_MB_TCP_Coupler.cpp:124-128 | Storing through the byte view changes exactly the byte at that offset |
| Endian.ByteStoreRightIff | src/WAGO_MB_TCP_Coupler.cpp:124-128 | The stored byte sets the intended word exactly for word 0 with a fitting other byte, or when nothing had to change |
| Clamps.DecodeMeans | src/WAGO_MB_TCP_Coupler.cpp:205-216 | Exactly which words are known, and the type and channels each one has, in plain arithmetic |
| Clamps.EndOfModules | src/WAGO_MB_TCP_Coupler.cpp:199-203 | The module list ends at the first zero word after slot 0 |
| Clamps.ChannelsConserved | src/WAGO_MB_TCP_Coupler.cpp:224-229 | The four image sizes add up to the channels of exactly the listed words |
| Clamps.SizesByType | src/WAGO_MB_Clamps.hpp:43-111 | Digital sizes are the channels of their modules; analog inputs also count the output modules' channels; analog outputs count none |
| Clamps.SizesFromWords | src/WAGO_MB_TCP_Coupler.cpp:205-229 | Each of the four sizes is the sum over the words of what the word itself says: its channel bits for its digital kind, four inputs for 453 and 553, no analog output |
| Clamps.ClampsMean | src/WAGO_MB_Clamps.cpp:11-22 | Module k of a list has the type and the channels of its word |
| Clamps.AnalogSizesRightIff | src/WAGO_MB_Clamps.hpp:110-111 | The analog sizes are right exactly when no analog output module is listed |
| Clamps.AcceptedBounds | src/WAGO_MB_TCP_Coupler.cpp:195-229 | At most 64 modules, 8128 digital and 256 analog signals in every accepted configuration |
| Layout.AreasTile | src/WAGO_MB_TCP_Coupler.cpp:231-274 | The areas of an image are not empty, start at the prefix sums of their sizes and add up to the image, for every size |
| Layout.TilesCoverAll | src/WAGO_MB_TCP_Coupler.cpp:231-274 | A tiling covers exactly the indices of the image |
| Layout.TilesCoverOnce | src/WAGO_MB_TCP_Coupler.cpp:231-274 | No index is covered by two areas of a tiling |
| Layout.AreasFollow | src/WAGO_MB_TCP_Coupler.cpp:231-274 | Every area of an accepted configuration passes the address check, stays inside its image and follows the address map; analog images have one area at most |
| Layout.AddressInjectiveIff | src/WAGO_MB_TCP_Coupler.cpp:272 | Signals have addresses of their own, except analog outputs from number 256 on; accepted sizes never get there |
| Layout.DocumentedInjective | src/WAGO_MB_TCP_Coupler.hpp:66-74 | The documented addresses are distinct and inside the two windows up to their joint capacity |
| Layout.DocumentedFitsIff | src/WAGO_MB_TCP_Coupler.hpp:66-74 | An image fits the documented windows exactly up to their joint capacity |
| Layout.AddressInNumbers | src/WAGO_MB_TCP_Coupler.hpp:67-74 | The address used for each signal, and the documented one, as numbers |
| Layout.AddressesAgreeIff | src/WAGO_MB_TCP_Coupler.cpp:238-273 | The addresses used are the documented ones exactly while the first window suffices; beyond it none is in either window |
| Layout.GatherIsCopy | src/WAGO_MB_TCP_Coupler.cpp:40-76 | Fetching area by area is a copy cell by cell through the address map, repeated areas or not |
| Layout.SendReaches | src/WAGO_MB_TCP_Coupler.cpp:78-84 | Sending area by area puts every covered signal at its address |
| Layout.SendElsewhere | src/WAGO_MB_TCP_Coupler.cpp:78-84 | Sending changes no other cell and no other space |
| Sync.AreasServe | src/WAGO_MB_TCP_Coupler.cpp:231-274 | The areas computed for an image of an accepted size follow the address map, stay inside the image and leave no signal out |
| Sync.SendThenFetch | src/WAGO_MB_TCP_Coupler.cpp:40-92 | Send then fetch returns each output as the device stores it, so the image is unchanged exactly when it held storable values |
| Sync.FetchThenSend | src/WAGO_MB_TCP_Coupler.cpp:40-92 | Fetching the outputs and sending them back changes no cell of the device |
| Sync.FetchDocumentedIff | src/WAGO_MB_TCP_Coupler.cpp:40-54 | A fetched image shows the documented cells of every device exactly while it fits the first window |
| Sync.SendDocumentedIff | src/WAGO_MB_TCP_Coupler.cpp:78-84 | A sent image always arrives at the documented cells exactly while it fits the first window |
| Sync.AnalogDeliveredIff | src/WAGO_MB_TCP_Coupler.cpp:86-91 | The analog half of a send delivers every image of a size exactly when the size is zero |
| Lifecycle.GenuineIff | src/WAGO_MB_TCP_Coupler.cpp:277-291 | The nine words a little-endian host accepts, and the nine a big-endian host accepts; any other answer is rejected |
| Lifecycle.ConstantsPassIff | src/WAGO_MB_TCP_Coupler.cpp:277-291 | The documented constants pass the check exactly on little-endian hosts; a big-endian host wants them swapped |
| Lifecycle.ListOkIff | src/WAGO_MB_TCP_Coupler.cpp:199-219 | The list of modules is accepted exactly when its first word is not zero and every word before the first zero is known, in terms of the words as they arrived |
| Lifecycle.ListedModules | src/WAGO_MB_TCP_Coupler.cpp:199-217 | The object keeps the modules of the words before the first zero, up to the first unknown one, accepted or not |
| Lifecycle.SizesFromBlock | src/WAGO_MB_TCP_Coupler.cpp:199-229 | The image sizes are the channels of the words of the raw block up to its first zero |
| Lifecycle.InitEnds | src/WAGO_MB_TCP_Coupler.cpp:22-28 | Which error an init ends with, or none, in terms of what it meets; the flags afterwards; and the image sizes as sums over the raw block |
| Lifecycle.LayoutBounded | src/WAGO_MB_TCP_Coupler.cpp:221-274 | A new layout keeps every area inside the bounds of the address map |
| Lifecycle.AlwaysSound | src/WAGO_MB_TCP_Coupler.cpp:18-38 | After any sequence of calls the sizes and areas are within bounds, and an object without a connection holds no modules and no images |
| Histories.FailedInitIsFinal | src/WAGO_MB_TCP_Coupler.cpp:22-31 | After a first init that failed with the connection open, every later init and disconnect fails and nothing changes again |
| Histories.DestructionAbortsIff | src/WAGO_MB_TCP_Coupler.cpp:18-38 | Destruction ends the program exactly after a successful disconnect with no connection opened since |
| Histories.OperationalIff | src/WAGO_MB_TCP_Coupler.cpp:22-38 | The object is connected with modules and four images of the recorded sizes exactly after a successful init with no disconnect attempted since |
| Histories.AreasAreStacked | src/WAGO_MB_TCP_Coupler.cpp:231-274 | The area lists are the layouts of all inits so far, one after the other |
| Histories.StackTilesIff | src/WAGO_MB_TCP_Coupler.cpp:231-274 | They tile an image exactly when no earlier layout had signals of that type |
| Histories.SafeIff | src/WAGO_MB_TCP_Coupler.cpp:40-92 | After any sequence of calls, transferring a type stays inside its image exactly when it has no signals, or its image exists and no layout so far was larger |
| Histories.ImageExistsIff | src/WAGO_MB_TCP_Coupler.cpp:30-38 | The image of a type exists exactly after an init that created it, successful or not, with no successful disconnect since |
| Histories.SafeInUseIff | src/WAGO_MB_TCP_Coupler.cpp:40-92 | In use, that is: it has no signals or was never larger |
| Histories.FirstUseIsSafe | src/WAGO_MB_TCP_Coupler.cpp:22-28 | After a single init every transfer is safe, every list tiles, and its areas serve every signal |
| Histories.SafeServes | src/WAGO_MB_TCP_Coupler.cpp:40-92 | After any sequence of calls, where a transfer is safe its areas serve every signal, repeated or not |
| Histories.SafeWhenClosedIff | src/WAGO_MB_TCP_Coupler.cpp:30-92 | Without a connection a transfer is safe exactly for types without signals |
| Histories.UninitializedIsIdleOrConnected | src/WAGO_MB_TCP_Coupler.cpp:22-38 | An object never initialized has no signals or is connected |
| Histories.NoAnalogOutputs | src/WAGO_MB_Clamps.hpp:110-111 | No sequence of calls gives analog outputs an image or an area |
| Lives.EverySizeOccurs | src/WAGO_MB_TCP_Coupler.cpp:195-275 | Every number of digital inputs, or of outputs, up to the bound 8128 is the size of a configuration that init accepts |
| Lives.SecondWindowMissed | src/WAGO_MB_TCP_Coupler.cpp:238-251 | There, each signal past the first window is read from and written to cell 1527 and up, where the documentation has 0x8000 and up for inputs and 0x9000 and up for outputs |
| Lives.FailedInit | src/WAGO_MB_TCP_Coupler.cpp:293-309 | For any list of known modules, an init that fails for lack of memories leaves a type safe to transfer exactly when it has no signals or its memory was created |
| Lives.SecondLife | src/WAGO_MB_TCP_Coupler.cpp:22-38 | For any two lists of known modules, after init and disconnect destruction aborts and no type with signals can be transferred; after the second init the areas tile exactly when the first list had no signals of the type, and a transfer stays inside its image exactly when the first list had no more of them |
| Lives.FewerModules | src/WAGO_MB_TCP_Coupler.cpp:231-274 | Two input modules and then one: areas for eight and four inputs over an image of four |
| Coupler.TcpCouplerShm.FetchType | src/WAGO_MB_TCP_Coupler.cpp:41-55 | Fetching one type: the requests issued, the error, and the image: fetched, or after a failed request fetched up to the area that failed, with nothing changed outside that area's own stretch |
| Coupler.TcpCouplerShm.FetchImage | src/WAGO_MB_TCP_Coupler.cpp:40-76 | The requests in order, the device unchanged, every fetched image gathered, the output images untouched unless asked for; after a failed request the types before it are fetched, its own up to the failed area, those after it as before; an address is never out of range |
| Coupler.TcpCouplerShm.SendAreas | src/WAGO_MB_TCP_Coupler.cpp:79-84 | Sending one type: the coil writes issued, up to the first failure |
| Coupler.TcpCouplerShm.SendImage | src/WAGO_MB_TCP_Coupler.cpp:78-92 | Digital outputs, then the bytes of the analog image, all to coils |
| Coupler.TcpCouplerShm.ReadLocal | src/WAGO_MB_TCP_Coupler.cpp:94-116 | Local reads: which error, or the signal |
| Coupler.TcpCouplerShm.WriteDo | src/WAGO_MB_TCP_Coupler.cpp:118-122 | Local digital write: which error, and the whole image afterwards |
| Coupler.TcpCouplerShm.WriteAo | src/WAGO_MB_TCP_Coupler.cpp:124-128 | Local analog write: which error, and the image with one byte stored |
| Coupler.TcpCouplerShm.CheckConstants | src/WAGO_MB_TCP_Coupler.cpp:277-291 | Passes exactly when the request is served and input registers 0x2000 to 0x2008 hold the nine constants, byte-swapped for a big-endian host |
| Coupler.TcpCouplerShm.ListModules | src/WAGO_MB_TCP_Coupler.cpp:199-217 | Appends the modules before the first unknown word and fails exactly if there is one |
| Coupler.TcpCouplerShm.SumChannels | src/WAGO_MB_TCP_Coupler.cpp:221-229 | The four sums over all modules |
| Coupler.TcpCouplerShm.AppendAreas | src/WAGO_MB_TCP_Coupler.cpp:233-242 | Appends the layout of one image to its list |
| Coupler.TcpCouplerShm.ReadClampConfig | src/WAGO_MB_TCP_Coupler.cpp:195-275 | Succeeds exactly when the block is answered and acceptable word by word, with the sizes its words add up to; all fields afterwards, on success and in every failure |
| Coupler.TcpCouplerShm.CreateShm | src/WAGO_MB_TCP_Coupler.cpp:293-309 | Which images exist afterwards, zeroed and not shared, however many could be created |
| Coupler.TcpCouplerShm.Init | src/WAGO_MB_TCP_Coupler.cpp:22-28 | The fields and the error are those of the state machine, for every behaviour of the device |
| Coupler.TcpCouplerShm.CouplerInfo | src/WAGO_MB_TCP_Coupler.cpp:140-178 | The description is the cells of the fourteen blocks, or which error after how many requests; nothing else changes |
| Coupler.InitAsks | src/WAGO_MB_TCP_Coupler.hpp:20-21 | What an init asks for, in numbers: input registers 0x2000 to 0x2008, then holding registers 0x2030 to 0x2070 |
| Coupler.InfoAsks | src/WAGO_MB_TCP_Coupler.cpp:144-178 | The sixteen input registers of a description, by their numbers |
| Coupler.TcpCouplerShm.Disconnect | src/WAGO_MB_TCP_Coupler.cpp:30-38 | The same for disconnect |
| Coupler.TcpCouplerShm.Destroy | src/WAGO_MB_TCP_Coupler.cpp:18-20 | Whether destruction aborts, and that it closes the connection otherwise |
| Promises.FetchNeverRefuses | src/WAGO_MB_TCP_Coupler.hpp:161-163 | After any sequence of calls, on an uninitialized object or wherever its meaning is defined, a fetch never ends in the promised "not initialized" error |
| Promises.SendNeverRefuses | src/WAGO_MB_TCP_Coupler.hpp:171-173 | The same for a send |
| Promises.FreshTransfersSucceed | src/WAGO_MB_TCP_Coupler.cpp:40-92 | On a new object a fetch and a send are defined and succeed without a request |
| Promises.FailedInitStillFetches | src/WAGO_MB_TCP_Coupler.cpp:22-76 | After an init that failed for lack of its third memory, a fetch is defined and reads the inputs: it fails only if its request does |
| Promises.FetchSignals | src/WAGO_MB_TCP_Coupler.cpp:40-76 | On an object with any history, a completed fetch shows at every index of every image it covers the cell at that signal's address, and for the first window that address is a number: i for inputs, 0x200 + i for outputs |
| Promises.SendSignals | src/WAGO_MB_TCP_Coupler.cpp:78-92 | On an object with any history, a completed send leaves coil 0x200 + i on exactly if output i of the first window is not zero, and every later output at its address |
| Promises.SendThenFetch | src/WAGO_MB_TCP_Coupler.cpp:40-92 | On an object with any history, a send followed by a fetch with outputs gives back the digital output image as the device stores it |
| Promises.FetchThenSend | src/WAGO_MB_TCP_Coupler.cpp:40-92 | A fetch with outputs followed by a send leaves every cell of the device as it was |
| Supervisor.OverrunMeans | src/main.cpp:215-236 | An overrun is a reading past its deadline; it becomes the next deadline, which otherwise is one cycle later |
| Supervisor.FailIsMaxWeight | src/main.cpp:191-239 | The counter is the largest value of 10 per overrun less 1 per cycle in time over all windows ending now |
| Supervisor.TripsIffHeavyWindow | src/main.cpp:191-233 | It is over 100 exactly when some window ending now has E overruns in n cycles with 11 E - n > 100 |
| Supervisor.CrossesInOverrun | src/main.cpp:226-233 | It crosses the limit only in an overrun, where the loop checks it |
| Supervisor.NoFailStaysZero | src/main.cpp:226-239 | With no-cycle-time-fail it stays zero |
| Supervisor.BurstAdds | src/main.cpp:226-233 | Overruns in a row add ten each: eleven always cross the limit, ten from zero never |
| Supervisor.LowIffSporadic | src/main.cpp:181-190 | It has never been above ten exactly when no eleven consecutive cycles held two overruns |
| Supervisor.DeadlineIsNominalPlusExcess | src/main.cpp:195-241 | The deadline is the start, the nominal cycles and all excess; deadlines are a cycle time apart at least; there is no drift exactly while no cycle was late |
| Supervisor.DeadlineIsMaximum | src/main.cpp:215-236 | The deadline is the maximum of the nominal one and of each reading followed by nominal cycles |
| Machine.OutputsOnlyPoked | src/main.cpp:197-243 | In every interleaving the output images are what the other processes wrote, and nothing else |
| Machine.LastPokeWins | src/main.cpp:197-243 | So each output signal has the value last written to it |
| Machine.SendDelivers | src/WAGO_MB_TCP_Coupler.cpp:78-92 | A completed send, interleaved with anything, leaves at its address every output nobody wrote meanwhile |
| Machine.OutputSettles | src/main.cpp:197-212 | From any moment on, an output that nobody writes any more keeps its value, whatever was written before, and from the first send begun and completed since then its coil holds it at every moment, in every interleaving |
| Machine.FetchDelivers | src/WAGO_MB_TCP_Coupler.cpp:40-55 | A completed fetch, interleaved with anything, shows the cell of every input that was not disturbed |
| Machine.InputSettles | src/main.cpp:197-204 | The same for an input that neither another process nor the plant touches: from the first fetch begun and completed since then its image shows its cell, unless the very request that was to bring it has failed |
| Machine.DeviceFrame | src/main.cpp:197-243 | The program never changes inputs, holding registers or coils that are not its outputs |
| Machine.LastPlantWins | src/main.cpp:197-243 | So each input cell holds what the plant last put there |
| Machine.StartImageHolds | src/main.cpp:170-212 | In step with the device and with nobody writing outputs, whole runs leave every coil as found |
| Machine.AlwaysAccounted | src/main.cpp:197-243 | In every reachable state the counter and deadline are the supervisor's over the readings so far, and sends never get ahead of completed fetches |
| Machine.ExitCodes | src/main.cpp:179-246 | EX_SOFTWARE exactly after a failed transfer, EX_OK exactly after a stop seen at the loop condition, EX_TEMPFAIL exactly with the counter over its limit |
| Machine.TempfailIffHeavyWindow | src/main.cpp:226-233 | A run ends with EX_TEMPFAIL exactly at the first cycle that ends a heavy window, and never with no-cycle-time-fail |
| Scripts.FetchRun | src/main.cpp:198-204 | The requests of a fetch are steps of the machine, failures included |
| Scripts.SendRun | src/main.cpp:206-212 | The same for a send |
| Scripts.FetchBreaks | src/WAGO_MB_TCP_Coupler.cpp:40-55 | A fetch that breaks off shows what the requests before the failed one brought, and spoils at most what that one was to bring |
| Scripts.ScriptStays | src/main.cpp:200-234 | A run that has exited in some round has met all of its events |
| Scripts.ScriptTheirs | src/main.cpp:197-243 | What happens outside in the events of a run is what happens outside in one of its rounds: the program adds no write to an image of its own |
| MainLoop.Others | src/main.cpp:197-206 | What other processes write into the object's images and the plant into its inputs, between two transfers, is those events of the machine |
| MainLoop.Exchange | src/main.cpp:198-212 | One fetch and one send of the object, with what happens outside before each, are the run of the machine over the fates of the requests they issue, and they break off exactly at the first that is not served |
| MainLoop.Time | src/main.cpp:214-239 | The timing block on the loop's variables is the machine's timing step |
| MainLoop.Cycle | src/main.cpp:198-243 | One pass through the body is a cycle of the machine: exchange, timing, and what ends it |
| MainLoop.Loop | src/main.cpp:191-243 | The run of the loop, with other processes and the plant acting before each fetch and each send, is the one run of the machine that its parameters determine: the same device, images, exit code and number of requests, and the exit is explained by the first cause that occurs; after a failed request the images agree but for what that request has spoiled |
| MainLoop.ExplainedOnce | src/main.cpp:197-243 | A script of fates, stops and clock readings has one explanation only: one number of cycles and requests and one exit code |
| MainLoop.TempfailExplained | src/main.cpp:214-239 | The loop ends with EX_TEMPFAIL exactly when every request was served and its last cycle is the first that ends a heavy window |
| MainLoop.FirstInitReady | src/main.cpp:148-156 | A successful first init gives everything the loop relies on |
| MainLoop.FirstInitCloses | src/main.cpp:148-156 | After a first init, successful or not, the destructor does not abort |
| MainLoop.EveryOutcome | src/main.cpp:170-243 | However any run of the machine ends, and whenever: inputs are shown; the output image is what others wrote; every output is delivered from the first send after its last write on; registers and other coils are as found, all coils too with a start image and nobody writing; without a start image an output nobody writes is off once a cycle has completed |
| MainLoop.LoopOutcome | src/main.cpp:170-243 | The same of the loop on the object, its images and its device |
| MainLoop.TakeOver | src/main.cpp:170-177 | The start image is the device's cells in all images, or the error exactly when one of its requests is not served |
| MainLoop.Program | src/main.cpp:148-246 | From a fresh object to the exit: unavailable exactly when init fails, aborted or without a start image exactly when one of those requests is not served, and otherwise the loop's run from the images so prepared, with what it leaves on the device and in the images; the destructor does not abort on the way out |

## Left out

- libmodbus, sockets and error texts: replaced by the device, whose requests may fail at will; limits on the size of a request are such failures.
- The shared memory library: an image is a zeroed array of words, and its creation may be refused; names and the exclusive flag are not modelled. Digital images are arrays of the same word type, of which only zero or not matters to a coil.
- Server.ModbusServer.Read: the four families of calls that differ only in the library function are one method each with the address space as a parameter; this holds for all transfer methods of the class.
- Coupler.TcpCouplerShm.FetchImage: what C++ leaves undefined (an image that does not exist, an area past its end) is a precondition; `Histories.SafeIff` and `Histories.ImageExistsIff` say exactly when it holds, after any sequence of calls.
- Coupler.TcpCouplerShm.FetchType: the same precondition.
- Coupler.TcpCouplerShm.SendImage: the same precondition.
- Coupler.TcpCouplerShm.SendAreas: the same precondition.
- Coupler.TcpCouplerShm.ReadLocal: an index in range needs the image to exist, which after a disconnect it does not.
- Coupler.TcpCouplerShm.WriteDo: an index in range needs the image to exist, which after a disconnect it does not.
- Coupler.TcpCouplerShm.WriteAo: an index in range needs the image to exist, which after a disconnect it does not.
- Coupler.TcpCouplerShm.Init: requires the state machine's invariant, which every sequence of calls keeps.
- MainLoop.Loop: the clock readings, the values of the terminate flag and what happens outside are parameters, and the loop is observed for as many evaluations of its condition as they cover; other processes act between its transfers there, and between any two requests only in the machine.
- MainLoop.Program: nothing happens outside before the loop begins; it names its endings instead of their numbers; when it is not quiet the request for the coupler's description and its failure are modelled, the text made of the answers is not.
- Coupler.TcpCouplerShm.CouplerInfo: returns the answers, not their formatting.
- Module descriptions, option parsing, signal installation, printing: no effect on the state modelled.
- Watchdog and diagnostic registers: named in the source; only those of the description are used.
- `sleep_until`: the theorems hold for every sequence of clock readings, so nothing about sleeping is assumed.
