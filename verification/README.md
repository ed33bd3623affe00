# Verified model of the Deskflow engine and the DeskBridge relay

The project models the parts of the repository whose logic can go wrong in ways that no single function
shows, and proves what they are for.

| file | models |
|---|---|
| `Unicode.dfy` (modules `Utf8` and `Unicode`) | the UTF-8 codec of one to six bytes (section 2 of RFC 2279), the UTF-16 conversions with surrogates and byte-order marks (sections 2.1 and 2.2 of RFC 2781), on a little-endian machine |
| `EventQueue.dfy` | saved events under recycled ids, the id buffer, pending events, and all interleavings of producers with the one consumer at lock granularity, with reading readiness and pushing to the pending events as two actions |
| `PriorityQueue.dfy`, `Timers.dfy` | the heap of relative countdowns, the stopwatch, and the timers against a table of absolute deadlines |
| `Client.dfy` | the connection life cycle: owned objects, flags, and every entry of the handler table |
| `ServerProxy.dfy` | mouse compression against plain forwarding |
| `ClientApp.dfy` | failover through servers and addresses, and the retry delay |
| `StringFormat.dfy`, `Numbers.dfy`, `Basics.dfy` | positional formatting; decimal numbers as the C library reads and prints them; shared definitions |
| `ClipboardChunk.dfy` | the layout of clipboard chunks and their assembly |
| `DragInformation.dfy`, `FileReceiver.dfy`, `UniqueNames.dfy` | the list of dragged files as text, receiving them into a directory, and the drag that follows |
| `Mjpeg.dfy` | cutting a byte stream into JPEG images (markers of section B.1.1.3 of ITU-T T.81) and carrying them as frames |
| `Upload.dfy` | uploads saved side by side into one directory |

Objects whose methods update fields are classes here, each method proved against a function on the abstract
state; the properties that matter are lemmas about those functions over all inputs and all runs.

## How to read it

* **Bits** are written as the arithmetic they stand for: `x & 0x3f` is `x % 0x40`, and `|` of values with no
  common bit is `+`. Where a width matters it is explicit: the 32-bit cast of string lengths
  (`Unicode.Covered`), the 64-bit `long` of `strtol`, the wrap-around of `stoull` on negative numbers, the
  32-bit counters of files and retries.
* **Interleaving**: in `EventQueue` popping an id and looking it up are two steps, and so are saving an event
  and pushing its id; a producer that has seen the loop not ready may push to the pending events at any time
  after. In `Upload` every creation, partial copy, link attempt and removal is a step.
* **Environment choices** are parameters quantified over: how far a connection attempt gets, what a greeting
  says, whether more input is ready, what the clock reads, where a stream is cut.
* **Time** is exact, and reading and resetting the stopwatch in `hasTimerExpired` happen at one instant.
* **Identities** of streams, timers and proxies are never reused.
* **Forms**: a lemma whose name ends in `Forms` says what a function yields in plain constants and bytes, without
  the functions it is built from, so that a method and the function it is proved against cannot both be wrong in
  the same way.

## What turned out to be different from what one would expect

* `EventQueue.OvertakesPending`: an event added while others are pending overtakes them
  (`EventQueue.OvertakingHappens`). If all events differ, order holds in exactly the other runs
  (`EventQueue.InOrderExactlyIfQuiet`).
* `EventQueue.StrandedExactly`: `addEvent` reads readiness and pushes to the pending events in two actions. What
  is pushed after the loop has found nothing pending is never delivered (`EventQueue.StrandingHappens`); nothing
  else is lost, and nothing is duplicated.
* `ServerProxy.MessageKeepsStep`: a move of one kind overtakes a held move of the other kind, and the cursor
  then ends up elsewhere, unless the displacement is zero. `ServerProxy.CompressionRefinesExactly` says for
  every run whether this shows, and `ServerProxy.OvertakingMisplacesCursor` gives one in which it does.
* A round that ends in a disconnect request is not flushed, and what it held can be forwarded later although
  moves are ignored by then: exactly in the runs of `ServerProxy.ForwardedExactlyWhenReleased`, of which
  `ServerProxy.HeldMoveSurvivesDisconnect` is one.
* `Unicode.RoundTrip`: the length of a string is cast to 32 bits, so text whose UTF-16 form reaches 2^32 bytes
  does not survive the round trip (`Unicode.LongTextIsLost`).
* `Mjpeg.CutStreamExactly`: a stream cut right behind a frame's header counts as a clean end; the reader's
  second read reports the same end of file as its first.
* `DragInformation.RoundTrip`: a base name with a newline breaks the list, and so does a list so long that its
  count does not fit 32 bits (`DragInformation.TooManyFiles`); nothing else does.
* `StringFormat.FormatExactly`: the number of placeholders is cast to `int`, so from 2^31 on they are not all
  substituted (`StringFormat.TooManyPlaceholders`).
* `FileReceiver.DeliveryPlacesFile`: when all 10000 names are taken a received file overwrites an existing one
  (`FileReceiver.FullDirectoryIsOverwritten`).
* `ClientApp.UnresolvedServerInheritsCount`: the number of addresses of a name that cannot be resolved is taken
  from an earlier attempt, so such a server is tried several times in a row exactly if that number is more than
  one.
* `Client.EveryAttemptAnswered`: suspending without a connection announces a disconnection.
* `Stopwatch.h` says that a triggered stopwatch shows zero until its first read; the code shows the time stored
  when it was stopped (`Timers.Stopwatch.SetTrigger`).
* A clipboard's start and data messages may carry any valid id: the id of the end message decides
  (`ClipboardChunk.Receiver.SetClipboard`).
* A comment in `vformat` suspects the backward step over a bad index. It does no harm: the characters it skips
  are white space, a sign and digits, and the scan always moves on (`StringFormat.Vformat`).

## Model

| member | source | states |
|---|---|---|
| `Utf8.ToUTF8` | engine/src/src/lib/base/Unicode.cpp:398-445 | appends exactly the shortest form of the character, or of U+FFFD when it is a surrogate or needs 32 bits; the error flag is raised in just those two cases and never cleared |
| `Utf8.FromUTF8` | engine/src/src/lib/base/Unicode.cpp:244-396 | returns the character and the length that the declarative step `DecodeOne` gives (announced length, extent of continuation bytes, payload, shortest form, legality), without reading past the end |
| `Utf8.Truncate` | engine/src/src/lib/base/Unicode.cpp:329-368 | the fallthrough chain finds the longest prefix of continuation bytes, and reports a truncation exactly if that is shorter than announced |
| `Utf8.Extract` | engine/src/src/lib/base/Unicode.cpp:291-327 | the bit packing of each of the six lengths is the positional value of the payload bits |
| `Utf8.PayloadFits` | engine/src/src/lib/base/Unicode.cpp:291-327 | an n-byte sequence never carries more bits than n bytes can hold, so no length overflows 32 bits |
| `Utf8.DecodeEncoded` | engine/src/src/lib/base/Unicode.cpp:244-445 | decoding an encoded character, whatever bytes follow, gives the character back and uses up exactly its bytes; 0xFFFE and 0xFFFF are the only encodable characters that do not come back |
| `Utf8.DecodedWasEncoded` | engine/src/src/lib/base/Unicode.cpp:244-396 | whatever is decoded came from exactly the bytes the encoder writes for it: only the shortest form is accepted and decoding is injective |
| `Utf8.Resynchronises` | engine/src/src/lib/base/Unicode.cpp:249-378 | one to six bytes are used up, never more than there are; a byte that could start the next character is used up only when the announced length exceeds what is left, and then everything left is |
| `Utf8.Forms` | engine/src/src/lib/base/Unicode.cpp:398-445 | the bytes of each of the six forms carry the bits of the character as the table of section 2 of RFC 2279 has them |
| `Utf8.DecodeSteps` | engine/src/src/lib/base/Unicode.cpp:249-378 | for all bytes: what starts nothing goes alone, a sequence is used up as far as its bytes fit together, an incomplete one at the end altogether, and all of these are invalid |
| `Utf8.LegalExactly` | engine/src/src/lib/base/Unicode.cpp:380-395 | what comes back for each encodable character: itself, but for surrogates, 0xFFFE and 0xFFFF |
| `Utf8.Replaced` | engine/src/src/lib/base/Unicode.cpp:398-410 | for each 32-bit value: surrogates and what needs 32 bits are written as the bytes of U+FFFD, everything else as itself |
| `Unicode.IsUTF8` | engine/src/src/lib/base/Unicode.cpp:55-65 | true exactly if the characters read from the string contain no malformed piece; the length is cast to 32 bits first |
| `Unicode.AcceptedIffEncoding` | engine/src/src/lib/base/Unicode.cpp:55-65 | `isUTF8` accepts exactly the strings that are encodings of lists of legal characters |
| `Unicode.EncodedOfChars` | engine/src/src/lib/base/Unicode.cpp:55-65 | accepted text is the encoding of the characters read from it |
| `Unicode.CharsOfEncoded` | engine/src/src/lib/base/Unicode.cpp:244-445 | encoded text is read back character by character, except 0xFFFE and 0xFFFF |
| `Unicode.UTF8ToUTF16` | engine/src/src/lib/base/Unicode.cpp:94-127 | writes the little-endian units of the repaired characters, and fails exactly if a character lies beyond the seventeen planes (a malformed piece is replaced silently) |
| `Unicode.AppendUnits` | engine/src/src/lib/base/Unicode.cpp:114-123 | appends one unit or a surrogate pair, little-endian |
| `Unicode.DoUTF16ToUTF8` | engine/src/src/lib/base/Unicode.cpp:185-242 | writes the encoding of the text, and raises the error flag exactly if the units after an optional byte-order mark are not well-formed UTF-16, in either byte order |
| `Unicode.UTF16ToUTF8` | engine/src/src/lib/base/Unicode.cpp:139-147 | the same for a whole string, with half as many units as bytes |
| `Unicode.SkipMark` | engine/src/src/lib/base/Unicode.cpp:191-207 | an optional byte-order mark is skipped and decides the byte order |
| `Unicode.ConvertUnit` | engine/src/src/lib/base/Unicode.cpp:212-238 | one round of the loop: the character, the units used up, and the error |
| `Unicode.TextForms` | engine/src/src/lib/base/Unicode.cpp:212-238 | what is read from units: themselves, pairs by section 2.1 of RFC 2781; an unpaired high unit takes the unit behind it with it, and becomes U+FFFD like a lone low one or a high one at the end |
| `Unicode.UnitForms` | engine/src/src/lib/base/Unicode.cpp:114-123 | the bytes written for a character |
| `Unicode.PieceForms` | engine/src/src/lib/base/Unicode.cpp:94-127 | a malformed piece of UTF-8 becomes U+FFFD silently, a character beyond the planes becomes U+FFFD with an error |
| `Unicode.MarkForms` | engine/src/src/lib/base/Unicode.cpp:191-207 | which bytes are a byte-order mark, and the units behind it in either order |
| `Unicode.WellFormedStep` | engine/src/src/lib/base/Unicode.cpp:212-238 | judging well-formedness round by round is the same as judging it position by position |
| `Unicode.TextOfUnits` | engine/src/src/lib/base/Unicode.cpp:94-242 | the units written for a text are well-formed and are read back as that text |
| `Unicode.UnitsOfSerialized` | engine/src/src/lib/base/Unicode.cpp:114-123 | units written little-endian are read back unchanged |
| `Unicode.BodyOfSerialized` | engine/src/src/lib/base/Unicode.cpp:191-207 | of what was written, exactly a leading U+FEFF is taken for a byte-order mark |
| `Unicode.ThereAndBack` | engine/src/src/lib/base/Unicode.cpp:94-242 | to UTF-16 and back, for every byte string, both calls with their length casts: the text is repaired, a leading U+FEFF is lost, and the way back does not fail, if and only if the UTF-16 form has fewer than 2^32 bytes |
| `Unicode.RoundTrip` | engine/src/src/lib/base/Unicode.cpp:94-242 | for every byte string: to UTF-16 and back, both calls with their length casts, is the identity with neither error flag raised, if and only if the string passes `isUTF8`, has no character from 0x110000 on, does not start with U+FEFF, and has fewer than 2^32 bytes in either form |
| `Unicode.LongTextIsLost` | engine/src/src/lib/base/Unicode.cpp:94-147 | a witness for the last condition: 2^31 plain letters come back as the empty string, without an error |
| `Unicode.OutputAccepted` | engine/src/src/lib/base/Unicode.cpp:55-147 | `isUTF8` accepts the output of `UTF16ToUTF8`, both with their length casts, if and only if the cast of the output length falls between two characters and no decoded unit before it is 0xFFFE or 0xFFFF; below 2^32 bytes it always falls behind the last one |
| `EventQueue.Table.SaveKeepsValid` | engine/src/src/lib/base/EventQueue.cpp:322-338 | the id chosen is not in use, so no live event is overwritten; ids in use and ids to recycle stay disjoint and together 0, 1, ... without a gap |
| `EventQueue.Table.RemoveKeepsValid` | engine/src/src/lib/base/EventQueue.cpp:340-356 | the same for removing |
| `EventQueue.Table.RemoveUndoesSave` | engine/src/src/lib/base/EventQueue.cpp:215-228 | removing what was just saved restores the events and hands out the same id next |
| `EventQueue.StepKeepsConsistent` | engine/src/src/lib/base/EventQueue.cpp:82-163 | after every step of any interleaving at lock granularity, the live ids are exactly those buffered, in flight or about to be pushed, each once |
| `EventQueue.StepKeepsOrder` | engine/src/src/lib/base/EventQueue.cpp:52-228 | what has left the queue followed by what is waiting stays the list of events added, in order, if the step is quiet |
| `EventQueue.StepOrderExactly` | engine/src/src/lib/base/EventQueue.cpp:52-228 | for an event that is not pending already: a step keeps the order if and only if it is quiet, that is, adds no event directly while another is pending; and what is out of order stays so |
| `EventQueue.FirstInFirstOut` | engine/src/src/lib/base/EventQueue.cpp:52-228 | in every quiet run, that is, one in which no event is added directly while another is pending, the events delivered are, in order, the first ones added and the rest wait in order; none is discarded unless a buffer is adopted |
| `EventQueue.InOrderExactlyIfQuiet` | engine/src/src/lib/base/EventQueue.cpp:52-228 | in every run whose events all differ, first in is first out if and only if the run is quiet |
| `EventQueue.OvertakesPending` | engine/src/src/lib/base/EventQueue.cpp:192-228 | a producer that adds while older events are pending keeps the order if and only if the pending events cannot be told from its own |
| `EventQueue.OvertakingHappens` | engine/src/src/lib/base/EventQueue.cpp:52-213 | a witness: of two different events, one added before the loop is ready and one just after, the later one comes first |
| `EventQueue.ExactlyOnce` | engine/src/src/lib/base/EventQueue.cpp:52-228 | in every run, quiet or not and across adoptions, every event added is delivered or discarded once or still waits (for ever, if it is stranded) |
| `EventQueue.StrandedExactly` | engine/src/src/lib/base/EventQueue.cpp:52-73 | producers read readiness and push to the pending events in two actions: in every run, the events that are left pending for good are exactly those pushed after the loop has found nothing pending, in order |
| `EventQueue.NotYetStranded` | engine/src/src/lib/base/EventQueue.cpp:52-66 | until that moment all pending events can still be saved |
| `EventQueue.StrandingHappens` | engine/src/src/lib/base/EventQueue.cpp:52-213 | a witness: an event pushed too late stays behind while one added after it is delivered |
| `EventQueue.OnlyAdoptDiscards` | engine/src/src/lib/base/EventQueue.cpp:82-107 | only adopting a buffer discards events |
| `EventQueue.Buffer.AddEvent` | engine/src/src/lib/base/SimpleEventQueueBuffer.cpp:57-66 | ids enter at the front |
| `EventQueue.Buffer.GetEvent` | engine/src/src/lib/base/SimpleEventQueueBuffer.cpp:45-55 | the oldest id leaves; nothing leaves an empty buffer |
| `EventQueue.Buffer.IsEmpty` | engine/src/src/lib/base/SimpleEventQueueBuffer.cpp:68-72 | the ready flag tells whether ids are waiting |
| `EventQueue.EventQueue.SaveEvent` | engine/src/src/lib/base/EventQueue.cpp:322-338 | the last recycled id, else the number of events, gets the event |
| `EventQueue.EventQueue.RemoveEvent` | engine/src/src/lib/base/EventQueue.cpp:340-356 | takes the event out and recycles its id; an unknown id changes nothing |
| `EventQueue.EventQueue.AddEventToBuffer` | engine/src/src/lib/base/EventQueue.cpp:215-228 | is the two steps save and push |
| `EventQueue.EventQueue.AddEvent` | engine/src/src/lib/base/EventQueue.cpp:192-213 | reserved types are dropped, immediate events dispatched, early ones kept pending, others saved and pushed |
| `EventQueue.EventQueue.StartLoop` | engine/src/src/lib/base/EventQueue.cpp:52-66 | moves all pending events into the buffer without changing the order of what waits, and then does not look at the pending ones again |
| `EventQueue.EventQueue.FetchEvent` | engine/src/src/lib/base/EventQueue.cpp:136-157 | fetches the oldest waiting event, and leaves the others in order |
| `EventQueue.EventQueue.AdoptBuffer` | engine/src/src/lib/base/EventQueue.cpp:82-107 | drops saved events and recycled ids, and takes the new buffer |
| `PriorityQueue.HeadIsLeast` | engine/src/src/lib/base/PriorityQueue.h:108-111 | the head of a heap is one of its least elements |
| `PriorityQueue.Rise` | engine/src/src/lib/base/PriorityQueue.h:46-50 | swapping a hole with its parent keeps the heap property elsewhere |
| `PriorityQueue.Sink` | engine/src/src/lib/base/PriorityQueue.h:53-64 | swapping a hole with its lesser child keeps the heap property elsewhere |
| `PriorityQueue.SiftUp` | engine/src/src/lib/base/PriorityQueue.h:46-50 | restores the heap after an element is appended, keeping the elements |
| `PriorityQueue.SiftDown` | engine/src/src/lib/base/PriorityQueue.h:53-64 | restores the heap below a hole, keeping the elements |
| `PriorityQueue.MakeHeap` | engine/src/src/lib/base/PriorityQueue.h:60-64 | turns any sequence into a heap of the same elements |
| `PriorityQueue.PriorityQueue.Push` | engine/src/src/lib/base/PriorityQueue.h:46-50 | stays a heap; exactly the new element is added |
| `PriorityQueue.PriorityQueue.Pop` | engine/src/src/lib/base/PriorityQueue.h:53-57 | stays a heap; exactly the head is removed |
| `PriorityQueue.PriorityQueue.Erase` | engine/src/src/lib/base/PriorityQueue.h:60-64 | stays a heap; exactly the element named is removed |
| `Timers.Stopwatch.Reset` | engine/src/src/lib/base/Stopwatch.cpp:22-34 | reports the elapsed time and starts again from zero, running or not |
| `Timers.Stopwatch.Stop` | engine/src/src/lib/base/Stopwatch.cpp:36-45 | freezes the elapsed time |
| `Timers.Stopwatch.Start` | engine/src/src/lib/base/Stopwatch.cpp:47-57 | goes on from the elapsed time |
| `Timers.Stopwatch.SetTrigger` | engine/src/src/lib/base/Stopwatch.cpp:59-63 | stops, keeping the elapsed time, until first read |
| `Timers.Stopwatch.GetTime` | engine/src/src/lib/base/Stopwatch.cpp:65-76 | reports the elapsed time; the first read of a triggered stopwatch starts it |
| `Timers.FiringConserves` | engine/src/src/lib/base/EventQueue.cpp:475-482 | at every firing the count is at least one, and P times the sum of counts is at most the time since creation, which is less than P times that sum plus one per firing |
| `Timers.RunKeeps` | engine/src/src/lib/base/EventQueue.cpp:230-277 | these bounds hold for every timer throughout every run of creations, deletions and firings |
| `Timers.BookForms` | engine/src/src/lib/base/EventQueue.cpp:230-277 | the deadline table: what is created is what was asked for, and deleting and firing leave all other timers alone |
| `Timers.NoFireAfterEnd` | engine/src/src/lib/base/EventQueue.cpp:358-396 | in every run no timer fires after it was deleted and a one-shot timer fires at most once |
| `Timers.GoneForGood` | engine/src/src/lib/base/EventQueue.cpp:264-277 | a timer that is gone never fires again |
| `Timers.HeapDown` | engine/src/src/lib/base/EventQueue.cpp:367-374 | subtracting the same time from all countdowns keeps the heap order |
| `Timers.RepresentsDown` | engine/src/src/lib/base/EventQueue.cpp:367-374 | after the subtraction every countdown, less what the stopwatch shows, is still deadline minus now, and each timer is in the heap once |
| `Timers.HeadIsEarliest` | engine/src/src/lib/base/EventQueue.cpp:358-396 | the head of the heap is the timer with the earliest absolute deadline |
| `Timers.FireTracks` | engine/src/src/lib/base/EventQueue.cpp:381-396 | popping the head and pushing it back with a full period is what firing means in the deadline table |
| `Timers.TimerQueue.NewTimer` | engine/src/src/lib/base/EventQueue.cpp:230-262 | creates the timer in the deadline table, targeted at itself by default |
| `Timers.TimerQueue.AddTimer` | engine/src/src/lib/base/EventQueue.cpp:230-262 | the countdown pushed makes up for what the stopwatch already shows |
| `Timers.TimerQueue.DeleteTimer` | engine/src/src/lib/base/EventQueue.cpp:264-277 | deletes exactly that timer from the deadline table |
| `Timers.TimerQueue.CountDown` | engine/src/src/lib/base/EventQueue.cpp:367-374 | every countdown shrinks by what the stopwatch shows, which restarts |
| `Timers.TimerQueue.HasTimerExpired` | engine/src/src/lib/base/EventQueue.cpp:358-396 | reports a timer if and only if the earliest absolute deadline has passed, and reports that timer with its target and count |
| `Timers.TimerQueue.FillEvent` | engine/src/src/lib/base/EventQueue.cpp:475-482 | a timer that is due counts at least one, and exactly the number of whole periods that fit into the time since it was last set; one that is not due counts none |
| `Timers.PeriodsAreFloor` | engine/src/src/lib/base/EventQueue.cpp:475-482 | exactly one number of whole periods fits into a time: the floor of the quotient |
| `Timers.TimerQueue.GetNextTimerTimeout` | engine/src/src/lib/base/EventQueue.cpp:398-410 | -1 without timers, 0 when one is due, else the time from the last reset of the stopwatch to the earliest deadline |
| `Client.StepKeepsSound` | engine/src/src/lib/client/Client.cpp:532-832 | every handler, from every state, keeps: objects distinct and older than the next one, suspended without a stream, connect-on-resume only while suspended |
| `Client.StagesExactly` | engine/src/src/lib/client/Client.cpp:95-809 | from every sound state: an attempt gets under way, the socket connects, the client goes online in just the steps that should lead there; online only by a greeting of the right protocol and version |
| `Client.WrongHelloFails` | engine/src/src/lib/client/Client.cpp:754-781 | any other greeting leaves nothing but one failure told |
| `Client.EndingsExactly` | engine/src/src/lib/client/Client.cpp:147-171 | which steps end an attempt or a connection, and exactly which notice the owner gets for each |
| `Client.SleepExactly` | engine/src/src/lib/client/Client.cpp:811-832 | which steps put the client to sleep and wake it, what it remembers, and the notice of falling asleep |
| `Client.AttemptForms` | engine/src/src/lib/client/Client.cpp:95-145 | an attempt that does not get under way fails at once; one that is asked for while asleep is remembered, and one while there is a stream is nothing |
| `Client.AlarmForms` | engine/src/src/lib/client/ServerProxy.cpp:358-370 | the alarm asks for a disconnect with a message, and does nothing else |
| `Client.ProxyHandlers` | engine/src/src/lib/client/ServerProxy.cpp:31-65 | the handlers that exist exactly while there is a proxy |
| `Client.ActForms` | engine/src/src/lib/client/ServerProxy.cpp:74-91 | a keep-alive sets the alarm anew if it is on, a rate turns it on or off, the first options make the client ready and tell so, requests are queued |
| `Client.RunKeepsSound` | engine/src/src/lib/client/Client.cpp:532-832 | the same for every sequence of events |
| `Client.StepBalance` | engine/src/src/lib/client/Client.cpp:147-171 | one step: endings told plus active attempts account for attempts started, except for going to sleep unconnected and refusals without a message |
| `Client.EveryAttemptAnswered` | engine/src/src/lib/client/Client.cpp:147-171 | in every run the owner is told of exactly one ending for each attempt started and over, plus one for each time the machine goes to sleep unconnected, less refusals without a message |
| `Client.Client.FieldInvariants` | engine/src/src/lib/client/Client.cpp:532-832 | timer exists if and only if stream exists and proxy does not; proxy implies stream; ready implies proxy; suspended implies no stream; connect-on-resume implies suspended; the handler table has no entry for an object that is destroyed |
| `Client.Client.Connect` | engine/src/src/lib/client/Client.cpp:95-145 | an attempt as far as it gets, with everything cleaned up when it fails; does nothing while there is a stream and is remembered while suspended |
| `Client.Client.SetupConnecting` | engine/src/src/lib/client/Client.cpp:532-548 | registers just the handlers of an attempt |
| `Client.Client.SetupConnection` | engine/src/src/lib/client/Client.cpp:550-572 | registers just the handlers of a connection |
| `Client.Client.SetupScreen` | engine/src/src/lib/client/Client.cpp:574-586 | its assertion holds: there is no proxy yet; creates the proxy and the screen handlers |
| `Client.Client.SetupTimer` | engine/src/src/lib/client/Client.cpp:588-593 | its assertion holds: there is no timer yet; creates the timer and its handler |
| `Client.Client.CleanupConnecting` | engine/src/src/lib/client/Client.cpp:604-611 | removes just the handlers of an attempt |
| `Client.Client.CleanupConnection` | engine/src/src/lib/client/Client.cpp:613-625 | removes the handlers of a connection and destroys the stream |
| `Client.Client.CleanupScreen` | engine/src/src/lib/client/Client.cpp:627-639 | destroys the proxy with its own handlers and alarm, and removes the screen handlers |
| `Client.Client.CleanupTimer` | engine/src/src/lib/client/Client.cpp:641-648 | destroys the timer and its handler |
| `Client.Client.CleanupStream` | engine/src/src/lib/client/Client.cpp:650-654 | destroys the stream |
| `Client.Client.Cleanup` | engine/src/src/lib/client/Client.cpp:595-602 | leaves no object and no handler of a connection |
| `Client.Client.HandleConnected` | engine/src/src/lib/client/Client.cpp:656-668 | the attempt becomes a connection that waits for the greeting |
| `Client.Client.HandleConnectionFailed` | engine/src/src/lib/client/Client.cpp:670-680 | everything is cleaned up and the failure told |
| `Client.Client.HandleConnectTimeout` | engine/src/src/lib/client/Client.cpp:682-690 | the same when the timer runs out, before or during the greeting |
| `Client.Client.HandleOutputError` | engine/src/src/lib/client/Client.cpp:692-699 | everything is cleaned up and the disconnection told |
| `Client.Client.HandleDisconnected` | engine/src/src/lib/client/Client.cpp:701-708 | the same when the other side hangs up |
| `Client.Client.HandleDisconnectRequested` | engine/src/src/lib/client/Client.cpp:710-723 | disconnects or refuses as the proxy asked, and forgets connecting on resume |
| `Client.Client.HandleHello` | engine/src/src/lib/client/Client.cpp:754-809 | a good greeting replaces the timer by a proxy; a bad one is a failure |
| `Client.Client.HandleSuspend` | engine/src/src/lib/client/Client.cpp:811-820 | disconnects, and remembers whether there was a proxy |
| `Client.Client.HandleResume` | engine/src/src/lib/client/Client.cpp:822-832 | connects again if that was remembered |
| `Client.Client.Disconnect` | engine/src/src/lib/client/Client.cpp:147-156 | cleans up; a message makes it a failure |
| `Client.Client.RefuseConnection` | engine/src/src/lib/client/Client.cpp:158-171 | cleans up; without a message nobody is told |
| `Client.Client.HandshakeComplete` | engine/src/src/lib/client/Client.cpp:173-181 | ready, once |
| `Client.Client.NewProxy` | engine/src/src/lib/client/ServerProxy.cpp:31-57 | the proxy registers its handlers and sets its alarm |
| `Client.Client.DeleteProxy` | engine/src/src/lib/client/ServerProxy.cpp:59-65 | the proxy removes exactly what it registered |
| `Client.Client.ResetKeepAliveAlarm` | engine/src/src/lib/client/ServerProxy.cpp:74-85 | the alarm timer is replaced together with its handler |
| `Client.Client.HandleData` | engine/src/src/lib/client/ServerProxy.cpp:93-137 | a round of messages keeps the connection's objects and handlers in step |
| `Client.Client.HandleKeepAliveAlarm` | engine/src/src/lib/client/ServerProxy.cpp:358-370 | asks for a disconnect through the queue |
| `Client.Client.Dispatch` | engine/src/src/lib/client/Client.cpp:532-832 | every event that has a handler finds what the handler needs, and does what the life cycle says; every other event does nothing |
| `Client.Client.Run` | engine/src/src/lib/client/Client.cpp:95-832 | the fields and the handler table follow the life cycle through every run |
| `ServerProxy.ServerProxy.FlushCompressedMouse` | engine/src/src/lib/client/ServerProxy.cpp:404-416 | forwards the held moves, absolute before relative, and holds nothing |
| `ServerProxy.ServerProxy.MouseMove` | engine/src/src/lib/client/ServerProxy.cpp:704-735 | forwards, holds or ignores an absolute move, and drops held displacement when holding |
| `ServerProxy.ServerProxy.MouseRelativeMove` | engine/src/src/lib/client/ServerProxy.cpp:737-765 | forwards, adds up or ignores a relative move |
| `ServerProxy.ServerProxy.Entering` | engine/src/src/lib/client/ServerProxy.cpp:529-550 | discards held moves |
| `ServerProxy.ServerProxy.ParseMessage` | engine/src/src/lib/client/ServerProxy.cpp:221-356 | one message; keys, buttons, the wheel and leaving flush first |
| `ServerProxy.ServerProxy.HandleData` | engine/src/src/lib/client/ServerProxy.cpp:93-137 | a round of messages, flushed at its end unless a disconnect was asked for |
| `ServerProxy.ServerProxy.OnInfoChanged` | engine/src/src/lib/client/ServerProxy.cpp:379-387 | moves are ignored from now on |
| `ServerProxy.FlushDelivers` | engine/src/src/lib/client/ServerProxy.cpp:404-416 | a flush moves the cursor by exactly what was held: the last absolute position and the total displacement since |
| `ServerProxy.MoveForms` | engine/src/src/lib/client/ServerProxy.cpp:704-765 | a move is forwarded at once if none of its kind is held and nothing follows, dropped if moves are ignored and none is held, and held otherwise, with what is kept of it |
| `ServerProxy.OtherForms` | engine/src/src/lib/client/ServerProxy.cpp:404-416 | a barrier lets through what is held, the position before the displacement; an entry discards it; an acknowledgment ends ignoring |
| `ServerProxy.MessageKeepsStep` | engine/src/src/lib/client/ServerProxy.cpp:404-765 | one message keeps compressed and plain forwarding in step, if and only if no move of one kind overtakes a held non-zero displacement of the other |
| `ServerProxy.MessagesKeepStep` | engine/src/src/lib/client/ServerProxy.cpp:404-765 | the same over any list of messages in which no overtaking makes a difference |
| `ServerProxy.OneKindIsTidy` | engine/src/src/lib/client/ServerProxy.cpp:704-765 | nothing overtakes on stretches between barriers that have only absolute or only relative moves |
| `ServerProxy.OneKindRunIsTidy` | engine/src/src/lib/client/ServerProxy.cpp:93-137 | the same for whole runs of rounds |
| `ServerProxy.CompressionRefinesForwarding` | engine/src/src/lib/client/ServerProxy.cpp:93-137 | in every such run, for any readiness answers, compressed forwarding shows the same as plain forwarding: the same other calls in the same order, the cursor at the same place at every barrier and at the end of every round |
| `ServerProxy.MessageGap` | engine/src/src/lib/client/ServerProxy.cpp:404-765 | every message, overtaking or not: how far apart the two cursors are afterwards, and that a barrier is seen at the same place if and only if they are not apart |
| `ServerProxy.CompressionRefinesExactly` | engine/src/src/lib/client/ServerProxy.cpp:93-137 | in any run without a disconnect request compressed forwarding shows the same as plain forwarding if and only if no barrier is met while the cursors are apart and they are not apart in the end |
| `ServerProxy.OvertakingMisplacesCursor` | engine/src/src/lib/client/ServerProxy.cpp:704-765 | a witness: a held displacement overtaken by an absolute move puts the cursor where the server did not |
| `ServerProxy.IgnoredMovesAreDropped` | engine/src/src/lib/client/ServerProxy.cpp:704-765 | no message forwards a move while moves are ignored |
| `ServerProxy.NoMoveUntilAcknowledged` | engine/src/src/lib/client/ServerProxy.cpp:379-387 | after any run without a disconnect request, once moves are ignored none is forwarded until the server acknowledges, through any number of rounds |
| `ServerProxy.ForwardedExactlyWhenReleased` | engine/src/src/lib/client/ServerProxy.cpp:93-137 | while moves are ignored, for every state and every run without an acknowledgment: a move is forwarded if and only if one is held and the run releases it, that is, a barrier or the end of a round that asks for no disconnect comes before the first entry |
| `ServerProxy.HeldMoveSurvivesDisconnect` | engine/src/src/lib/client/ServerProxy.cpp:93-137 | a witness for `ForwardedExactlyWhenReleased`: a run that asks for a disconnect leaves a held move, which is forwarded although moves are ignored |
| `ServerProxy.RunKeepsSane` | engine/src/src/lib/client/ServerProxy.cpp:93-137 | a run without a disconnect request ends with nothing held back |
| `Numbers.ScanExact` | engine/src/src/lib/base/String.cpp:50 | a number is scanned exactly where the text has white space, at most one sign, and digits with no digit behind |
| `Numbers.ScanPrinted` | engine/src/src/lib/deskflow/DragInformation.cpp:30 | a printed number is scanned back, and scanning stops right behind it |
| `Numbers.DecimalCanonical` | engine/src/src/lib/deskflow/DragInformation.cpp:30 | no leading zeros |
| `Numbers.DecimalUnique` | engine/src/src/lib/deskflow/DragInformation.cpp:30 | there is no other text of digits without leading zeros for a number |
| `Numbers.PlaceValue` | engine/src/src/lib/base/String.cpp:50 | digits count by their place |
| `Numbers.CharForms` | engine/src/src/lib/base/String.cpp:50 | white space and digits |
| `StringFormat.Vformat` | engine/src/src/lib/base/String.cpp:28-104 | for every format and enough arguments, locating and substituting yields the one-pass rendering of as many placeholders as the cast of their number to `int` lets through; `NthArgument` says which argument each one is |
| `StringFormat.FormatExactly` | engine/src/src/lib/base/String.cpp:86-101 | that is the whole one-pass rendering if and only if the placeholders left out make no difference, and always below 2^31 placeholders |
| `StringFormat.TooManyPlaceholders` | engine/src/src/lib/base/String.cpp:86-101 | a witness: 2^31 doubled percent signs come out as they are |
| `StringFormat.Locate` | engine/src/src/lib/base/String.cpp:30-70 | terminates and records exactly the placeholders of the format with their widths and indices, and the highest index |
| `StringFormat.FirstExact` | engine/src/src/lib/base/String.cpp:36-66 | a placeholder is recorded exactly where the text reads `%%`, or `%{`, then nothing or an optionally signed number that is not negative and fits a long, then `}` |
| `StringFormat.SpansDisjoint` | engine/src/src/lib/base/String.cpp:30-70 | the recorded spans are increasing, disjoint, inside the format, and each is a placeholder |
| `StringFormat.EnoughForAll` | engine/src/src/lib/base/String.cpp:72-81 | there are enough arguments exactly if none of the recorded indices exceeds their number |
| `StringFormat.CopyToNext` | engine/src/src/lib/base/String.cpp:92-101 | between placeholders the text is copied as it is |
| `StringFormat.PrintedFormats` | engine/src/src/lib/base/String.cpp:28-104 | formatting undoes printing: for every template of texts and numbered arguments, written with `%%` and `%{n}`, each part comes out as itself or as its argument |
| `StringFormat.NthArgument` | engine/src/src/lib/base/String.cpp:72-101 | `%{n}` is replaced by the n-th argument, counted from one |
| `StringFormat.PercentSigns` | engine/src/src/lib/base/String.cpp:42-66 | `%%`, `%{0}` and `%{}` all come out as a percent sign |
| `StringFormat.IndexForms` | engine/src/src/lib/base/String.cpp:47-64 | which numbers between the braces make a placeholder |
| `StringFormat.CastForms` | engine/src/src/lib/base/String.cpp:86 | the cast of the number of placeholders is the 32-bit number that is the same modulo 2^32 |
| `StringFormat.RenderEscaped` | engine/src/src/lib/base/String.cpp:28-104 | text with its percent signs doubled comes out as it was |
| `Mjpeg.SplitMJPEG` | cmd/deskbridge/screen.go:149-184 | writes exactly the images of the stream, in order, up to the first one that is too long, and fails exactly if there is such a one |
| `Mjpeg.FramesAreImages` | cmd/deskbridge/screen.go:149-184 | everything cut out is an image: a start marker, and the first end marker at least two bytes behind it at its very end |
| `Mjpeg.NextFrame` | cmd/deskbridge/screen.go:149-184 | the next frame goes from the next start marker to the first end marker at least two bytes behind it, and the search goes on behind that |
| `Mjpeg.NoFrame` | cmd/deskbridge/screen.go:149-184 | there is no frame if there is no next start marker, or no end marker behind it |
| `Mjpeg.ImageForms` | cmd/deskbridge/screen.go:149-184 | the bytes an image starts and ends with, and that its end marker is not found before |
| `Mjpeg.ImagesAreSplit` | cmd/deskbridge/screen.go:149-184 | a stream of images is cut into exactly these images |
| `Mjpeg.WriteFrame` | cmd/deskbridge/screen.go:101-121 | writes the length and the payload in slices of at most 256 KiB; a frame over 16 MiB writes nothing and fails |
| `Mjpeg.FlatWrites` | cmd/deskbridge/screen.go:101-121 | joined, the writes are the frames, each behind its length |
| `Mjpeg.LengthOfHeader` | cmd/deskbridge/screen.go:105-106 | the length written is read back |
| `Mjpeg.LengthForms` | cmd/deskbridge/screen.go:129 | most significant byte first |
| `Mjpeg.HeaderOfLength` | cmd/deskbridge/screen.go:129 | the length read is the length written |
| `Mjpeg.ReadFrame` | cmd/deskbridge/screen.go:124-141 | returns the frame the stream starts with, or the exact reason why it starts with none |
| `Mjpeg.TroubleForms` | cmd/deskbridge/screen.go:124-141 | which streams are taken for ended, empty or too long |
| `Mjpeg.ReadScreenFrames` | cmd/deskbridge/screen.go:289-302 | returns the frames up to where no complete frame follows, and whether that counts as a clean end |
| `Mjpeg.ReadsBack` | cmd/deskbridge/screen.go:124-302 | what was written is read back, whatever incomplete frame follows |
| `Mjpeg.CutStream` | cmd/deskbridge/screen.go:124-302 | when the stream is cut anywhere, exactly the frames that were complete are read |
| `Mjpeg.CutStreamExactly` | cmd/deskbridge/screen.go:124-302 | the cut counts as a clean end if and only if it falls on a frame boundary of the stream or right behind a header |
| `Mjpeg.PipeDelivers` | cmd/deskbridge/screen.go:101-302 | for every byte stream, the viewer gets exactly the images before the first one that is too long, and a clean end |
| `Mjpeg.ImagesArrive` | cmd/deskbridge/screen.go:101-302 | a stream of images that fit arrives as these images |
| `DragInformation.SetupDragInfo` | engine/src/src/lib/deskflow/DragInformation.cpp:16-35 | prints the base names that are not empty and the sizes, and counts them in 32 bits |
| `DragInformation.TextForms` | engine/src/src/lib/deskflow/DragInformation.cpp:20-33 | the two lines of each file, and that files without a base name have none |
| `DragInformation.ParseDragInfo` | engine/src/src/lib/deskflow/DragInformation.cpp:37-75 | returns what pairs of complete lines announce, at most as many as asked for |
| `DragInformation.PairForms` | engine/src/src/lib/deskflow/DragInformation.cpp:41-72 | what two lines announce; a pair that announces nothing is passed over |
| `DragInformation.RoundTrip` | engine/src/src/lib/deskflow/DragInformation.cpp:16-75 | for every list: what is printed, with its 32-bit count, is read back as the base names and sizes in order, except "." and "..", if and only if no base name contains a newline and the count leaves out no entry to be received |
| `DragInformation.TooManyFiles` | engine/src/src/lib/deskflow/DragInformation.cpp:16-75 | a witness for the count: 2^32 files are announced as none |
| `DragInformation.ParsedArePlain` | engine/src/src/lib/deskflow/DragInformation.cpp:37-75 | whatever the text, at most as many files as announced come out, all with plain base names of one line |
| `DragInformation.TextReadsBack` | engine/src/src/lib/deskflow/DragInformation.cpp:16-75 | the text of entries without newlines is read back entry by entry |
| `DragInformation.TextReadsSome` | engine/src/src/lib/deskflow/DragInformation.cpp:37-75 | and as many of them as are asked for |
| `DragInformation.StoullOfDecimal` | engine/src/src/lib/deskflow/DragInformation.cpp:58 | every 64-bit size survives printing and parsing |
| `DragInformation.StoullForms` | engine/src/src/lib/deskflow/DragInformation.cpp:58 | digits up to 2^64, what a minus sign does, and what is an exception |
| `DragInformation.BaseName` | engine/src/src/lib/deskflow/DragInformation.cpp:24 | the part behind the last slash |
| `UniqueNames.CandidatesDiffer` | engine/src/src/lib/deskflow/FileReceiver.cpp:46-63 | the names tried are all different |
| `UniqueNames.CandidateText` | engine/src/src/lib/deskflow/FileReceiver.cpp:46-63 | the name itself, then the stem, the number in parentheses behind a space, and the extension |
| `UniqueNames.PathCandidate` | engine/src/src/lib/deskflow/FileReceiver.cpp:46-63 | for a received file the number goes in front of the last dot, unless that is the first character; without one to the end |
| `UniqueNames.GoCandidate` | cmd/deskbridge/clipboard.go:28-33 | for an upload the number goes in front of the last dot, wherever it is |
| `UniqueNames.RoomForOne` | engine/src/src/lib/deskflow/FileReceiver.cpp:46-63 | with fewer than 10000 names in the directory there is a free candidate |
| `UniqueNames.FewNamesLeaveOneFree` | engine/src/src/lib/deskflow/FileReceiver.cpp:46-63 | if the first n candidates are taken there are at least n files, so a directory with fewer than 10000 has a free one |
| `UniqueNames.PathSplit` | engine/src/src/lib/deskflow/FileReceiver.cpp:48-50 | stem and extension, which are the name again; there is an extension exactly if there is a dot behind the first character |
| `UniqueNames.GoSplit` | cmd/deskbridge/clipboard.go:28-29 | stem and extension; the last dot starts the extension wherever it is |
| `FileReceiver.FileReceiver.OnChunk` | engine/src/src/lib/deskflow/FileReceiver.cpp:65-138 | a chunk does what the transfer automaton says to the receiver and the directory |
| `FileReceiver.FileReceiver.UniquePath` | engine/src/src/lib/deskflow/FileReceiver.cpp:46-63 | the first free candidate (`NumberBeforeExtension`); the name itself if all 10000 are taken |
| `FileReceiver.NumberBeforeExtension` | engine/src/src/lib/deskflow/FileReceiver.cpp:46-63 | when the name itself is taken, the file goes where the first free number is put in front of the extension |
| `FileReceiver.FileReceiver.Reset` | engine/src/src/lib/deskflow/FileReceiver.cpp:140-154 | the temporary file is gone and nothing is active |
| `FileReceiver.FileReceiver.NextFinalName` | engine/src/src/lib/deskflow/FileReceiver.cpp:35-44 | the announced name whose turn it is, or the default name |
| `FileReceiver.HandleKeepsTidy` | engine/src/src/lib/deskflow/FileReceiver.cpp:65-154 | a temporary file exists exactly while a transfer is active, and holds what has been received, even if the directory is changed in between |
| `FileReceiver.DeliveryPlacesFile` | engine/src/src/lib/deskflow/FileReceiver.cpp:111-135 | a completed file goes where its name was free, holding what was received, and nothing else changes; if and only if all candidates are taken does it replace the file of its own name |
| `FileReceiver.FullDirectoryIsOverwritten` | engine/src/src/lib/deskflow/FileReceiver.cpp:46-138 | a witness: received into a directory in which all candidates are taken, a file replaces the one that was there |
| `FileReceiver.FilesStay` | engine/src/src/lib/deskflow/FileReceiver.cpp:65-138 | whenever files are announced, no run in which a name is free for each delivery touches a file that was there before, delivered or not, and every new file is a delivered one |
| `FileReceiver.RunTracks` | engine/src/src/lib/deskflow/FileReceiver.cpp:65-138 | a transfer is active exactly if a start mark is open; the temporary file then holds the data since |
| `FileReceiver.DeliveredExactly` | engine/src/src/lib/deskflow/FileReceiver.cpp:111-135 | a file is delivered if and only if an end mark closes an open start mark with the declared size or none declared, and holds exactly the data in between; no temporary file is left |
| `FileReceiver.AnnouncementIsServed` | engine/src/src/lib/client/Client.cpp:404-440 | after any announcement the k-th file completed gets the k-th announced name, except that a transfer under way at that moment takes the first place under the name it had; and the drag is started exactly once, when as many files as announced have arrived, with the places of all of them |
| `FileReceiver.AnnouncedNamesAreUsed` | engine/src/src/lib/deskflow/FileReceiver.cpp:35-44 | the announced names are used as they are |
| `FileReceiver.UnannouncedName` | engine/src/src/lib/deskflow/FileReceiver.cpp:35-44 | files beyond those announced all get the default name |
| `FileReceiver.DeclaredForms` | engine/src/src/lib/deskflow/FileReceiver.cpp:77-81 | the size that is checked is the one in the start mark; none if there is no number |
| `FileReceiver.NoDirectory` | engine/src/src/lib/deskflow/FileReceiver.cpp:69-72 | without a drop directory nothing is started |
| `FileReceiver.Client.DragInfoReceived` | engine/src/src/lib/client/Client.cpp:404-414 | sets up the receiver and empties the accumulator |
| `FileReceiver.Client.FileChunkReceived` | engine/src/src/lib/client/Client.cpp:416-440 | collects delivered paths and starts the drag |
| `ClipboardChunk.ClipboardChunk.Start` | engine/src/src/lib/deskflow/ClipboardChunk.cpp:37-50 | the layout of a start chunk |
| `ClipboardChunk.ClipboardChunk.Data` | engine/src/src/lib/deskflow/ClipboardChunk.cpp:52-65 | the layout of a data chunk |
| `ClipboardChunk.ClipboardChunk.End` | engine/src/src/lib/deskflow/ClipboardChunk.cpp:67-77 | the layout of an end chunk |
| `ClipboardChunk.ClipboardChunk.Send` | engine/src/src/lib/deskflow/ClipboardChunk.cpp:164-195 | sends back exactly the fields the chunk was made from |
| `ClipboardChunk.LayoutAt` | engine/src/src/lib/deskflow/ClipboardChunk.cpp:37-77 | every field is where sending looks for it |
| `ClipboardChunk.LittleForms` | engine/src/src/lib/deskflow/ClipboardChunk.cpp:37-45 | the bytes of the sequence number |
| `ClipboardChunk.Receiver.Assemble` | engine/src/src/lib/deskflow/ClipboardChunk.cpp:79-162 | one message does what the assembly automaton says |
| `ClipboardChunk.Receiver.SetClipboard` | engine/src/src/lib/client/ServerProxy.cpp:564-591 | a finished clipboard is forwarded whole under the id of its end message; an error asks for a disconnect |
| `ClipboardChunk.MessageKeepsBounded` | engine/src/src/lib/deskflow/ClipboardChunk.cpp:79-162 | while active, cached size, declared size and limit are in order; every error returns to the initial state |
| `ClipboardChunk.ResultForms` | engine/src/src/lib/deskflow/ClipboardChunk.cpp:79-162 | which result each message has in each state, and that every error returns to the initial state |
| `ClipboardChunk.FinishedExactly` | engine/src/src/lib/deskflow/ClipboardChunk.cpp:79-162 | from the initial state a clipboard is finished if and only if an end message follows a good start and only data messages of just the declared length, and then it is these data |
| `ClipboardChunk.RunTracks` | engine/src/src/lib/deskflow/ClipboardChunk.cpp:79-162 | the assembly is active exactly if a transfer is open, and holds its data |
| `ClipboardChunk.PayloadArrives` | engine/src/src/lib/deskflow/ClipboardChunk.cpp:25-195 | from any prior state, a payload within the limit arrives whole, however it is cut |
| `ClipboardChunk.Carry` | engine/src/src/lib/deskflow/ClipboardChunk.cpp:37-195 | the same from end to end: cut, put into chunks byte by byte, sent, received and forwarded under its id, without a disconnect |
| `ClipboardChunk.WouldExceed` | engine/src/src/lib/deskflow/ClipboardChunk.cpp:25-28 | the subtraction that avoids overflow decides whether the sum exceeds the limit |
| `ClientApp.ClientApp.HandleClientFailed` | engine/src/src/lib/deskflow/ClientApp.cpp:179-205 | next address, else next server, else a round more; one restart is scheduled with the delay of the counter before |
| `ClientApp.ClientApp.HandleClientRefused` | engine/src/src/lib/deskflow/ClientApp.cpp:207-221 | quits if no retry is allowed; else schedules and counts |
| `ClientApp.ClientApp.TryNextServer` | engine/src/src/lib/deskflow/ClientApp.cpp:368-374 | the next server in turn; the index stays in range |
| `ClientApp.ClientApp.RetryTime` | engine/src/src/lib/deskflow/ClientApp.cpp:391-406 | the delay of the last of the seven steps that the counter has reached: between one second and 300, and never shorter than for a lower counter |
| `ClientApp.DelayMonotone` | engine/src/src/lib/deskflow/ClientApp.cpp:391-406 | a higher counter never gives a shorter delay |
| `ClientApp.DelayForms` | engine/src/src/lib/deskflow/ClientApp.cpp:391-406 | the seven delays and their thresholds |
| `ClientApp.NextInOrder` | engine/src/src/lib/deskflow/ClientApp.cpp:368-374 | the server behind the last one is the first one |
| `ClientApp.ClientApp.HandleClientConnected` | engine/src/src/lib/deskflow/ClientApp.cpp:170-177 | back to the first server and address |
| `ClientApp.ClientApp.HandleClientDisconnected` | engine/src/src/lib/deskflow/ClientApp.cpp:223-231 | the counter restarts |
| `ClientApp.ClientApp.StartClient` | engine/src/src/lib/deskflow/ClientApp.cpp:273-289 | tries the current server and address; a name that cannot be resolved leaves the old count |
| `ClientApp.ClientApp.FailAlong` | engine/src/src/lib/deskflow/ClientApp.cpp:179-221 | any number of failing restarts |
| `ClientApp.RoundIsTried` | engine/src/src/lib/deskflow/ClientApp.cpp:179-221 | from the first server and address, failures go through one round in order, then start over with the counter one higher |
| `ClientApp.RoundsAreTried` | engine/src/src/lib/deskflow/ClientApp.cpp:179-221 | round follows round for ever, the 32-bit counter rising by one for each |
| `ClientApp.RoundHas` | engine/src/src/lib/deskflow/ClientApp.cpp:179-221 | every server has its turn at least once, and of each just the addresses that count for it |
| `ClientApp.RoundInOrder` | engine/src/src/lib/deskflow/ClientApp.cpp:179-221 | a round is in lexicographic order and repeats nothing |
| `ClientApp.RoundsRepeat` | engine/src/src/lib/deskflow/ClientApp.cpp:179-221 | all rounds from the second on are the same, and the first one too if every name can be resolved |
| `ClientApp.RetriesStand` | engine/src/src/lib/deskflow/ClientApp.cpp:179-221 | within a round the counter stands still |
| `ClientApp.DelayNeverShrinks` | engine/src/src/lib/deskflow/ClientApp.cpp:391-406 | the delay shrinks from one attempt to the next if and only if the 32-bit counter starts over |
| `ClientApp.DelayGrows` | engine/src/src/lib/deskflow/ClientApp.cpp:391-406 | over any run in which the counter does not start over, the delay never decreases |
| `ClientApp.DelayGrowsExactly` | engine/src/src/lib/deskflow/ClientApp.cpp:391-406 | from attempt to attempt of a run the delay never shrinks if and only if the counter does not start over or the delay is not dynamic |
| `ClientApp.RoundsHaveRoom` | engine/src/src/lib/deskflow/ClientApp.cpp:179-221 | it does not start over in as many rounds as are left to its end, however many attempts they take |
| `ClientApp.AfterLast` | engine/src/src/lib/deskflow/ClientApp.cpp:179-205 | the count a server is tried by is its own if its name can be resolved, else the one the servers before it have left |
| `ClientApp.UnresolvedServerInheritsCount` | engine/src/src/lib/client/Client.cpp:113 | for all counts: every server gets just the attempts it is due if and only if the count left before each server that cannot be resolved is at most one; any such server is tried as often as that count says |
| `ClientApp.ServersInARow` | engine/src/src/lib/client/Client.cpp:113 | witnesses of either case |
| `Upload.StepKeepsSound` | cmd/deskbridge/clipboard.go:14-42 | at every moment of any interleaving each upload owns its temporary and its final file, and no other file carries an upload's mark |
| `Upload.RunKeepsFiles` | cmd/deskbridge/clipboard.go:14-42 | in every run no file changes that was there before, whether a result or not |
| `Upload.ResultsAreDistinct` | cmd/deskbridge/clipboard.go:14-42 | uploads that succeed get different names, new ones, holding their own bytes |
| `Upload.NothingIsLeftBehind` | cmd/deskbridge/clipboard.go:19 | when all are done only results and other people's files remain |
| `Upload.FirstFreeIsTaken` | cmd/deskbridge/clipboard.go:30-41 | candidates are tried in order, and the one returned is the first whose link attempt found it free; an upload without a result found none free |
| `Upload.Directory.SaveUniqueUpload` | cmd/deskbridge/clipboard.go:14-42 | the loop is a run of the step system; alone it takes the first free candidate, adds exactly that file, and leaves no temporary one |

## Left out

- UCS-2 conversions of Unicode.cpp: simpler than the UTF-16 ones and on the same decoder.
- Big-endian builds and error flags that are null.
- Unicode.UTF16ToUTF8: an odd last byte is dropped, as the code does by halving the length.
- EventQueue: the handler table by target and type, `waitForEvent` and time limits of `processEvent`; the branch for a buffer that refuses an id, which the simple buffer never does (`EventQueue.Table.RemoveUndoesSave` is what it relies on); the branch for an unknown kind of buffered event; ids beyond 32 bits.
- EventQueue.EventQueue.AddEvent: an immediate event is only reported as dispatched; what its handler does is not modelled.
- EventQueue.FirstInFirstOut: is about quiet runs; `EventQueue.InOrderExactlyIfQuiet` shows that these are all, if events differ. Pushing to the pending events and moving one of them are each one step.
- PriorityQueue.SiftDown: restores the heap by its own order of swaps; the standard library's order of equal elements is not modelled.
- Timers: rounding of floating point, the 32-bit cast of counts, and the set of timer objects beside the heap.
- Client.EveryAttemptAnswered: also counts refusals without a message, which announce nothing; every refusal in ServerProxy.cpp has one.
- Client: clipboards and the hand-over of drags in the other direction, exceptions other than those of an attempt to connect, the network interface setting, and what the owner does on each notice (see `ClientApp.dfy`).
- ServerProxy: key and modifier translation, keyboard layouts, screen saver, options; displacements are not bounded to 32 bits.
- ServerProxy.CompressionRefinesForwarding: is about runs that do not ask for a disconnect and in which no overtaking makes a difference; `ServerProxy.CompressionRefinesExactly` covers the others that do not ask for a disconnect.
- StringFormat: the size reserved for the result, which is not its length; `strtol` follows the C library that leaves `errno` alone when there are no digits; `sprintf` and the caseless comparison.
- Mjpeg: errors of the underlying reader and writer other than the end of the stream, the capture process, and control events.
- DragInformation: `getDragFileExtension`; paths are POSIX paths.
- FileReceiver: failing file operations, links and case-insensitive directories, other programs writing into the directory, and byte counts beyond 64 bits.
- FileReceiver.FilesStay: is about runs in which no transfer finds all 10000 names taken, and files other than those with the name of a temporary file; what happens when all names are taken is stated by `FileReceiver.DeliveryPlacesFile`.
- FileReceiver.DeliveredExactly: is also about runs in which the directory is not changed in the middle of the transfer of a file that has the name of the temporary file.
- FileReceiver.AnnouncementIsServed: follows one announcement up to the next one.
- ClipboardChunk.PayloadArrives: holds for every reader of sizes that reads back what `std::to_string` prints; marshalling the clipboard itself and the 4-byte framing of messages are not part of this model.
- ClientApp.RoundsAreTried: the counts of resolved addresses stay the same during the run, and the client is not suspended.
- ClientApp: screens that cannot be opened, and the settings store.
- Upload.Directory.SaveUniqueUpload: no failing file operation when alone; failures at any point are steps of the system, which all other lemmas cover.
- `FileChunk.cpp`, `StreamChunker`, `ProtocolUtil`, the server side, sockets, TLS, the HTTP layer and the user interface: plumbing, foreign calls or repetitions of what is modelled.
