# Verified model of the kube-keepalived load balancer

A Dafny model of the parts of the repository whose correctness spans many functions or whole runs, with proofs of
what they are for. One file is one module. There are three pieces.

**The watch-to-reload pipeline.** `EventQueue` compresses watch events per key; `EventDelivery` follows it over
every run of a producer and a consumer. `RouteTable` says what each service and endpoints event means for the route
table, and `Proxier` is the class whose nested loops are proved to do just that. `Controller` is the consumer of
both queues, `RateLimiter` the single-slot queue with its backoff. `Pipeline` puts all of them into one machine,
whose steps (producer calls, pops, flag samples, handlers in progress, requests, renders, becoming master) interleave
freely. `LastRender` says what the last render of a run leaves unshown. `Relist` says what the table is after any
updates, and `RelistDelivery` what a relist repairs through the whole machine, and when it is rendered.

**The YAML engine.** In the order of the data: `YamlReader` (chunks to checked characters), `FlowScalarScanner` and
`TagUriScanner` (characters to texts), `TokenQueue`, `ScannerKeys`, `ScannerInvariants`, `ScannerPanic` (simple keys
and indentation: which tokens are put into the live queue, and where), `YamlParser` with `ParserSteps`,
`ParserSoundness`, `ParserRuns` (tokens to events), `TreeBuilder` (events to a tree), `YamlEmitter` with
`EmitterSteps`, `EmitterSoundness`, `EmitterRuns`, `EmitterTexts` (events to writer calls), `QuotedWriter` (values to
quoted text and tags to percent-encoded text). The round trips are in `DoubleQuotes`, `SingleQuotes`, `TagUriScanner`,
`ParserRoundTrip`, `StreamRoundTrip`, `TreeRoundTrip` and `ParserToEmitter`; `TokenGrammar` is the grammar in the head
comment of parserc.go as data, and `YamlEvents` the well-nested streams, both independent of the code.

**The token bucket.** `TokenBucket`: cumulative grants against elapsed ticks.

Each object that the source updates in place is a class with the source's fields, and each of its methods is proved
against a function on the value of those fields; the laws are proved of the functions, over all inputs or all runs.
`YamlParser.Parser` and `YamlEmitter.EventEmitter` have a method for each production of parserc.go and emitterc.go,
named after it; the table below lists those that run them all, and the laws of what they make.

Preconditions that stand for the system's own assumptions: keys are not empty and are distinct within one list; a
producer adds only keys it does not hold and that have no deletion pending, and updates and deletes only keys it
holds (`util/cache/eventqueue.go:30-32`); namespaces, names and port names hold no ':'; the clock is monotone; the
emitter is given scalar values in valid UTF-8, and tags and prefixes in which the lengths that the lead octets tell
add up.

## Where the code does not do what one would expect

For each the exact condition is proved under which the code does what one would expect, over all inputs or all runs;
the members named first exhibit an input or a run on which it does not.

- The scanner's explicit panic on a required key where none is allowed can be reached, by the two lines ` a: [` and
  `]c`: `ScannerPanic.ShouldNotHappenHappens`. It is the only panic, and `ScannerInvariants.FetchKeepsInv` says
  exactly when it comes.
- In a flow sequence, a pair with the key's indicator and no key node is not parsed to its events, unless a bare VALUE
  follows: the key state drops the token it looked at. `ParserRoundTrip.PairKeyIsLost`, and
  `ParserRoundTrip.PairIsParsed` for the condition.
- An entry of a block mapping that has a value and no key is refused, though the grammar at the head of parserc.go
  allows it: `ParserRoundTrip.KeylessIsRefused`, and `ParserRoundTrip.BlockMappingIsParsed` for the condition.
- The table is not a function of the latest services and endpoints: a port that is dropped from a service and brought
  back has no endpoints until the next endpoints event. `Relist.TableDependsOnThePast` has two runs that differ only
  in that, `RouteTable.ReaddedPortExactly` the condition for two modifications and `Relist.TableAfter` for any updates.
- A relist can leave a live port empty: a deletion that was popped before the lists came is applied after the
  endpoints (`RelistDelivery.HeldDeletionEmptiesPort`). `RelistDelivery.RelistRepairs` has the condition.
- A relist whose last applied event is a service without an IP changes the table without asking for a render:
  `RelistDelivery.HeadlessServiceHidesRelist`, `RelistDelivery.RelistShownExactly` for the condition on the relist's
  events and `LastRender.ShownExactly` for that on any run.
- A change that is applied between the render of `SetMaster` and the setting of the flag is neither rendered nor
  asked for: `Pipeline.ChangeLostBecomingMaster`, and `LastRender.LostBecomingMasterExactly` for the condition.
- A full bucket's tick stands still, so grants in a sliding window are not bounded by capacity and elapsed ticks,
  as the cumulative ones are: `TokenBucket.WindowIsNotBounded`, and `TokenBucket.WindowBoundExactly` for the condition.

`is_bom` looks at the first bytes of what it is given, whatever index it is asked about; it is modelled as it is.

## Model

| member | source | states |
|---|---|---|
| EventQueue.EventQueue.HandleEvent | util/cache/eventqueue.go:110-156 | Queues, merges or withdraws an event as the two matrices have it, stores the object unless it is a deletion, and on an invalid transition panics without having changed anything |
| EventQueue.EventQueue.QueueWithout | util/cache/eventqueue.go:180-191 | The queue without a key, the others in their order |
| EventQueue.EventQueue.Pop | util/cache/eventqueue.go:277-318 | Delivers the head with its compressed event and stored object, drops a deleted key from the store, and clears the last list key when it is the one popped |
| EventQueue.EventQueue.Replace | util/cache/eventqueue.go:324-350 | The queue is the list, in order, each key as Modified; the last key is kept for the list gate |
| EventQueue.EventQueue.ListConsumed | util/cache/eventqueue.go:354-359 | True exactly when no last list key is waiting |
| EventDelivery.RunKeepsInv | util/cache/eventqueue.go:110-359 | The invariant that ties queue, store, producer and consumer holds over every run of a legal producer and any consumer |
| EventDelivery.CompressionPreservesMeaning | util/cache/eventqueue.go:80-156 | In every reachable state the consumer's map with the pending events applied agrees with the producer on each of its keys; any other key is one the consumer held when a list omitted it; without a list the two maps are equal |
| EventDelivery.PopKeepsSettled | util/cache/eventqueue.go:277-318 | A delivery moves one pending event to the consumer and changes nothing of what both sides will agree on |
| EventDelivery.DrainDelivers | util/cache/eventqueue.go:277-318 | Popping until the queue is empty leaves the consumer with exactly that map |
| EventDelivery.DeliveryCarriesLast | util/cache/eventqueue.go:110-177 | Every delivery carries the last object stored for its key, and is a deletion exactly if the producer does not hold the key any more |
| EventDelivery.CompressionKeepsPlaces | util/cache/eventqueue.go:124-156 | A compressed event keeps its key's place in the queue; only an addition that is deleted again leaves it, and the other keys stay in order |
| EventDelivery.PanicsExactly | util/cache/eventqueue.go:110-156 | The panic comes exactly for an event after a queued deletion and for an addition of a queued key |
| EventDelivery.ListGate | util/cache/eventqueue.go:298-300 | The gate is open exactly when every key of the latest list has been popped; until then those left stand at the head of the queue, in order |
| EventDelivery.EveryRun | util/cache/eventqueue.go:110-359 | Over every run: no panic, the consumer holds what its deliveries say, both sides agree, the gate is right; and without a list the deliveries of each key form (Added Modified* Deleted)* |
| RouteTable.KeyParts | proxy/types.go:30-32 | A port's key can be split again into the service and the port it was made of |
| RouteTable.ServiceKeyInjective | proxy/types.go:30-32 | Two services have the same key only if they are the same |
| RouteTable.EndpointsEventKeepsInv | proxy/template/proxier.go:500-511 | After every endpoints event each unit is named by its key, and each key can be split |
| RouteTable.ServiceEventIsLocal | proxy/template/proxier.go:109-257 | A service event leaves the entries of all other services as they were |
| RouteTable.ModifiedServiceKeys | proxy/template/proxier.go:166-231 | After a modification a service's entries are exactly its ports other than UDP ones, each with what the last port of that name says and with the endpoints it had, or none |
| RouteTable.InfoIsLast | proxy/template/proxier.go:109-164 | Of several ports with one key the last one that is not UDP decides |
| RouteTable.ModifiedEndpointsKeys | proxy/template/proxier.go:309-364 | After a modification every entry of the service keeps its service's data and holds exactly the addresses some subset offers for its port; an entry is made for each port with an address |
| RouteTable.FlattenMembers | proxy/template/proxier.go:259-307 | The nested loops over subsets, ports and addresses collect for a name exactly the addresses offered for it |
| RouteTable.ServiceEventAt | proxy/template/proxier.go:109-257 | What each service event makes of one entry, whatever its key: the loops over all ports come to an effect on each entry alone |
| RouteTable.EndpointsEventAt | proxy/template/proxier.go:259-392 | The same for each endpoints event |
| RouteTable.ReaddedPortExactly | proxy/template/proxier.go:166-231 | An entry with the right addresses still has them, after one modification and then another that has its port, exactly if the first had the port too or there are none to lose |
| Proxier.Proxier.HandleServiceAdd | proxy/template/proxier.go:109-164 | Does nothing without an IP; otherwise enters the ports, the VIP, and asks for the reloads if commits are let through, keepalived's only for a new VIP |
| Proxier.Proxier.HandleServiceUpdate | proxy/template/proxier.go:166-231 | The same for a modification, whose dropped ports leave the table |
| Proxier.Proxier.HandleServiceDelete | proxy/template/proxier.go:233-257 | Takes away every port the service names and its VIP, with or without an IP, and asks for both reloads |
| Proxier.Proxier.HandleEndpointsAdd | proxy/template/proxier.go:259-307 | Does nothing without subsets; otherwise the loops over subsets, ports and addresses come to the filter-and-flatten of each port, the rest stays |
| Proxier.Proxier.HandleEndpointsUpdate | proxy/template/proxier.go:309-364 | The loops, the difference of the name lists and the clearing of what is gone come to one declarative update |
| Proxier.Proxier.HandleEndpointsDelete | proxy/template/proxier.go:366-392 | Empties the entries of the ports that the deleted endpoints name, and no others |
| Proxier.Proxier.Explode | proxy/template/proxier.go:275-290 | The map built by three nested loops holds for each name, and for no other, its addresses in order |
| Proxier.Proxier.CommitKeepalived | proxy/template/proxier.go:394-401 | A request is put exactly if this is the master and commits are not skipped; none is taken back |
| Proxier.Proxier.CommitHaproxy | proxy/template/proxier.go:403-410 | The same for the other reload |
| Proxier.Proxier.GetServicePorts | proxy/template/proxier.go:470-479 | Yields exactly the table's keys of one service |
| Proxier.Proxier.HandleService | proxy/template/proxier.go:487-498 | Takes each event to its handler; the table becomes what the event means, and a render is asked for exactly if the handler reaches its commit and commits are let through |
| Proxier.Proxier.HandleEndpoints | proxy/template/proxier.go:500-511 | The same for endpoints |
| Proxier.DiffLists | proxy/template/proxier.go:541-556 | The names of the old list that the new one lacks, in order |
| Proxier.DiffMembers | proxy/template/proxier.go:541-556 | A name is in the difference exactly if the old list has it and the new one does not |
| Proxier.PutPortsAt | proxy/template/proxier.go:130-158 | Entering ports one after the other sets each key to what its last port says and leaves all other keys |
| Proxier.PortsModified | proxy/template/proxier.go:166-231 | Entering the ports and then dropping the keys that are gone is the declarative modification |
| Proxier.PutModified | proxy/template/proxier.go:309-364 | Entering the collected endpoints and then clearing the names that are gone is the declarative modification |
| Relist.TableAfter | proxy/template/proxier.go:166-364 | From any table, after any updates in any order whose last ones for a service and for its endpoints are modifications: each port has exactly that service's data, and exactly those addresses if and only if no update after the endpoints' dropped the port or there are none |
| Relist.TableDependsOnThePast | proxy/template/proxier.go:166-231 | Two sequences of updates with the same last service and the same last endpoints, of which one leaves the port its address and the other leaves it none |
| Relist.DeletionBetween | proxy/template/proxier.go:233-257 | A deletion that comes between the endpoints and the service leaves the port without its address |
| Controller.ProxyController.HandleService | proxy/controller/controller.go:95-113 | Pops one event, samples the queue's list flag, lets commits through exactly if both flags are set, and applies the event under that gate |
| Controller.ProxyController.HandleEndpoints | proxy/controller/controller.go:116-134 | The same for endpoints; the other flag stays as it was sampled |
| Controller.ProxyController.UpdateLastSyncProcessed | proxy/controller/controller.go:138-141 | Commits are skipped exactly while one of the flags is not set |
| Pipeline.StepKeepsInv | proxy/controller/controller.go:95-141 | Every step of the whole machine, in any interleaving, keeps its invariant |
| Pipeline.CommitsOnlyWhenDrained | proxy/template/proxier.go:394-410 | In every run, whatever is in the slot: a handler comes to a commit that is let through only if each queue had drained its latest list when its flag was last sampled, and all that was popped by then is applied when the lock is released |
| Pipeline.RendersAPrefix | proxy/template/proxier.go:412-456 | In every run from the start, what was rendered last is the table after a prefix of the deliveries applied, those of each queue in its order; a render shows all of them, and none shows fewer than the one before |
| Pipeline.RequestsAreNeverLost | util/ratelimiter/ratelimiter.go:46-66 | While commits are let through and renders succeed, in every interleaving and whatever is applied: between handlers the table is the one last rendered, or a request is in the slot or unrendered in the worker's hand |
| Pipeline.ChangeLostBecomingMaster | proxy/template/proxier.go:515-529 | A run from the initial state in which a service delivered while becoming master is neither rendered nor asked for |
| LastRender.ShownExactly | proxy/template/proxier.go:394-456 | In every run from any state: the table is the one rendered, or a render is asked for, exactly if one was asked for right after the last render or failed render, or since then a handler of the master came to its commit with both flags set, or the table is what that render had made, or left |
| LastRender.LostBecomingMasterExactly | proxy/template/proxier.go:515-529 | For every run up to the setting of the flag in which something was rendered, renders and failures of the worker included: a change is lost exactly if after the last render no request was on its way or all of them failed, and the deliveries applied since leave another table than the one rendered |
| RelistDelivery.RelistRepairs | util/cache/eventqueue.go:324-350 | From any state of the machine, deliveries held by the consumers included: in every run that drains both queues after a relist, each port of a live service has exactly its data, and exactly its addresses if and only if nothing dropped the port after its endpoints came or it has none; only a delivery held since before can have dropped it |
| RelistDelivery.RelistIsShown | util/cache/eventqueue.go:324-350 | After a relist of a master's queues, from any state in which something is then delivered and both flags can be set, deliveries held by the consumers and empty lists included, and in every run that drains them: if the last event applied came to its commit, the last render shows the table once no request is left |
| RelistDelivery.RelistShownExactly | proxy/template/proxier.go:394-410 | In every run that drains a relist of two lists that are not empty, begun between events and without a render: the table is rendered or asked for exactly if it was asked for before, or the last event applied came to its commit, or all endpoints were applied first with the services' flag still set from before, or the table is the one rendered; and with a render too, one that is not asked for is not rendered either |
| RelistDelivery.HeadlessServiceHidesRelist | proxy/template/proxier.go:166-175 | A run from the initial state: both queues of a master are replaced, a service without an IP comes last, both lists are consumed, and the changed table is neither rendered nor asked for |
| RelistDelivery.HeldDeletionEmptiesPort | proxy/template/proxier.go:233-257 | A run from the initial state: a service's deletion held while both queues are replaced is applied after the endpoints, and leaves the live port without its address |
| RateLimiter.Backoff.Next | util/flowcontrol/backoff.go:54-62 | An item without a backoff, or with an expired one, gets the default; one still running keeps its length; either way it starts over now, and no other item changes |
| RateLimiter.Backoff.IsInBackOffSinceUpdate | util/flowcontrol/backoff.go:86-97 | In backoff exactly if there is an entry, not expired, that was last updated less than its backoff ago |
| RateLimiter.RateLimitedFunction.Invoke | util/ratelimiter/ratelimiter.go:64-66 | After it a request is in the slot, coalesced with one that was there |
| RateLimiter.RateLimitedFunction.HandleOne | util/ratelimiter/ratelimiter.go:51-60 | The handler starts exactly when not in backoff; otherwise the request is put back and the backoff left alone |
| RateLimiter.ReloadSpacing | util/ratelimiter/ratelimiter.go:51-60 | In every run each start comes at least min(period, 2 * maximum) after the finish before it, and the stored backoff is always the configured period |
| RateLimiter.WindowBound | util/flowcontrol/backoff.go:86-129 | A window of width W holds at most W / min(period, 2 * maximum) + 1 starts |
| RateLimiter.RequestIsKept | util/ratelimiter/ratelimiter.go:46-66 | In every run a request that waits, in the slot or in the worker's hand, goes on waiting until a handler starts after it |
| TokenBucket.Bucket.Adjust | Godeps/_workspace/src/github.com/juju/ratelimit/ratelimit.go:233-245 | Fills the bucket for the ticks since the last one, up to its capacity; a full bucket's tick stands still |
| TokenBucket.Bucket.Take | Godeps/_workspace/src/github.com/juju/ratelimit/ratelimit.go:205-229 | Grants at once, or into debt with the time to wait, or refuses a wait over the maximum and takes nothing |
| TokenBucket.Bucket.TakeAvailable | Godeps/_workspace/src/github.com/juju/ratelimit/ratelimit.go:156-172 | Grants what is asked or what there is, whichever is less, and never into debt |
| TokenBucket.CumulativeBound | Godeps/_workspace/src/github.com/juju/ratelimit/ratelimit.go:156-245 | Over every run with a monotone clock, grants and what is available stay within capacity + quantum * filled ticks; without debt the grants stay within capacity + quantum * ticks since creation |
| TokenBucket.WaitCovers | Godeps/_workspace/src/github.com/juju/ratelimit/ratelimit.go:205-229 | When a grant's wait is over, everything granted so far, it included, is covered by the ticks reached |
| TokenBucket.WindowBoundExactly | Godeps/_workspace/src/github.com/juju/ratelimit/ratelimit.go:233-245 | From every reachable state: every continuation stays within the capacity and the window's ticks exactly if the bucket, adjusted at the window's start, has the current tick |
| TokenBucket.WindowIsNotBounded | Godeps/_workspace/src/github.com/juju/ratelimit/ratelimit.go:233-245 | A bucket that is idle for the ticks that fill it, or more, grants its capacity twice at one instant |
| YamlChars.EncodeDecode | Godeps/_workspace/src/gopkg.in/yaml.v2/readerc.go:195-375 | Encoding the value that a well-formed character decodes to gives back its bytes |
| YamlChars.ValidIsOctets | Godeps/_workspace/src/gopkg.in/yaml.v2/scannerc.go:2016-2059 | Valid UTF-8 is made of lead octets with the trailing octets they ask for, so the tag round trip is for all of it too |
| YamlChars.MaskTests | Godeps/_workspace/src/gopkg.in/yaml.v2/yamlprivateh.go:156-173 | The bit masks of the source pick the same octets as the intervals used in this model |
| FlowScalarScanner.Cursor.Read | Godeps/_workspace/src/gopkg.in/yaml.v2/scannerc.go:515-535 | Copies one character and moves one column on |
| FlowScalarScanner.Cursor.ReadLine | Godeps/_workspace/src/gopkg.in/yaml.v2/scannerc.go:538-568 | Reads a break as its normal form (CR LF, CR, NEL become LF; LS and PS stay) and goes to column 0 |
| FlowScalarScanner.Cursor.ReadHex | Godeps/_workspace/src/gopkg.in/yaml.v2/scannerc.go:2425-2439 | Reads the digits of a code; no value if one is no digit |
| FlowScalarScanner.Cursor.ReadEscape | Godeps/_workspace/src/gopkg.in/yaml.v2/scannerc.go:2362-2468 | Reads an escape sequence as its character, or refuses it |
| FlowScalarScanner.Cursor.ReadPiece | Godeps/_workspace/src/gopkg.in/yaml.v2/scannerc.go:2339-2472 | Reads one character, doubled quote or escape of a scalar's text |
| FlowScalarScanner.Cursor.ReadText | Godeps/_workspace/src/gopkg.in/yaml.v2/scannerc.go:2339-2476 | The loop over non-blank characters does what the recursive specification says of them |
| FlowScalarScanner.Cursor.ReadGap | Godeps/_workspace/src/gopkg.in/yaml.v2/scannerc.go:2493-2539 | The loop over blanks and breaks comes to the folding of the specification: blanks at a line's end are dropped, one break is a space, further ones stay |
| FlowScalarScanner.Cursor.ScanFlowScalar | Godeps/_workspace/src/gopkg.in/yaml.v2/scannerc.go:2304-2557 | The whole scanner loop returns what the recursive specification reads, and stops after the closing quote |
| QuotedWriter.Emitter.Write | Godeps/_workspace/src/gopkg.in/yaml.v2/emitterc.go:51-76 | Copies one character whole |
| QuotedWriter.Emitter.WriteBreak | Godeps/_workspace/src/gopkg.in/yaml.v2/emitterc.go:89-103 | Puts LF in the emitter's own break style, other breaks as they are |
| QuotedWriter.Emitter.WriteIndent | Godeps/_workspace/src/gopkg.in/yaml.v2/emitterc.go:1201-1219 | Breaks the line unless it is nothing but this indentation, then pads it |
| QuotedWriter.Emitter.WriteIndicator | Godeps/_workspace/src/gopkg.in/yaml.v2/emitterc.go:1221-1234 | Puts an indicator, after a space where one is needed |
| QuotedWriter.Emitter.WriteDoubleQuoted | Godeps/_workspace/src/gopkg.in/yaml.v2/emitterc.go:1429-1548 | The writer loop puts what the recursive specification says, escapes and folds included |
| QuotedWriter.Emitter.WriteSingleQuoted | Godeps/_workspace/src/gopkg.in/yaml.v2/emitterc.go:1370-1427 | The writer loop puts what the recursive specification says |
| QuotedWriter.Emitter.WriteScalar | Godeps/_workspace/src/gopkg.in/yaml.v2/emitterc.go:798-909 | Chooses between the quoted styles and writes the value in the one chosen |
| QuotedWriter.Emitter.WriteTagContent | Godeps/_workspace/src/gopkg.in/yaml.v2/emitterc.go:1259-1311 | Puts URI characters as they are and all other octets percent-encoded |
| QuotedWriter.AnalyzeValue | Godeps/_workspace/src/gopkg.in/yaml.v2/emitterc.go:984-1130 | The loop over the value finds the same as the recursive specification, on which the single-quoted round trip rests |
| QuotedText.EscapeRead | Godeps/_workspace/src/gopkg.in/yaml.v2/emitterc.go:1471-1522 | The scanner reads each escape the writer can put as the code point it was put for |
| QuotedText.FoldRead | Godeps/_workspace/src/gopkg.in/yaml.v2/emitterc.go:1201-1219 | The break and indentation of a fold are read as one space |
| DoubleQuotes.DoubleQuotedRoundTrip | Godeps/_workspace/src/gopkg.in/yaml.v2/emitterc.go:1429-1548 | For every valid UTF-8 value, any width, any indent of at least 1, folding or not, any text after it: scanning what is written returns the value and stops right after the quote |
| SingleQuotes.AllowedStep | Godeps/_workspace/src/gopkg.in/yaml.v2/emitterc.go:984-1130 | Single quotes are allowed exactly if every character is printable (and ASCII or unicode allowed) and no space stands beside a break |
| SingleQuotes.SingleQuotedRoundTrip | Godeps/_workspace/src/gopkg.in/yaml.v2/emitterc.go:1370-1427 | For every value whose analysis allows single quotes, runs of LF, LS and PS and folded spaces included, scanning what is written returns the value |
| SingleQuotes.QuotedRoundTrip | Godeps/_workspace/src/gopkg.in/yaml.v2/emitterc.go:798-909 | Whichever quoted style is asked for and whichever is settled on, the value is read back |
| TagUriScanner.ScanUriEscapes | Godeps/_workspace/src/gopkg.in/yaml.v2/scannerc.go:2016-2059 | The loop over percent escapes reads one lead octet and the trailing octets that its width asks for, or refuses; overlong forms and surrogates pass, as in the source |
| TagUriScanner.ScanTagUri | Godeps/_workspace/src/gopkg.in/yaml.v2/scannerc.go:1959-2013 | The loop over URI characters reads what the recursive specification reads, the handle's own text in front; an empty tag is refused |
| TagUriScanner.ScannedIsOctets | Godeps/_workspace/src/gopkg.in/yaml.v2/scannerc.go:1959-2059 | Every tag that is scanned, from any text, is not empty and made of lead octets with the trailing octets they ask for |
| TagUriScanner.TagRoundTrip | Godeps/_workspace/src/gopkg.in/yaml.v2/emitterc.go:1259-1311 | For every such tag, so for all that can be scanned: scanning what is written, up to a character that is no part of a URI, returns the tag |
| TokenQueue.TokenQueue.Compact | Godeps/_workspace/src/gopkg.in/yaml.v2/apic.go:11-18 | Moves the queued tokens to the front of the array; the queue is unchanged |
| TokenQueue.TokenQueue.Append | Godeps/_workspace/src/gopkg.in/yaml.v2/apic.go:19 | Adds a token at the end, in a larger array when it is full |
| TokenQueue.TokenQueue.ShiftIn | Godeps/_workspace/src/gopkg.in/yaml.v2/apic.go:23-24 | Copies the tail one place up over itself and puts the token into the gap |
| TokenQueue.TokenQueue.Insert | Godeps/_workspace/src/gopkg.in/yaml.v2/apic.go:8-25 | The compacting array queue does a plain insert into a sequence, at the end or at a position |
| TokenQueue.TokenQueue.Dequeue | Godeps/_workspace/src/gopkg.in/yaml.v2/parserc.go:54-59 | Takes the first token off and leaves the rest in order |
| ScannerKeys.Scanner.StaleSimpleKeys | Godeps/_workspace/src/gopkg.in/yaml.v2/scannerc.go:842-863 | Drops each key on an earlier line or more than 1024 characters back; a required one is an error |
| ScannerKeys.Scanner.SaveSimpleKey | Godeps/_workspace/src/gopkg.in/yaml.v2/scannerc.go:867-897 | Saves a key at the token about to come, after removing the level's old one; panics on a required key where none is allowed |
| ScannerKeys.Scanner.RemoveSimpleKey | Godeps/_workspace/src/gopkg.in/yaml.v2/scannerc.go:900-913 | Makes the level's key impossible; a required one is an error |
| ScannerKeys.Scanner.RollIndentTo | Godeps/_workspace/src/gopkg.in/yaml.v2/scannerc.go:937-961 | In block context, opens a level at a column further in, with its start token appended or inserted |
| ScannerKeys.Scanner.UnrollIndentTo | Godeps/_workspace/src/gopkg.in/yaml.v2/scannerc.go:966-987 | In block context, closes each level past the column with a BLOCK-END |
| ScannerKeys.Scanner.FetchValueToken | Godeps/_workspace/src/gopkg.in/yaml.v2/scannerc.go:1274-1336 | A simple key gets its KEY and, where a mapping opens, BLOCK-MAPPING-START inserted; otherwise a complex key is closed |
| ScannerKeys.Scanner.FetchTheStreamEnd | Godeps/_workspace/src/gopkg.in/yaml.v2/scannerc.go:1016-1044 | Closes the line, unrolls every level and appends STREAM-END |
| ScannerKeys.Scanner.FetchDocumentToken | Godeps/_workspace/src/gopkg.in/yaml.v2/scannerc.go:1047-1102 | Directives and document markers unroll every level and allow no key |
| ScannerKeys.Scanner.FetchFlowCollectionStart | Godeps/_workspace/src/gopkg.in/yaml.v2/scannerc.go:1105-1133 | A flow collection may start a key, and adds a level |
| ScannerKeys.Scanner.FetchFlowCollectionEnd | Godeps/_workspace/src/gopkg.in/yaml.v2/scannerc.go:1136-1165 | The end of one drops the level's key and the level |
| ScannerKeys.Scanner.FetchSeparator | Godeps/_workspace/src/gopkg.in/yaml.v2/scannerc.go:1168-1190 | ',' drops the key and allows another |
| ScannerKeys.Scanner.FetchBlockIndicator | Godeps/_workspace/src/gopkg.in/yaml.v2/scannerc.go:1193-1271 | '-' and '?' open a block collection in block context where a key is allowed, and are an error where it is not |
| ScannerKeys.Scanner.FetchContentToken | Godeps/_workspace/src/gopkg.in/yaml.v2/scannerc.go:1339-1431 | Anchors, tags and scalars save a key before their token |
| ScannerKeys.Scanner.FetchNextToken | Godeps/_workspace/src/gopkg.in/yaml.v2/scannerc.go:665-838 | One fetch: stale keys dropped, levels unrolled to the column, then the token's own production |
| ScannerKeys.Scanner.TakeToken | Godeps/_workspace/src/gopkg.in/yaml.v2/parserc.go:54-59 | Takes the head token and counts it as parsed |
| ScannerInvariants.KeyLandsBeforeItsToken | Godeps/_workspace/src/gopkg.in/yaml.v2/scannerc.go:1274-1336 | KEY, and BLOCK-MAPPING-START before it where a mapping opens, land just before the token the key was saved at, which is still queued; nothing else moves and nothing dequeued is passed |
| ScannerInvariants.SaveKeyKeeps | Godeps/_workspace/src/gopkg.in/yaml.v2/scannerc.go:867-897 | Saving a key keeps the invariant, and panics exactly if a required key is not allowed |
| ScannerInvariants.UnrollIndentKeeps | Godeps/_workspace/src/gopkg.in/yaml.v2/scannerc.go:966-987 | Unrolling never pops an empty stack, ends at the first level not past the column, and exactly there if it is one of the levels |
| ScannerInvariants.FetchKeepsInv | Godeps/_workspace/src/gopkg.in/yaml.v2/scannerc.go:665-838 | Every fetch keeps the invariant; it panics exactly where a required key is not allowed, so no stack underflows and no insertion misses the queue |
| ScannerInvariants.DequeueKeepsInv | Godeps/_workspace/src/gopkg.in/yaml.v2/scannerc.go:626-662 | A token is dequeued only when no possible key points at it |
| ScannerInvariants.Reachable | Godeps/_workspace/src/gopkg.in/yaml.v2/scannerc.go:626-1044 | In every reachable state each possible key's number lies within the queued tokens, at its mark, strictly increasing with the flow level; the indents are strictly increasing from -1; and block starts less block ends is their depth |
| ScannerInvariants.StreamEndIsBalanced | Godeps/_workspace/src/gopkg.in/yaml.v2/scannerc.go:1016-1044 | In block context STREAM-END comes last, after a BLOCK-END for every block collection opened |
| ScannerPanic.ShouldNotHappenHappens | Godeps/_workspace/src/gopkg.in/yaml.v2/scannerc.go:867-897 | There is a run of the scanner that ends in its explicit panic |
| YamlParser.Parser.StateMachine | Godeps/_workspace/src/gopkg.in/yaml.v2/parserc.go:93-170 | From every valid state, the object with its stacks makes the event, or the error, and goes to the state that the specification `Step` says |
| YamlParser.Parser.NextEvent | Godeps/_workspace/src/gopkg.in/yaml.v2/parserc.go:62-73 | The next event, and none any more after the stream's end or an error |
| YamlParser.Parser.ResolveTag | Godeps/_workspace/src/gopkg.in/yaml.v2/parserc.go:431-451 | The suffix after the prefix that the directives in force give the handle; a tag without a handle is taken as it is |
| YamlParser.Parser.Directives | Godeps/_workspace/src/gopkg.in/yaml.v2/parserc.go:1014-1073 | Reads the directives of a document: one version at most, 1.1, no handle twice, and the two default handles added where not declared |
| YamlParser.Parser.AppendDirective | Godeps/_workspace/src/gopkg.in/yaml.v2/parserc.go:1076-1096 | A handle that is there is an error, or left alone where that is asked |
| YamlParser.ParseAll | Godeps/_workspace/src/gopkg.in/yaml.v2/parserc.go:62-73 | The loop stops for every token sequence, within 5 events a token and one more; the events are well nested, and whole exactly if there was no error |
| ParserSoundness.StepKeeps | Godeps/_workspace/src/gopkg.in/yaml.v2/parserc.go:93-170 | For every token sequence and state reached: the states and marks stacks never underflow, a first-entry state finds its start token at the head, and the event continues a well-nested stream |
| ParserRuns.StepLeaves | Godeps/_workspace/src/gopkg.in/yaml.v2/parserc.go:93-170 | Every step uses up a bound that depends on the tokens left and the states stacked |
| ParserRuns.StepReads | Godeps/_workspace/src/gopkg.in/yaml.v2/parserc.go:360-574 | Every step hands on the texts of the tokens it passes, in order, none made up |
| ParserRuns.RunIsNested | Godeps/_workspace/src/gopkg.in/yaml.v2/parserc.go:62-170 | From any valid state the events close what was open exactly if there is no error |
| ParserRuns.EveryParse | Godeps/_workspace/src/gopkg.in/yaml.v2/parserc.go:62-1006 | For every token sequence, legal or not: the parser stops, its events are a prefix of a well-nested stream with an even number of nodes in each mapping, all of one exactly if no error; the anchors and scalars of the events are those of the tokens, in order |
| ParserRoundTrip.NodeGoes | Godeps/_workspace/src/gopkg.in/yaml.v2/parserc.go:360-993 | Every tree of the grammar, in every way it may be written (with or without a separator after a flow collection's last entry, flow mapping entries with or without an indicator) and in every place it may stand, is parsed to exactly its events, and the parser is left behind it with the stacks as before |
| ParserRoundTrip.BlockMappingIsParsed | Godeps/_workspace/src/gopkg.in/yaml.v2/parserc.go:676-722 | A block mapping that the grammar allows is parsed to its events exactly if each of its entries has the indicator of its key |
| ParserRoundTrip.KeylessIsRefused | Godeps/_workspace/src/gopkg.in/yaml.v2/parserc.go:676-722 | The document ": a", which the grammar has, is refused |
| ParserRoundTrip.PairIsParsed | Godeps/_workspace/src/gopkg.in/yaml.v2/parserc.go:834-873 | A single pair is parsed to its events exactly if it has a key node, or what follows the key's indicator is VALUE without a node |
| ParserRoundTrip.PairKeyIsLost | Godeps/_workspace/src/gopkg.in/yaml.v2/parserc.go:834-849 | A pair without a key node never is if it has a value node (`[? : a]`) or no VALUE (`[? , a]`, `[?]`) |
| StreamRoundTrip.ParseOfStream | Godeps/_workspace/src/gopkg.in/yaml.v2/parserc.go:175-332 | Every stream of documents, with directives, any number of end markers after each, and every way of writing the nodes, is parsed to exactly its events |
| TreeBuilder.Builder.Skip | Godeps/_workspace/src/gopkg.in/yaml.v2/decode.go:67-77 | Moves to the next event, and fails only where the parser failed |
| TreeBuilder.Builder.Parse | Godeps/_workspace/src/gopkg.in/yaml.v2/decode.go:105-124 | Where a node is due, one is built of exactly the events up to the next; the panic on another event is never met |
| TreeBuilder.Builder.ParseAlias | Godeps/_workspace/src/gopkg.in/yaml.v2/decode.go:147-152 | An alias event becomes a node that shows it and has no children, and the next event follows; which node it stands for is settled after the tree is built |
| TreeBuilder.Builder.ParseScalar | Godeps/_workspace/src/gopkg.in/yaml.v2/decode.go:154-162 | A scalar's node shows its event |
| TreeBuilder.Builder.ParseSequence | Godeps/_workspace/src/gopkg.in/yaml.v2/decode.go:164-173 | A sequence's node shows its events up to its end |
| TreeBuilder.Builder.ParseMapping | Godeps/_workspace/src/gopkg.in/yaml.v2/decode.go:175-184 | A mapping's node shows its events up to its end, its children in pairs |
| TreeBuilder.Builder.ParseDocument | Godeps/_workspace/src/gopkg.in/yaml.v2/decode.go:134-145 | Flattening the document's tree gives back its events; the panic where the document's end is due is never met |
| TreeBuilder.BuildFirst | Godeps/_workspace/src/gopkg.in/yaml.v2/decode.go:40-145 | Of every event stream the parser can make: the first document is built, none only if there is none, and it never fails on a whole stream |
| TreeBuilder.Separates | Godeps/_workspace/src/gopkg.in/yaml.v2/decode.go:105-184 | No tree's flattening begins another's |
| TreeBuilder.OneTree | Godeps/_workspace/src/gopkg.in/yaml.v2/decode.go:134-145 | A document's events have one tree only |
| TreeRoundTrip.EventsShow | Godeps/_workspace/src/gopkg.in/yaml.v2/decode.go:105-184 | The events of a written tree flatten to just what its node does |
| TreeRoundTrip.TreeOfStream | Godeps/_workspace/src/gopkg.in/yaml.v2/decode.go:134-184 | The tree built of a written stream is the one its first document stands for |
| TreeRoundTrip.Load | Godeps/_workspace/src/gopkg.in/yaml.v2/decode.go:40-184 | Parsing and building a written stream never fails and gives back the tree that was written |
| ParserToEmitter.ParsedIsEmitted | Godeps/_workspace/src/gopkg.in/yaml.v2/emitterc.go:113-269 | Whatever is parsed without an error is emitted whole, under any settings and layout |
| YamlEmitter.EventEmitter.NeedMoreEvents | Godeps/_workspace/src/gopkg.in/yaml.v2/emitterc.go:136-170 | More is needed exactly while the queue is empty, or is shorter than its head asks for and does not close it |
| YamlEmitter.EventEmitter.AppendDirective | Godeps/_workspace/src/gopkg.in/yaml.v2/emitterc.go:173-193 | A handle that is there is an error, or left alone where that is asked |
| YamlEmitter.EventEmitter.AnalyzeTag | Godeps/_workspace/src/gopkg.in/yaml.v2/emitterc.go:967-981 | The first directive whose prefix begins the tag gives its handle, the rest is the suffix |
| YamlEmitter.EventEmitter.StateMachine | Godeps/_workspace/src/gopkg.in/yaml.v2/emitterc.go:211-269 | From every valid state, the object analyses the head event, makes the writes and goes to the state that the specification `Step` says |
| YamlEmitter.EventEmitter.Feed | Godeps/_workspace/src/gopkg.in/yaml.v2/emitterc.go:113-127 | Queues the event and emits from the head for as long as no more is needed |
| YamlEmitter.EmitStream | Godeps/_workspace/src/gopkg.in/yaml.v2/emitterc.go:113-127 | Feeding a whole stream of valid events emits all of them |
| EmitterSoundness.StepExact | Godeps/_workspace/src/gopkg.in/yaml.v2/emitterc.go:211-760 | For every state and event: the step is made exactly if the event may come there and is valid; then the stacks of states and indents, the flow level and the open collections fit each other again |
| EmitterRuns.EmptinessIsSeen | Godeps/_workspace/src/gopkg.in/yaml.v2/emitterc.go:136-170 | A queue that is long enough tells whether the collection at its head is empty as the whole stream would |
| EmitterRuns.LookaheadSuffices | Godeps/_workspace/src/gopkg.in/yaml.v2/emitterc.go:136-269 | With the bounded lookahead every step is the one that sees all that is still to come |
| EmitterRuns.EmitIsIdeal | Godeps/_workspace/src/gopkg.in/yaml.v2/emitterc.go:113-170 | So the emitter fed event by event does in all what one does that is given the whole stream |
| EmitterRuns.IdealExact | Godeps/_workspace/src/gopkg.in/yaml.v2/emitterc.go:211-269 | Which takes exactly the streams that go on well nested, of valid events |
| EmitterRuns.NothingWaits | Godeps/_workspace/src/gopkg.in/yaml.v2/emitterc.go:136-170 | With the stream's end in the queue nothing is left waiting |
| EmitterRuns.EmitterTakesWholeStreams | Godeps/_workspace/src/gopkg.in/yaml.v2/emitterc.go:113-269 | The emitter ends with states, indents, flow level and queue empty exactly on whole well-formed streams of valid events, each emitted once, in order |
| EmitterRuns.EmitterNeverFails | Godeps/_workspace/src/gopkg.in/yaml.v2/emitterc.go:113-269 | It never fails on a valid event that may come |
| EmitterTexts.WritersGetText | Godeps/_workspace/src/gopkg.in/yaml.v2/emitterc.go:862-909 | Whatever stream of readable events is emitted, in each text that the writer of tags is given the lengths told by the lead octets add up, and each that a scalar writer is given is valid UTF-8; those writers need this to come to an end |
| YamlReader.Reader.DetermineEncoding | Godeps/_workspace/src/gopkg.in/yaml.v2/readerc.go:25-53 | Goes on exactly if the input has no UTF-16 mark, and skips the UTF-8 one and nothing else |
| YamlReader.Reader.UpdateRaw | Godeps/_workspace/src/gopkg.in/yaml.v2/readerc.go:56-85 | What is not decoded yet is kept and what the handler gives is put after it; there is progress unless the file is at its end |
| YamlReader.Reader.DecodeValue | Godeps/_workspace/src/gopkg.in/yaml.v2/readerc.go:169-224 | Decodes a character from its octets, if its trailing ones are trailing octets |
| YamlReader.Reader.CheckNext | Godeps/_workspace/src/gopkg.in/yaml.v2/readerc.go:147-350 | A character passes only if it is valid under section 3 of RFC 3629 and allowed; one is waited for only if the file may go on; and if it is bad the input is no text |
| YamlReader.Reader.PutChar | Godeps/_workspace/src/gopkg.in/yaml.v2/readerc.go:356-377 | The shifts and masks put the encoding of the value, and count it |
| YamlReader.Reader.TakeChar | Godeps/_workspace/src/gopkg.in/yaml.v2/readerc.go:352-378 | Moves one character from the raw buffer to the working buffer |
| YamlReader.Reader.DecodeRaw | Godeps/_workspace/src/gopkg.in/yaml.v2/readerc.go:142-379 | Decodes until less than a character is left |
| YamlReader.Reader.PlaceNul | Godeps/_workspace/src/gopkg.in/yaml.v2/readerc.go:381-387 | The NUL is put once, after everything |
| YamlReader.Reader.UpdateBuffer | Godeps/_workspace/src/gopkg.in/yaml.v2/readerc.go:91-391 | Unread characters stay at the front and more come after them, enough or up to the end; it fails only if the input is UTF-16 or no text; the fixed buffer is never overrun |
| YamlReader.Reader.Take | Godeps/_workspace/src/gopkg.in/yaml.v2/scannerc.go:515-535 | The scanner takes one character and the count goes down by one |
| YamlReader.Reader.StuckMeansNotText | Godeps/_workspace/src/gopkg.in/yaml.v2/readerc.go:147-350 | If a character is refused the whole input is no text, however it came in chunks |
| YamlReader.Reader.EndedMeansText | Godeps/_workspace/src/gopkg.in/yaml.v2/readerc.go:381-387 | When the NUL is placed all of the input was text, and all of it, and the NUL, was placed |
| YamlReader.ReadAll | Godeps/_workspace/src/gopkg.in/yaml.v2/readerc.go:25-391 | For every input and every chunking: it is read exactly if it is text without a UTF-16 mark, and what is read is the input less its mark, and a NUL |

## Left out

- YamlReader.Reader.UpdateBuffer: is stated for lengths up to 256, for which the fixed buffer is large enough; the
  scanner asks for 8 at most. A read handler that fails, or gives nothing without the end of the file, is not
  modelled.
- YamlReader.Reader.DetermineEncoding: stops at a UTF-16 mark; UTF-16 input and output are not modelled.
- FlowScalarScanner.Cursor.ScanFlowScalar: reads a text that is at hand in full, with NUL after its end, and says
  why it refuses but not where; document markers inside a scalar are errors as in the source; marks are columns only.
- QuotedWriter.Emitter.WriteScalar: covers the two quoted styles; plain, literal and folded scalars are not
  modelled, nor the flush of a full output buffer.
- QuotedWriter.AnalyzeValue: leaves out what the analysis finds for the plain and the block styles.
- ScannerKeys.Scanner.FetchNextToken: takes as given which token the characters spell, at which mark, whether a line
  break was skipped before it and whether its text scans.
- ScannerPanic.ShouldNotHappenHappens: is a run on such tokens.
- YamlParser.Parser.Directives: the version directive 1.1 is the only one that gets into an event, the source refusing
  all others; an event only says whether it is there.
- ParserRoundTrip.NodeGoes: covers no block mapping with an entry that lacks its key, nor a pair without a key node
  and with anything but a bare VALUE, on which the parser fails: `ParserRoundTrip.BlockMappingIsParsed` and
  `ParserRoundTrip.PairIsParsed` do.
- StreamRoundTrip.ParseOfStream: does not cover document end markers before the first document, which the grammar
  does not have.
- ParserToEmitter.ParsedIsEmitted: asks of the tokens what the scanner promises: alphanumeric anchors, handles between
  exclamation marks, valid UTF-8 in values, and in tag suffixes and prefixes, where overlong forms and surrogates may
  be escaped, no more than that the lengths told by the lead octets add up (`TagUriScanner.ScannedIsOctets`).
- YamlEmitter.EventEmitter.StateMachine: which style a scalar is given, whether the line is past the best width and
  what is on it are a parameter that may be anything, so the results hold for every choice the source can make.
- EmitterRuns.EmitterTakesWholeStreams: asks for valid UTF-8 in values, and in tags and directive prefixes for lengths
  told by the lead octets that add up; on other octets the writers of the source may not end or may index out of range,
  and they are recorded calls here.
- TreeBuilder.Builder.ParseAlias: a node is named by the number of its event; the look-up of its anchor in decode.go
  and that nodes share memory are not modelled.
- EventQueue.EventQueue.Replace: makes no deletions for keys the list omits, as the source does not; `kcache.Store` is
  not part of this model and is a map here.
- EventQueue.EventQueue.Pop: starts once the queue is not empty; waiting on the condition variable and errors of the
  key function are not modelled.
- Proxier.Proxier.HandleService: units are values in the table, so that a unit is one object shared by its readers is
  not modelled.
- Pipeline.RequestsAreNeverLost: a render that fails is a step of the machine, and the proof is for runs without one;
  it is for the HAProxy reload, whose twin for keepalived is the same.
- RelistDelivery.RelistIsShown: asks of a queue that is given an empty list that its flag is set already, or that a
  delivery held since before will sample it, an empty list delivering nothing to sample it for; and no step after the
  lists fails a render or leaves the role.
- RelistDelivery.RelistShownExactly: starts between events, and is for lists that are not empty and, in its first part,
  for runs without a render; `LastRender.ShownExactly` is the condition for any run.
- RateLimiter.RateLimitedFunction.HandleOne: the FIFO, which is not part of this model, is one slot, the key being
  constant.
- TokenBucket.Bucket.Take: time is a count of nanoseconds without an upper bound, and tokens are unbounded: 64-bit
  overflow is not modelled anywhere.
- Rendering files, running the reload scripts, the API client, the template and logging: they reach outside the process.
- `List`, `ListKeys`, `Get` and `ContainedIDs` of the queue, `GC` and `Reset` of the backoff, and the bucket's
  constructors: reads and easy updates.
- decode.go beyond the tree builder, resolve.go, encode.go and yaml.go: type resolution and reflection on Go values.
- Two parser states, for a block node that may be an indentless sequence and for a flow node, are dispatched on in the
  source but never entered; the model has no such states.
- The rest of the vendored code.
