# Verified cores of the KATCP library

The KATCP library speaks a line-based control protocol. Below its sockets and select loops it has stateful cores that
everything else leans on: a tree that indexes commands and variables, an endpoint layer through which the parts of a
server exchange messages, the deferral of requests that a client pipelines, and composite variables addressed by paths.
This project models those cores in Dafny, in the form the C code has, and proves what they are for.

Where the code changes things in place, so does the model: nodes, endpoints, messages, queues, heaps, buffers and
payloads are objects whose fields are reassigned, by the same branches and loops as in C. Such a method is proved
against a function of the old state, and the laws are proved about that function, over all inputs and whole runs.

## The parts

* **The tree** (`Avl*.dfy`). Nodes keep the links, the parent link and the stored balance of the C structure. A ghost
  `Shape` is the tree that the links spell out and a ghost `Ctx` the path from a subtree up to the root, so that every
  loop that climbs or descends has a zipper as its invariant. `AvlShape` has these notions, `AvlRotateLemmas` and
  `AvlRotate` the four rotations, `AvlRetrace` what one step up the tree means, `AvlUnlink` and `AvlFill` the three
  cases of a deletion, `AvlDelete` its rebalancing loop, `AvlRemove` and `AvlTree` the operations, `AvlWalk` and
  `AvlDestroy` the loops over a whole tree, and `AvlIndex` the tree as a map together with its logarithmic height.
* **Endpoints** (`Endpoint*.dfy`, `CallbackSlots.dfy`). `EndpointState` to `EndpointRuns` define the layer as a
  transition system in which the verdict of every wake callback is arbitrary; `Sound` is its invariant (reference
  counts, addressing, gone endpoints) and `Balanced` its bookkeeping of replies owed. `EndpointPass` is the pass of
  `run_endpoints_katcp` over such a system, with callbacks that call back into the layer. `EndpointLayer.Shared` is the
  same layer over mutable endpoints and messages, each method proved to be one of the functions.
  `CallbackSlots.Waiting` is a holder of references from outside the layer.
* **Pipelining** (`Pipeline.dfy`). One connection with its two endpoints, the flags and the defer queue. The invariant
  `Serial` says that the requests received are those answered, then the one outstanding, then those deferred.
* **Variables** (`Vrbl*.dfy`). `VrblPath` is the syntax of paths, `VrblValue` the operations on nested values,
  `VrblLaws` the laws of set, get and delete, `VrblWalk` those of enumeration, and `VrblPayload` the operations on
  mutable payload objects.
* **Containers and arithmetic**: `RingQueue` (the growing ring), `Heap`, `Fpg` (marker search and upload under short
  reads and writes), `Subscribers`, `ByteBit`, `Kurl`; `CString` and `Decimal` are the C library functions they use,
  and what strcmp makes of a set of keys.

## Where the code does not do what one might expect

* Set, then get (`VrblLaws.SetGet`): a scan ignores whatever follows an array index and takes `-` as "append", while
  element refuses both. It is for the paths that `Straight` describes that element is sure to read what was set; where a
  `-` reads as a sign, `SetGet` says exactly when it does.
* A scan that has to grow an array to its last index, 4294967295, computes the new size `index + 1` in an unsigned int,
  where it wraps to zero: the elements are freed by `realloc` or written over. An index of 2 to the power of 64 or more
  saturates and narrows to the same one. So the law that a failed scan changes no string is false there; it holds
  exactly when `VrblValue.Overruns` does not, `VrblLaws.LastIndex` gives the indices that break every array, and
  `VrblLaws.LastIndexPath` is one of them as a client would write it. The outcome of such a scan is `Corrupted`, and in
  `VrblPayload` the payload is no longer valid.
* Enumeration prints at most nine digits of an index, so from 1000000000 on the path it passes on names another element
  (`VrblWalk.ForeachRoundTrip`).
* The marker of an fpg file is only recognised if at least ten bytes follow from its start on (`Fpg.Marked`). A file
  without one is uploaded all the same: the search answers 1, but main gives up on negative answers only, so the rest of
  the file that has not been loaded as commands goes upstream as the image and no failure is reported
  (`Fpg.UnmarkedGoesUpstream`; `Fpg.CommandGoesUpstream` is a file that is nothing but a command). What is sent is the
  image exactly if the file is marked. The count of bytes that is logged then includes those loaded.
* `add_bb_katcl` tests `alignment | WORD`, which is always true, so the byte form is never normalised to bytes; the sum
  stays exact, and when the word form wraps the result is left in raw form (`ByteBit.BB.Add`).
* `containing_kurl_katcp` compares with the literal `katcp://` for every URL with a host, so an `xport://` URL does not
  contain itself (`Kurl.ContainsItself`), and it compares at most seven characters of the port.
* Monitoring by event a client that is subscribed by period only changes that subscriber's strategy but leaves it in
  the period vector, and the other way round (`Subscribers.Wit.MonitorEvent` and `MonitorPeriod` give the exact
  conditions). A deletion goes by the strategy, so from then on it removes somebody else's entry or, if the other
  vector is empty, runs past its end (`Subscribers.ForgetsAnother`, `PeriodThenEvent`; `Wit.Delete` says exactly when).
  A broadcast stops with -1 at an entry that is not there for events (`Subscribers.EventThenPeriod`); it reaches all if
  and only if there is none (`Subscribers.TriesAll`), and because a deletion moves the last entry forward, not even all
  those before it need be reached (`Subscribers.Overtaken`).
* If the timer of a new periodic subscriber cannot be registered, its entry has no strategy yet, so the deletion refuses
  it and it stays in the period vector (`Subscribers.Wit.MonitorPeriodFails`).
* Both precedence constants of the endpoint layer are zero (katcp/endpoint.c:17-18), so its queues are served from the
  head; `RingQueue.Gueue.GetPrecedenceHead` covers the general search.

## Model

| member | source | states |
|---|---|---|
| AvlRotation.SingleRotation | katcp/avltree.c:427-510 | Any memory changed by the pointer moves of a single rotation holds the rotated subtree in the same hole: same nodes and in-order sequence, sound links, stored balances equal to height differences, nothing else touched |
| AvlRotation.DoubleRotation | katcp/avltree.c:512-639 | The same for the two double rotations, for all three balances of the grandchild |
| AvlRotate.LeftLeftAt | katcp/avltree.c:470-510 | The left-left rotation of a node at -2 gives a sound subtree with the same order whose height drops by one unless the child was even |
| AvlRotate.RightRightAt | katcp/avltree.c:427-468 | The mirror image |
| AvlRotate.LeftRightAt | katcp/avltree.c:512-575 | The left-right double rotation gives a sound subtree with the same order, lower by one |
| AvlRotate.RightLeftAt | katcp/avltree.c:577-639 | The mirror image |
| AvlRotate.Rebalance | katcp/avltree.c:641-696 | Whatever rotation is chosen for a node out by two, order, links and balances are restored, and the height is kept exactly when the taller child was even |
| AvlTree.Tree.FindNameNode | katcp/avltree.c:1121-1160 | A node found is in the tree and has the key; if none is found no node has it; at most height steps are taken |
| CString.LessMeans | katcp/avltree.c:719 | The comparison by which the tree is ordered, without its loop: one key comes before another exactly if it is a proper prefix of it or has the smaller byte at the first place where they differ |
| AvlTree.Tree.Retrace | katcp/avltree.c:763-800 | From a leaf that made its parent's side taller, the climbing loop ends with all stored balances right, links sound and the order unchanged; it rotates at most once, and without a rotation the tree keeps its shape |
| AvlTree.Tree.AddNode | katcp/avltree.c:698-825 | Validity (order, balances, links, parent links, root) is kept; the node is inserted in key order with at most one rotation, and without one the tree is the old one with a new leaf; a duplicate key is refused and nothing at all changes |
| AvlUnlink.Case1 | katcp/avltree.c:907-946 | Deletion without a right child: the left child takes the hole, and the flag is set exactly when the height of the parent's subtree did not change |
| AvlUnlink.Case2 | katcp/avltree.c:949-982 | Deletion where the right child has no left child: it moves up, and its new balance and the flag are right about the height |
| AvlUnlink.Case3 | katcp/avltree.c:984-1035 | Deletion through the in-order successor, however deep: links, balances and order are right above and below the place it is taken from |
| AvlRetrace.ShrinkUp | katcp/avltree.c:1075-1098 | A subtree lower by one makes its parent's subtree lower by one, or leaves it unchanged exactly when the parent was even before |
| AvlDelete.Restore | katcp/avltree.c:1047-1073 | A node that a deletion left out by two is rotated to a sound subtree, and the flag is set exactly when no height was lost |
| AvlDelete.Cascade | katcp/avltree.c:1038-1102 | From any state the three cases leave behind, the loop ends at the true root with every balance and link right, however many rotations it makes; the order is kept |
| AvlRemove.Remove | katcp/avltree.c:894-1105 | All three cases and the loop together: the remaining nodes are linked, balanced and ordered, and the result is their root |
| AvlTree.Tree.DelNode | katcp/avltree.c:894-1105 | For any node of any valid tree: exactly that node is gone from the order and the tree is valid again; its payload is freed once; a NULL node changes nothing |
| AvlWalk.InorderTraverse | katcp/avltree.c:231-311 | The traversal with an explicit stack visits exactly the recursive in-order sequence |
| AvlWalk.Walker.Walk | katcp/avltree.c:137-218 | Each call of the resumable walker answers the next node of the in-order sequence, and NULL with a fresh start at its end |
| AvlWalk.WalkAll | katcp/avltree.c:137-218 | Calling it until it answers NULL yields the whole in-order sequence |
| AvlDestroy.DestroyNodes | katcp/avltree.c:1204-1273 | The stackless loop terminates and frees the nodes in post-order, with one callback for each payload that is not NULL |
| AvlDestroy.EveryPayloadOnce | katcp/avltree.c:1249-1252 | The calls of the callback are one for each node that has a payload, with its key and payload, and none without a callback |
| AvlIndex.PostorderOnce | katcp/avltree.c:1204-1273 | Post-order has every node of a well-formed tree exactly once |
| AvlIndex.SubtreeFirst | katcp/avltree.c:1204-1273 | Every subtree at any place in the tree is freed in one stretch, with what is on its left first and its root last |
| AvlIndex.Destroy | katcp/avltree.c:1204-1273 | After it the tree is empty; every node was freed exactly once and every payload handed out once |
| AvlIndex.CheckBalances | katcp/avltree.c:401-425 | The depth computed from the links is the height of the tree |
| AvlIndex.BalancedSize | katcp/avltree.c:401-425 | A tree of height h with right stored balances has at least Fib(h+2)-1 nodes |
| AvlIndex.LookupLogarithmic | katcp/avltree.c:1121-1160 | Hence two to the power of half the steps of a lookup is at most one more than the number of nodes |
| AvlIndex.LookupAgrees | katcp/avltree.c:1121-1160 | The answer of a lookup is that of the map from keys to nodes |
| AvlIndex.InsertedIndex | katcp/avltree.c:698-825 | Inserting a node into the order adds its key, which was not there, to the map and changes no other entry |
| AvlIndex.RemovedIndex | katcp/avltree.c:894-1105 | Removing a node from the order removes its key from the map and changes no other entry |
| AvlIndex.InorderSorted | katcp/dpx-vrbl.c:1073-1127 | The keys of a valid tree in traversal order are the sorted sequence of its key set, which is what the variables rely on; of any two the earlier one is a proper prefix of the later or has the smaller byte where they first differ |
| EndpointCalls.SendSound | katcp/endpoint.c:171-234 | Sending keeps the invariant: counts equal mentions plus holders, mail is addressed to its queue, gone endpoints have none |
| EndpointCalls.DisposeSound | katcp/endpoint.c:454-523 | Turning a message around or destroying it keeps the invariant, whether or not the reply finds a taker |
| EndpointCalls.ReleaseSound | katcp/endpoint.c:654-688 | Flushing the queue and marking the endpoint gone keeps the invariant |
| EndpointCalls.CollectSound | katcp/endpoint.c:859-874 | An endpoint that the collector frees is mentioned by no message and held by nobody, and the rest stays sound |
| EndpointRuns.StepSound | katcp/endpoint.c:738-890 | Every call of the layer and every step of the pass keeps the invariant, whatever the verdict of the callback |
| EndpointRuns.StepBalanced | katcp/endpoint.c:454-523 | Every step keeps the books: a request that is owed a reply and was accepted is in a queue, answered, stranded because its sender takes nothing more, or taken over by a callback, and is in just one of these |
| EndpointRuns.Safety | katcp/endpoint.c:411-436 | Over every run from nothing: reference counts are exact, gone endpoints are silent, no message and no holder refers to a freed endpoint, every accepted request is accounted for exactly once |
| EndpointRuns.GoneForGood | katcp/endpoint.c:654-688 | An endpoint that is gone never comes back, never receives and never has mail again, over every run |
| EndpointRuns.SendExact | katcp/endpoint.c:171-234 | A message of any kind goes to the end of the queue of its receiver and nowhere else, unless that does not receive, the sender may not send, or the two are the same |
| EndpointRuns.DisposeExact | katcp/endpoint.c:454-523 | Disposing of a message appends one reply to the queue of the sender of a request that is owed one and still receives, and adds nothing to any other queue; the reply has the result code and the name of the request, its parties the other way round, and asks for nothing |
| EndpointRuns.DisposeBooks | katcp/endpoint.c:501-509 | The request is then answered or stranded in the books, as its sender receives or not |
| EndpointRuns.DeliverExact | katcp/endpoint.c:776-841 | What each verdict does to every queue: the head goes, or all stays for a pause and a yield; the answer carries the verdict, and there is none to a message that the callback has taken over |
| EndpointRuns.FlushExact | katcp/endpoint.c:627-652 | A flush gives each other endpoint that receives the failing replies to exactly its own requests in their order, each with the name of its request, and touches no other queue |
| EndpointRuns.ReleaseExact | katcp/endpoint.c:654-688 | The same for a release, which leaves its endpoint down and empty |
| EndpointRuns.DeliverWeight | katcp/endpoint.c:788-841 | Twice the requests owed a reply plus the other messages goes down with every message that is dealt with |
| EndpointRuns.DrainTerminates | katcp/endpoint.c:738-890 | A run of deliveries that neither pause nor yield is no longer than that measure was at its start, although replies are queued on the way |
| EndpointPass.ActsServed | katcp/endpoint.c:759-841 | Whatever calls a callback makes, its own endpoint stays listed and its queue is only appended to, so the message it was woken for is still the head when its verdict is acted on |
| EndpointPass.TurnRuns | katcp/endpoint.c:755-841 | An endpoint that is up with mail has its callback woken: the calls this may make are made in their order, then its verdict takes effect, and that is all unless a fast endpoint goes on |
| EndpointPass.CalmVisit | katcp/endpoint.c:755-874 | If callbacks make no calls and deal with what they see, the turn of an endpoint takes the head off its queue, or all of it if it is fast; each request among it is answered with the verdict of its own turn where its sender receives, a failure if there is no callback, and nothing else moves |
| EndpointPass.PassDelivers | katcp/endpoint.c:738-890 | So after a pass every endpoint that was up with mail has lost the head of it, or all if it is fast; the rest is in order, and behind it are only replies |
| EndpointPass.PassWorks | katcp/endpoint.c:738-890 | And the work that is left is less by at least one for each endpoint that was up with mail, by one for each message if it is fast |
| EndpointPass.PassLeads | katcp/endpoint.c:738-890 | A whole pass is a run of legal steps of the transition system, so everything proved over runs holds for it |
| EndpointPass.QuietPass | katcp/endpoint.c:859-874 | A pass over empty queues frees exactly the gone endpoints without references; the whole state is otherwise the same: the other endpoints in their order, the references held, the books |
| EndpointLayer.Shared.CreateMessage | katcp/endpoint.c:60-107 | A message made over the mutable objects counts as one reference to its sender and one to its receiver |
| EndpointLayer.Shared.QueueMessage | katcp/endpoint.c:109-135 | It goes to the tail of the queue if its receiver receives, and otherwise nothing changes |
| EndpointLayer.Shared.Send | katcp/endpoint.c:171-234 | The effect on the layer is the send function, the result -1 exactly when it is refused, and no queue loses a message |
| EndpointLayer.Shared.Turnaround | katcp/endpoint.c:454-523 | The effect is the turnaround function; the request object itself is then last in the queue of its sender, as a reply with the result code and the name of the request; the result is -1 exactly when the sender takes nothing |
| EndpointLayer.Shared.Flush | katcp/endpoint.c:627-652 | The draining loop computes the flush function, counts the messages and leaves the queue empty |
| EndpointLayer.Shared.Release | katcp/endpoint.c:654-688 | The effect is the release function on which soundness and exactness are proved |
| EndpointLayer.Shared.CloseReceiving | katcp/endpoint.c:599-611 | Clears only the receiving bit, and only of an endpoint that is up |
| EndpointLayer.Shared.CloseSending | katcp/endpoint.c:613-625 | Clears only the sending bit, and only of an endpoint that is up |
| EndpointLayer.Shared.Create | katcp/endpoint.c:271-356 | A new endpoint stands at the front of the list, up, without mail or references; all else is as it was |
| EndpointLayer.Shared.Deliver | katcp/endpoint.c:776-841 | The switch on the verdict deals with the head of the queue as the delivery function says |
| EndpointLayer.Shared.Serve | katcp/endpoint.c:755-857 | The inner loop terminates and is the serving function, also when callbacks send to the endpoint being served |
| EndpointLayer.Shared.CollectAt | katcp/endpoint.c:859-886 | Unlinking while walking the list frees only what may be freed and goes on with the right endpoint |
| EndpointLayer.Shared.Run | katcp/endpoint.c:738-890 | The whole pass over the mutable list is the pass function on which progress is proved, and keeps the layer valid |
| CallbackSlots.SlotReferred | katcp/dpx-core.c:3114-3123 | An endpoint in any slot counts among the references that the slots hold |
| CallbackSlots.Waiting.SlotAlive | katcp/dpx-core.c:3114-3123 | Hence it has a positive reference count and cannot be collected |
| CallbackSlots.Waiting.Register | katcp/dpx-core.c:3036-3130 | The first free slot takes the callback and one reference for each endpoint in it; with no free slot nothing changes |
| CallbackSlots.Waiting.Process | katcp/dpx-core.c:879-959 | A reply clears its slot and gives each reference back once, and the request kept is answered to its issuer if that is possible; informs, pause and yield leave the slot alone; in all other cases no message is sent |
| CallbackSlots.Waiting.Cancel | katcp/dpx-core.c:837-875 | Afterwards all slots are free and the only references left are those of others |
| Pipeline.ReceiveSerial | katcp/dpx-core.c:3987-4049 | A message from the client keeps the invariant, whether it is passed on or deferred |
| Pipeline.WakeRemoteSerial | katcp/dpx-core.c:1381-1448 | So does a message to the client: after a reply the next request is passed on, or over the limit all are cancelled |
| Pipeline.CancelSerial | katcp/dpx-core.c:1411-1427 | The cancellation answers every deferred request once, in order |
| Pipeline.AnswerSerial | katcp/dpx-core.c:1397-1448 | The request the handler answers is the only one outstanding, and the one whose reply the client gets next |
| Pipeline.StepSerial | katcp/dpx-core.c:1341-1459 | Every step of the client, the connection and the handler keeps the invariant or crashes the connection |
| Pipeline.RepliesInOrder | katcp/dpx-core.c:3987-4049 | Over every run without a crash: requests received are those answered on the line, then at most one outstanding, then those deferred; so replies leave in request order, one each, and when the handler is idle all are answered |
| Pipeline.ReplyExpected | katcp/dpx-core.c:1397-1403 | The consistency check for a reply without a request never fires |
| Pipeline.DeferBounded | katcp/dpx-core.c:1405-1448 | After a reply fewer requests are deferred than the limit (none if that is 0), and the mass cancellation happens exactly when there were more |
| Pipeline.ReplyWritten | katcp/dpx-core.c:1397-1448 | What a reply sets off, exactly: over the limit of the group or the default one fails all deferred requests one after the other; otherwise the first of them goes to the handler |
| Pipeline.Conveyed | katcp/dpx-core.c:1384 | Over every run without a crash: all that the handler emits, requests, informs and replies with their results, is on the line in that order, followed by what waits; between it there are only the failures of cancelled requests |
| Pipeline.VolunteeredConveyed | katcp/dpx-core.c:1384 | In particular the informs and requests emitted are those on the line followed by those waiting |
| Pipeline.SentTakenUp | katcp/dpx-core.c:3987-4049 | The other way round: the informs and replies of the client are those the handler has taken up followed by those at its endpoint, and the requests received are those that were sent |
| Pipeline.CrashExact | katcp/dpx-core.c:1429-1438 | A step crashes the connection exactly if it has a message for a handler that has closed its endpoint |
| Pipeline.CrashNeedsClose | katcp/dpx-core.c:4040-4048 | So no run crashes before the handler has closed it |
| Pipeline.RecordKept | katcp/dpx-core.c:4013-4023 | The record of the defer queue is the longest it has been over the run |
| Pipeline.OwnFlag | katcp/dpx-core.c:1387-1395 | The flag for an own request is set by writing one and cleared by a reply |
| Pipeline.Flat.ReceiveOne | katcp/dpx-core.c:3987-4049 | One turn of the parsing loop over the fields of the connection is the receiving step |
| Pipeline.Flat.ReceiveAll | katcp/dpx-core.c:3987-4055 | The loop over a batch of messages is a run of such steps, which only a crash cuts short |
| Pipeline.Flat.Wake | katcp/dpx-core.c:1341-1459 | The wake function of the remote endpoint is the sending step |
| VrblPath.NextMeans | katcp/dpx-vrbl.c:138-172 | What the answer says of the path: its first segment is well formed and ends there |
| VrblPath.NextFinds | katcp/dpx-vrbl.c:138-172 | And every well-formed first segment is found, with its end |
| VrblPath.NextElement | katcp/dpx-vrbl.c:138-172 | The loop computes that function |
| VrblPath.StrtoulDec | katcp/dpx-vrbl.c:1531-1540 | A printed number is read back as the index that strtoul and the conversion to an unsigned int make of it, which is itself up to the width of an unsigned int |
| VrblPath.Trailing | katcp/dpx-vrbl.c:1301-1312 | What follows the number is ignored by a scan, and is an error for element and excise exactly if it begins with a letter |
| VrblPath.Minus | katcp/dpx-vrbl.c:1296-1299 | A minus sign appends in a scan; for element and excise the number wraps around at the width of the index |
| VrblPath.Leading | katcp/dpx-vrbl.c:1531-1540 | White space and a plus sign before the number are skipped |
| VrblPath.PrintResolves | katcp/dpx-vrbl.c:138-172 | Every writable location, printed, is parsed back to itself, for any nesting |
| VrblValue.ScanLeaf | katcp/dpx-vrbl.c:590-720 | Unless memory is corrupted, a scan that succeeds puts its text at its target and leaves every other leaf of the variable as it was; one that fails changes no leaf |
| VrblValue.ScanOverruns | katcp/dpx-vrbl.c:1326-1347 | Memory is corrupted exactly if some array on the way is asked to grow beyond its counter, which depends on the path and the variable but not on the text |
| VrblLaws.ElementResolves | katcp/dpx-vrbl.c:830-909 | Element finds what is at the location that its path names, and nothing for a path that names none |
| VrblLaws.SetGet | katcp/dpx-vrbl.c:1244-1398 | After any successful scan of a string element at the same path yields it if the path names the target of the scan, and otherwise exactly if what the path names already held it; straight paths name the target, and the others name nothing unless a '-' reads as a sign |
| VrblLaws.SetAt | katcp/dpx-vrbl.c:590-720 | At the printed path of any location: the string is there after a success and every other leaf is as before; after a failure all leaves are; memory is corrupted exactly if an array is overrun, for which the last index has to be in the path |
| VrblLaws.SetSucceeds | katcp/dpx-vrbl.c:590-720 | When a set at the printed path of a location succeeds, for every mode, leaf type and text, outside an overrun: if and only if all payloads on the way are maps before names and arrays before indices, and the one at the end may be overwritten or, where there is none, created |
| VrblLaws.SetMakes | katcp/dpx-vrbl.c:180-196 | And what it makes: on the way maps before names, arrays before indices with just the size needed, at the end the text or an empty payload of the leaf type, and no other payload anywhere is changed |
| VrblLaws.LastIndex | katcp/dpx-vrbl.c:1301-1347 | For every array: a scan that may create corrupts memory at exactly the numbers that are read as the last index, 4294967295 and all from 2 to the power of 64 on among them |
| VrblLaws.LastIndexPath | katcp/dpx-vrbl.c:1332-1347 | Such as the path #4294967295 at an array of one string |
| VrblLaws.SetFrame | katcp/dpx-vrbl.c:309-365 | For arbitrary paths: a string that could be read is read again unless its path names the target of the scan, or memory was corrupted by an overrun |
| VrblLaws.Append | katcp/dpx-vrbl.c:1296-1299 | The token '-' adds the string as the last element, although element at the same path finds nothing; on a full array it corrupts memory |
| VrblLaws.MustCreateNew | katcp/dpx-vrbl.c:309-365 | A scan that must create only succeeds where there was no string |
| VrblLaws.NoCreateReplaces | katcp/dpx-vrbl.c:590-720 | A scan that must not create leaves the set of locations as it is |
| VrblLaws.ExciseExact | katcp/dpx-vrbl.c:722-828 | An excise that removes something removes the payload at its path, of any type, and everything below: element finds nothing there any more, the maps and arrays on the way still stand, arrays with their size, and every payload beside the way is what it was; where nothing is there nothing changes, and success means it was relaxed |
| VrblLaws.ExciseMissing | katcp/dpx-vrbl.c:722-828 | Where nothing is there, an excise succeeds exactly if it is relaxed and no name meets an array or index a map on the way |
| VrblWalk.ScanSane | katcp/dpx-vrbl.c:590-720 | Scans that do not corrupt memory keep names plain and arrays within the width of their index |
| VrblWalk.ExciseSane | katcp/dpx-vrbl.c:1400-1500 | So do excises |
| VrblWalk.LeavesExact | katcp/dpx-vrbl.c:1028-1127 | The listing of leaves has each string that is not NULL exactly once with its location, and nothing else |
| VrblWalk.LeavesInOrder | katcp/dpx-vrbl.c:1028-1127 | The listing is in the order of the locations: names by their bytes, indices by number, at every depth |
| VrblWalk.CallsMatch | katcp/dpx-vrbl.c:1654-1720 | The calls of foreach are that listing in that order, each with the path of its location |
| VrblWalk.ForeachRoundTrip | katcp/dpx-vrbl.c:1028-1127 | Together: every string once, with its path; that path leads element back to the string if and only if every index is below 1000000000, and otherwise names the location with those indices shortened |
| VrblWalk.AnswerMeans | katcp/dpx-vrbl.c:438-460 | An enumeration answers with a failure if and only if there is a NULL string anywhere in the variable or the visitor fails for one of the others |
| VrblWalk.ArrayAnswer | katcp/dpx-vrbl.c:1690-1720 | The answer for an array is that of the last slot that fails, and 0 if none does |
| VrblPayload.Payload.ScanString | katcp/dpx-vrbl.c:372-388 | On the mutable payload: the scan function, in place |
| VrblPayload.Payload.ScanTree | katcp/dpx-vrbl.c:590-720 | The same for maps, with payloads created on the way; every payload object that was at a location of the variable is still there; after a loss further down the payload is not valid any more |
| VrblPayload.Payload.ScanArray | katcp/dpx-vrbl.c:1244-1398 | The same for arrays, which grow with empty slots and keep their payload objects in place; if the new size wraps the payload is lost |
| VrblPayload.Payload.Element | katcp/dpx-vrbl.c:1502-1576 | The payload found is the object at the location that the path names, and has the value that the element function gives |
| VrblPayload.Payload.ExciseTree | katcp/dpx-vrbl.c:722-828 | Deleting in place follows the excise function, and what is left are the same payload objects in the same places |
| VrblPayload.Payload.ExciseArray | katcp/dpx-vrbl.c:1400-1500 | The same for arrays |
| VrblPayload.Payload.ForeachTree | katcp/dpx-vrbl.c:1073-1127 | The visitor is called as the enumeration function says, and the return code is that of the answer function |
| VrblPayload.Payload.ForeachArray | katcp/dpx-vrbl.c:1654-1720 | The same for arrays |
| RingQueue.WiderAppended | katcp/generic-queue.c:132-168 | A full ring grown by one slot, however it is rotated, holds the same elements followed by the new one, and NULL elsewhere |
| RingQueue.ShiftUpRemoved | katcp/generic-queue.c:290-299 | Moving the elements between the head and the slot up removes exactly that element |
| RingQueue.ShiftDownRemoved | katcp/generic-queue.c:301-319 | Moving the tail back, for a slot that has wrapped below the head, removes exactly that element |
| RingQueue.Gueue.AddTail | katcp/generic-queue.c:119-171 | The queue is the old one with the datum at its end; a NULL datum is refused |
| RingQueue.Gueue.GetFromHead | katcp/generic-queue.c:175-196 | The element at a position, or NULL past the end |
| RingQueue.Gueue.GetPrecedenceHead | katcp/generic-queue.c:203-244 | The first element that is precedent enough, and NULL only if none is; without a precedence function the head |
| RingQueue.Gueue.RemoveIndex | katcp/generic-queue.c:248-326 | Removing at any occupied slot of the ring leaves the others in order; an empty queue answers NULL |
| RingQueue.Gueue.RemoveFromHead | katcp/generic-queue.c:328-356 | Removing at a position, and nothing past the end |
| RingQueue.Gueue.RemoveDatum | katcp/generic-queue.c:358-384 | Removes the first occurrence of the datum and no other; the rest stays in order |
| Heap.StepUp | katcp/heap.c:265-310 | One swap towards the top moves the only place that may be out of order up |
| Heap.StepDown | katcp/heap.c:367-424 | One swap with the lesser child moves it down |
| Heap.Heap.CascadeUp | katcp/heap.c:265-310 | Repairs a key that may be too small, and otherwise leaves an order that cascading down can finish; indices and contents are kept |
| Heap.Heap.CascadeDown | katcp/heap.c:367-424 | Repairs a key that may be too large; indices and contents are kept |
| Heap.Heap.Add | katcp/heap.c:226-262 | The heap is ordered and has one element more, every node knows its index, and the result is the index it started at |
| Heap.Heap.UpdateNode | katcp/heap.c:427-479 | Up, then down, repairs any change of a key at any index; the contents change at that element only |
| Heap.Heap.UpdateTop | katcp/heap.c:482-504 | The same for the first element |
| Heap.Heap.RemoveTop | katcp/heap.c:522-568 | Takes an element that no other precedes, and keeps the rest a heap |
| Heap.TopLeast | katcp/heap.c:507-519 | In an ordered heap nothing precedes the first element |
| Heap.RemovalsSorted | katcp/heap.c:522-568 | Repeated removals come in order, for any strict weak comparison |
| Fpg.Upload.Read | fpg/fpg.c:290-307 | A short, interrupted or failed read loses and repeats no byte |
| Fpg.Upload.SearchMarker | fpg/fpg.c:281-372 | Whatever the sizes of the reads: what was loaded is the file before its first marker and what is pending is what follows the marker and up to four line ends; without a marker it answers 1, with the half buffers passed over loaded and the rest of the file pending |
| Fpg.MarkedMeans | fpg/fpg.c:314-319 | A file is marked if any marker in it is followed by enough bytes, and then the first marker ends its commands |
| Fpg.Parts | fpg/fpg.c:330-352 | A marked file is its commands, without a marker, the marker, up to four line ends, and an image that begins with a line end only if four were skipped |
| Fpg.UnmarkedGoesUpstream | fpg/fpg.c:301-303 | Of an unmarked file, what is loaded and what goes upstream make up all of it; half buffers are loaded, as many as leave enough to search, and something goes upstream unless the file is empty |
| Fpg.CommandGoesUpstream | fpg/fpg.c:724-749 | A file that is one command and nothing else goes upstream whole |
| Fpg.Upload.ProgramBin | fpg/fpg.c:502-549 | From any state of the buffer, under any short reads and writes: the bytes written followed by those pending are those that were pending at the start; when it succeeds all have been written, once and in order |
| Fpg.UploadFile | fpg/fpg.c:724-753 | Commands loaded and bytes sent depend on the file alone: the image of a marked file, the unloaded rest of any other; it only fails if a transfer fails, and then a prefix was sent |
| Subscribers.SwapOutMultiset | katcp/dpx-sensor.c:323-403 | Replacing an element by the last one removes just that element and moves none before it |
| Subscribers.Wit.Create | katcp/dpx-sensor.c:140-222 | The new subscriber is last in the vector of its strategy, and every subscriber still knows its index |
| Subscribers.Wit.Find | katcp/dpx-sensor.c:260-277 | Finds a subscriber of the client if there is one in either vector, by event first |
| Subscribers.Wit.DeleteEvent | katcp/dpx-sensor.c:335-362 | The event branch of a deletion: an entry of the event vector is gone from it, its endpoint is forgotten once, and indices stay right; for an entry of the period vector another one goes, and on an empty vector memory is lost |
| Subscribers.Wit.Delete | katcp/dpx-sensor.c:323-403 | From any state with right indices: the vector that the strategy names loses the entry at the index kept; indices and endpoints are right afterwards if and only if that vector is the one the entry is in; memory is lost exactly if it is empty; without a strategy nothing changes |
| Subscribers.TriesAll | katcp/dpx-sensor.c:435-468 | A broadcast tries every entry, each once, if and only if all of them are there for events |
| Subscribers.TriesBefore | katcp/dpx-sensor.c:435-468 | Otherwise, if nobody before the first entry of another strategy refuses, exactly those before it are tried |
| Subscribers.Overtaken | katcp/dpx-sensor.c:453-459 | And if one refuses it may be fewer, as the entry of another strategy moves to its place |
| Subscribers.Wit.Broadcast | katcp/dpx-sensor.c:424-471 | From any state with right indices, the loop that deletes on the way tries whom the function of the vector says; it goes through if all entries are there for events and otherwise answers -1; those tried and refused are gone and no others, and each of them gave back its own endpoint exactly once |
| Subscribers.Wit.MonitorEvent | katcp/dpx-sensor.c:849-886 | Indices stay right and no other entry changes; vectors and strategies that agreed still agree afterwards if and only if the client was not subscribed by period alone |
| Subscribers.Wit.MonitorPeriod | katcp/dpx-sensor.c:889-929 | The same for monitoring by period: they still agree if and only if the client was not subscribed by event |
| Subscribers.Wit.MonitorPeriodFails | katcp/dpx-sensor.c:889-908 | If the timer cannot be registered, a client that was subscribed loses that subscription, and the entry of one that was not stays in the period vector without a strategy: they still agree if and only if the client was subscribed |
| Subscribers.Wit.ForgetEvent | katcp/dpx-sensor.c:931-951 | Deletes an entry of the client found in the event vector, which is right whenever vectors and strategies agree; 1 if there is none |
| Subscribers.Wit.ForgetPeriod | katcp/dpx-sensor.c:954-973 | The same for the period vector |
| Subscribers.PeriodThenEvent | katcp/dpx-sensor.c:874-973 | Monitoring by period, then by event, then forgetting the period uses memory past the end of the empty event vector |
| Subscribers.ForgetsAnother | katcp/dpx-sensor.c:335-350 | With another client in the event vector it is that client that is not monitored any more |
| Subscribers.EventThenPeriod | katcp/dpx-sensor.c:461-466 | Monitoring by event and then by period ends every broadcast at that client, and those behind it get nothing |
| ByteBit.ByteNormalisedMeans | katcp/bytebit.c:39-64 | Normalising to bytes keeps the absolute bit position and brings the bit below eight, and fails exactly when the byte would wrap |
| ByteBit.WordNormalisedMeans | katcp/bytebit.c:66-94 | The same for words; a failure leaves the address alone |
| ByteBit.ExceedsDecides | katcp/bytebit.c:96-135 | The recursion ends; it fails exactly if a form that is not in bytes wraps, and otherwise decides the order of absolute positions for any mix of forms |
| ByteBit.BB.Make | katcp/bytebit.c:8-37 | A byte-aligned address of just the given bits, or a failure that changes nothing when the byte would wrap |
| ByteBit.BB.ByteNormalise | katcp/bytebit.c:39-64 | In place, the normalisation above |
| ByteBit.BB.WordNormalise | katcp/bytebit.c:66-94 | In place, the normalisation above |
| ByteBit.BB.Add | katcp/bytebit.c:137-163 | Whenever it returns 0 the result is the exact sum of positions, and word-aligned exactly when that form does not wrap; also when it adds in place |
| Kurl.CreateFromString | katcp/kurl.c:146-335 | The state machine over the characters computes the parse function |
| Kurl.HostRoundTrip | katcp/kurl.c:49-97 | Parsing the printed form of a URL with a host gives it back, for every port of an int and every host without ':' and '/' |
| Kurl.PathRoundTrip | katcp/kurl.c:146-335 | Text after such a URL is its path, slashes and colons included, up to a line end |
| Kurl.PortEnds | katcp/kurl.c:146-335 | Without the slash there is no path, and the port ends at a line end or with the text |
| Kurl.PortAnew | katcp/kurl.c:146-335 | Of a port with colons in it only what follows the last one counts |
| Kurl.HostRoundTripOnly | katcp/kurl.c:146-335 | And for no other host |
| Kurl.CommandRoundTrip | katcp/kurl.c:146-335 | A printed exec URL always parses, and to the same command if and only if that has no '#' and no line end that matters |
| Kurl.TailRoundTrip | katcp/kurl.c:146-335 | After a plain command a hash or a line end starts the path, which goes up to the next line end; nothing after it is no path |
| Kurl.PrefixMatch | katcp/kurl.c:409-423 | The index loop decides whether the one string begins with the other |
| Kurl.Containing | katcp/kurl.c:425-489 | Accepts exactly the strings that begin with the canonical prefix, and gives its length; a URL with neither host nor command contains nothing |
| Kurl.ContainsItself | katcp/kurl.c:425-489 | A URL with a host contains its own printed form if and only if its scheme is written katcp |

## Left out

- Sockets, select loops, processes, signals, logging, formatting and the argument parsing of every program: plumbing.
- Allocation failures and the rollbacks behind them; `unsigned int` overflow of sizes, counts and heap indices.
- Tracing and consistency checks that are compiled in on demand; in `callback_flat_katcp` the first free slot is taken, as
  in a build without those checks (with them it is the last one).
- The wire parser and messages beyond their kind and identity; what a handler answers besides its result code.
- `katcp/dpx-cmds.c`: the reference counts of shared command items and maps, which would add only easy members next to
  the tree and the endpoint layer.
- `katcp/dbase.c`, `katcp/ktype.c`, `katcp/arb.c`, the dispatch and command handler files, and the printing functions.
- The list of endpoints is a sequence, not links through `e_next`. Its flush counters, `s_epcount`, its precedence field
  (only ever zero) and the release callbacks of endpoints are not modelled.
- Wake callbacks are scripts of calls into the layer; one that releases its own endpoint or creates endpoints during a
  pass is excluded. A reply with a NULL sender, which the code would dereference, is excluded by `Sendable`.
- A handler that answers a pipelined request never, or more than once: `Pipeline.Answered` takes the request off the
  list of those the handler is busy with.
- CallbackSlots.Waiting.Register: the usage error of a callback without flags, which leaves a message in a free slot, and
  the matching of replies to slots by name are not modelled.
- What memory holds after an array was overrun (`VrblValue.Corrupted`): nothing is said of it.
- VrblPayload.Payload.ScanTree: the tree inside a map-typed variable is taken as the map that it implements;
  `AvlIndex.InorderSorted` says why its traversal order is the one used here.
- VrblPayload.Payload.ExciseTree: a NULL path below the top level, which the callers never pass, is not modelled.
- VrblPayload.Payload.ForeachTree: the answer of a visitor is a function of the path and the string it is given.
- Freed payloads stay in the ghost footprint of the variable that owned them; there is no model of `free`.
- The change of a variable's type by `fixup_type_vrbl_katcp`, the scopes and search of `update_vrbl_katcp`, and the
  other textual forms of a variable.
- Heap.Heap.UpdateTop: on an empty heap the code takes whatever the first array entry holds; the model requires an element.
- Fpg.UploadFile: `check_bitstream`, the exchange with the server around the two loops and the commands that main sends
  after them; an interrupted transfer is retried as often as the list of outcomes says, after which transfers are complete.
- Subscribers.Wit.Broadcast: whether an endpoint accepts a message is one answer for each endpoint and broadcast.
- Subscribers.Wit.MonitorPeriod: the heap timers of periodic subscribers, and what memory holds after a deletion has run
  past the end of a vector.
- EndpointLayer.Shared.CollectAt: the list is a sequence, so the relinking through `e_next` is not modelled.
- Kurl.CreateFromString: `copy_kurl_string_katcp` with a path uses index 0 for "not found" and is left out; strings are
  without NUL, and a port beyond `int` is clamped or cut as strtol and the conversion to int do on a 64-bit machine.
