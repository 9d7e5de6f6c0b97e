# A verified model of the network tunneler

The tunneler is three programs. A *client* intercepts local TCP connections, a *proxy* dials
their targets from inside another network, and a *server* relays packets between them. Client
and proxy each hold one bidirectional stream to the server. This project models the server's
registry and sessions, the client's tracker and handlers, the proxy's forwarder and readers, the
loops between them, and the packet code in `pkg/network`, and proves what they keep.

## How the model is laid out

Code that changes things in place is modelled that way: maps are fields that methods reassign,
routes and connection states are objects that outlive their place in a map, buffers are arrays,
and loops are loops. Each such method is proved equal to a function on values, and the theorems
are about those functions.

| file | what it models |
|---|---|
| `Bytes.dfy` | bytes, words, big-endian encoding, `copy`, bitwise or |
| `Checksum.dfy` | `pkg/network/checksum.go`, against RFC 1071 |
| `Packet.dfy` | `pkg/network/packet.go`, and recalculation |
| `ConnectionId.dfy` | `pkg/network/connection.go`; the hash function is a parameter |
| `Cidr.dfy`, `Routing.dfy`, `Registry.dfy` | address blocks; the registry as values; the registry as written |
| `Server.dfy` | the server as interleaved steps: one step per locked section, send or receive |
| `Ownership.dfy`, `Traffic.dfy`, `Stickiness.dfy` | theorems over the server's runs |
| `Paths.dfy`, `Sessions.dfy` | sequences of steps; the two `Connect` loops as written |
| `Connections.dfy`, `ConnectionTable.dfy` | tracker and forwarder tables as values, and as written |
| `Process.dfy`, `Lifecycle.dfy`, `Activity.dfy` | a client or proxy as interleaved steps; sockets, entries and idle times over its runs |
| `Steps.dfy`, `Reading.dfy` | the steps of one goroutine by itself; the two reading loops as written, over one buffer |
| `Pipeline.dfy`, `Carriage.dfy`, `EndToEnd.dfy` | packets in transit; what a process carries; any number of processes and the server composed |
| `Delivery.dfy`, `Direction.dfy`, `Losses.dfy`, `Once.dfy`, `Fate.dfy`, `Tuples.dfy` | theorems over the runs of the whole system |
| `Projection.dfy`, `Progress.dfy` | a run of the whole system is a run of each of its parts; what can happen next, and that a packet with nothing in its way arrives |
| `Witness.dfy` | runs that deliver a packet, a response, another byte than was read, and two connections to one target |

A *run* is a sequence of states of which each follows from the one before by an enabled step. The
theorems hold in every state of every run, so for every interleaving, any number of clients,
proxies and connections, repeated and colliding IDs, lost messages and failed writes.

Packets carry three history fields that no program looks at: the socket they were read from, the
number of that read, and how many reads its goroutine had made when the bytes were last copied out of
its buffer. They let a theorem say which packet is which.

## What is proved of the whole system

* **Order and contents of responses.** What reaches a local connection is, for each target
  connection, a subsequence of the chunks read there, byte for byte
  (`Delivery.ResponsesArriveInOrder`).
* **Order of forwarded packets**, for identity, ID, tuple and length
  (`Delivery.PacketsArriveInOrder`). Their *contents* may differ: a handler queues a slice of the
  buffer it reads into. `Witness.OverwrittenBeforeSent` is a run in which a target is sent
  another byte than was read; `Delivery.BytesArriveExactly` says exactly when the bytes are those of the read.
* **Isolation.** What is written to a socket was read at a process of the other role, from a
  socket of the same connection ID (`Direction.WrittenComesFromTheOtherSide`). It belongs to one
  tuple as long as the client connections of that ID do (`Tuples.OneTuplePerTarget`).
* **At most once.** A chunk is written to one socket at most, of one process, and there once
  (`Once.WrittenOnce`).
* **Losses.** A chunk read is on its way or written, or it was given up, once, at one of the
  places where the code gives packets up, and is never written: one or the other
  (`Fate.ExactlyOneFate`, `Fate.GivenUpIsNeverWritten`). Where nothing was given up, delivery is
  complete (`Fate.DeliveryIsComplete`).
* **Progress.** A packet with nothing in its way arrives: the steps that bring it to the one socket
  its ID leads to are possible, in both directions, and are given with all they change
  (`Progress.PacketReachesItsTarget`, `Progress.ResponseReachesItsSocket`). `Losses.GivenUp` says in
  terms of the tables when a packet is given up instead.
* **Idle connections and routes** go exactly when nothing has used them lately
  (`Activity.CleanupKeepsExactlyUsed`, `Stickiness.SweepKeepsExactlyUsed`).
* **The parts inside the whole.** Each process, and the server, goes through a run of its own
  (`Projection.ProcessRun`, `Projection.ServerRun`), so what is proved of its sockets, its tables
  and its counters holds inside the system.

## Where the code differs from what one may expect

* "A goroutine removes its own connection" is false: removal is by ID
  (`Lifecycle.StaleReaderClosesNewer`; `Lifecycle.RemovalClosesExactly` says what is closed). Sockets
  are not leaked all the same.
* "A session routes under an ID it was granted" is false after a second, refused registration
  (`Ownership.RefusedIdIsStillUsed`): it holds if and only if the ID named last was free or the
  session's own when it was named (`Ownership.OwnIdExactly`).
* "A target is sent the bytes of one connection" is false when two share an ID, as a tuple and
  its reverse do (`ConnectionId.ReverseHasSamePreimage`): `Witness.TwoTuplesOneTarget`.
* `Parse` does not return the printed packet, nor does a recalculated header verify, for every
  packet: `Packet.IPRoundTripExactly`, `Packet.TCPRoundTripExactly` and
  `Packet.RecalculatedHeaderVerifiesExactly` give the conditions, `Packet.StaleLengthIsNotKept`,
  `Packet.ReservedFlagsAreLost` and `Packet.StaleLengthFailsChecksum` inputs. `ParseIPPacket`
  slices out of range when the total length is below the header length
  (`Packet.ParseIPPanicsExactly`, `Packet.ZeroLengthPanics`).
* `RecalculateTCPChecksum` and `RecalculateUDPChecksum` store into the IP header checksum, which
  `RecalculateChecksums` then overwrites; the payload never receives its checksum.
* The 32-bit accumulator of the checksum wraps beyond 131074 bytes; `Checksum.BoundIsTight` is an
  input just above, `Checksum.MeetsRfc1071Exactly` the exact condition for any length. Beyond the
  bound the RFC's algebra fails too (`Checksum.ByteOrderMatters`, `Checksum.LongChangeNoticed`);
  `Checksum.ByteOrderIndependentExactly` and `Checksum.WordChangeUndetectedExactly` say when it
  holds.
* With nested or equal blocks, the proxy chosen depends on map iteration order
  (`Routing.SelectionOrderIndependentExactly`, `Routing.NestedBlocksAreAmbiguous`).
* The hashed bytes determine the endpoints if and only if the sum of two address lengths
  determines both (`ConnectionId.InjectiveExactly`), as it does for the lengths a `net.IP` has.

## Model

| member | source | states |
|---|---|---|
| Checksum.CalculateChecksum | pkg/network/checksum.go:10-30 | For all data, the accumulator's result; up to 131074 bytes, the one's complement of the one's complement sum that RFC 1071 defines |
| Checksum.AddWords | pkg/network/checksum.go:11-22 | The word loop and the odd byte leave the sum of all 16-bit words modulo 2^32 |
| Checksum.FoldCarries | pkg/network/checksum.go:24-27 | Carry folding ends after at most two rounds, with the accumulator's residue |
| Checksum.FoldKeepsResidue | pkg/network/checksum.go:24-27 | One round keeps the residue modulo 0xFFFF and decreases the accumulator |
| Checksum.OnesSumIsResidue | pkg/network/checksum.go:10-30 | End-around-carry addition, word by word, is the residue of the plain sum |
| Checksum.MeetsRfc1071Exactly | pkg/network/checksum.go:10-30 | The code meets RFC 1071 if and only if the lost multiples of 2^32 are a multiple of 0xFFFF and did not leave the accumulator at zero |
| Checksum.RefinesRfc1071 | pkg/network/checksum.go:10-30 | Up to 131074 bytes the accumulator never wraps |
| Checksum.BoundIsTight | pkg/network/checksum.go:10-30 | With 131076 bytes it wraps and the result is not the RFC's |
| Checksum.WordOrderIrrelevant | pkg/network/checksum.go:10-30 | Permuting the 16-bit words leaves the checksum as it is |
| Checksum.ByteOrderIndependent | pkg/network/checksum.go:10-30 | Swapping the bytes of every word swaps the bytes of the RFC's checksum, and of the code's up to 131074 bytes |
| Checksum.ByteOrderIndependentExactly | pkg/network/checksum.go:10-30 | For even data of any length the code's checksum is swapped if and only if the carries lost with and without the swap correspond, and both accumulators or neither end at zero |
| Checksum.ByteOrderMatters | pkg/network/checksum.go:10-30 | With 131076 bytes of 0xFF it is not |
| Checksum.WordChangeUndetectedExactly | pkg/network/checksum.go:10-30 | For data of any length a change of one word goes unnoticed by the code if and only if it is none, or one between 0 and 0xFFFF while the other words leave an accumulator above zero that does not wrap; up to 131074 bytes, and for the RFC at any length, while some other word is not zero |
| Checksum.LongChangeNoticed | pkg/network/checksum.go:10-30 | Two inputs of 131076 bytes that the RFC does not tell apart and the code does |
| Checksum.ByteChangeDetected | pkg/network/checksum.go:10-30 | Every change of a single byte changes the code's checksum, and the RFC's, in data of any length |
| Checksum.OddIsPadded | pkg/network/checksum.go:20-22 | Data of odd length has the checksum of the same data with a zero byte at the end, in the code and by the RFC |
| Checksum.RfcExample | pkg/network/checksum.go:10-30 | The numerical example of RFC 1071, section 3 |
| Checksum.FieldAcceptedExactly | pkg/network/checksum.go:10-39 | A checksum field makes the whole verify to zero if and only if it holds the computed value, or its other zero |
| Checksum.SegmentAcceptedExactly | pkg/network/checksum.go:61-110 | The same for a segment after its pseudo-header |
| Checksum.CalculateIPChecksum | pkg/network/checksum.go:32-51 | The header's checksum with its own field read as zero, and that the header verifies once it is stored there |
| Checksum.SerializePseudoHeader | pkg/network/checksum.go:61-69 | The 12 bytes written in place are the pseudo-header of RFC 9293, section 3.1, and RFC 768 |
| Checksum.EitherFormInPseudoHeader | pkg/network/checksum.go:61-69 | An IPv4 address stands in the pseudo-header in four bytes, whether it comes in four or, as from `net.ParseIP`, in sixteen |
| Checksum.CalculateTCPChecksum | pkg/network/checksum.go:82-92 | The checksum of pseudo-header and segment with its field zeroed, and that the segment verifies once it is stored |
| Checksum.CalculateUDPChecksum | pkg/network/checksum.go:94-110 | The same, with 0 replaced by 0xFFFF, which verifies too |
| Packet.IPPacket.Parse | pkg/network/packet.go:59-103 | The fields filled in one by one are those of the parsed value, the error cases and the out-of-range slice included |
| Packet.IPPacket.Serialize | pkg/network/packet.go:136-161 | The bytes written and overlaid in place are the printed packet |
| Bytes.OrByte | pkg/network/packet.go:140 | The byte computed is the bitwise or of its operands |
| Bytes.OrFlags | pkg/network/packet.go:145 | The word computed is the bitwise or of the shifted flags, cut to 16 bits, and the masked offset |
| Packet.IPRoundTripExactly | pkg/network/packet.go:59-161 | Parsing a printed packet returns it if and only if its fields are consistent |
| Packet.StaleLengthIsNotKept | pkg/network/packet.go:136-161 | A packet with a stale length field is not what parsing its print returns |
| Packet.IPReprint | pkg/network/packet.go:59-161 | Printing a parsed packet returns the input up to its total length, or the whole input with the length field corrected |
| Packet.ParseIPPanicsExactly | pkg/network/packet.go:59-103 | The payload slice is out of range if and only if the header is otherwise accepted and the total length field is below the header length |
| Packet.ZeroLengthPanics | pkg/network/packet.go:92-97 | Twenty bytes with a zero length field make the slice go out of range |
| Packet.IPPacket.RecalculateIPChecksum | pkg/network/checksum.go:112-133 | Only the checksum field changes, to that of the header built from the packet's own length field |
| Packet.IPPacket.RecalculateTCPChecksum | pkg/network/checksum.go:135-142 | The segment's checksum goes into the IP header's checksum field; other protocols are left alone |
| Packet.IPPacket.RecalculateUDPChecksum | pkg/network/checksum.go:144-151 | The same for UDP |
| Packet.IPPacket.RecalculateChecksums | pkg/network/checksum.go:153-168 | Leaves the packet as the header recalculation alone would |
| Packet.RecalculatedHeaderVerifiesExactly | pkg/network/checksum.go:112-133 | The printed header verifies to zero after recalculation if and only if the stored length is the printed length, or collides with it |
| Packet.StaleLengthFailsChecksum | pkg/network/checksum.go:112-133 | The header checksum recalculated for that packet does not verify once it is printed |
| Packet.TCPPacket.Parse | pkg/network/packet.go:105-134 | The fields filled in are those of the parsed value, error cases included |
| Packet.TCPPacket.Serialize | pkg/network/packet.go:163-184 | The bytes written in place are the printed segment |
| Packet.TCPRoundTripExactly | pkg/network/packet.go:105-184 | Parsing a printed segment returns it if and only if its fields are consistent |
| Packet.ReservedFlagsAreLost | pkg/network/packet.go:163-184 | A segment with one of the two upper flag bits set is not what parsing its print returns |
| Packet.TCPReprint | pkg/network/packet.go:105-184 | Printing a parsed segment returns the input with its reserved bits cleared |
| Packet.KnownPacket | pkg/network/packet.go:136-161 | One packet, byte by byte, printed and parsed |
| Packet.KnownSegment | pkg/network/packet.go:163-184 | One segment, byte by byte, printed and parsed |
| Packet.NestedRoundTrip | pkg/network/packet.go:59-184 | A segment printed into a packet's payload is recovered through both parsers |
| ConnectionId.CompareIPs | pkg/network/connection.go:105-123 | Shorter first, then by the first different byte: -1, 0 and 1 exactly for below, equal and above |
| ConnectionId.LessIsTotal | pkg/network/connection.go:105-123 | Any two different addresses are ordered one way |
| ConnectionId.LessIsTransitive | pkg/network/connection.go:105-123 | The order is transitive |
| ConnectionId.EndpointOrder | pkg/network/connection.go:61-86 | Address, then port, totally orders endpoints |
| ConnectionId.GenerateConnectionID | pkg/network/connection.go:61-86 | The ID is the hash of the canonical preimage |
| ConnectionId.HashEndpoints | pkg/network/connection.go:73-85 | One port buffer is overwritten for the second port, and still the hasher is fed the encoding of both endpoints |
| ConnectionId.GenerateConnectionIDFromPacket | pkg/network/connection.go:26-98 | The ID of a packet is the hash of its tuple's preimage, or an error for other protocols and short payloads |
| ConnectionId.ReverseHasSamePreimage | pkg/network/connection.go:52-86 | A reversed tuple has the same ID |
| ConnectionId.ReplyHasSamePreimage | pkg/network/connection.go:26-98 | A packet and its reply have the same ID |
| ConnectionId.RepresentationIrrelevant | pkg/network/connection.go:61-71 | The 4-byte and 16-byte forms of an IPv4 address give the same ID |
| ConnectionId.EitherFormHashesTheSame | pkg/network/connection.go:61-85 | Two IPv4 addresses, each in four bytes or in the sixteen of `net.ParseIP`, hash the same twelve bytes |
| ConnectionId.OtherwiseHashedAsTheyAre | pkg/network/connection.go:61-65 | When one of the two is no IPv4 address, both are hashed in the form they came in |
| ConnectionId.KnownPreimage | pkg/network/connection.go:67-85 | One flow's hashed bytes |
| ConnectionId.TupleOfSegment | pkg/network/connection.go:26-44 | A packet that carries a segment has the segment's ports in its tuple, each with its own address |
| Bytes.OnlyIPv4 | pkg/network/connection.go:61-65 | What counts as IPv4: four bytes, or sixteen that begin with ten zeros and two of 0xFF |
| ConnectionId.EncodingIsInjective | pkg/network/connection.go:73-85 | The unseparated encoding of two endpoints can be decoded once the length of the first address is known |
| ConnectionId.SameEndpointsExactly | pkg/network/connection.go:61-86 | For addresses of any lengths, two tuples have the same unordered pair of normalised endpoints if and only if their preimages and their lengths are equal |
| ConnectionId.InjectiveExactly | pkg/network/connection.go:61-86 | Over a set of address lengths, equal preimages mean the same endpoints if and only if no two different pairs of these lengths have the same sum |
| ConnectionId.OtherLengthsCollide | pkg/network/connection.go:61-86 | Any two different pairs of lengths with the same sum have tuples that collide |
| ConnectionId.PreimageExactly | pkg/network/connection.go:61-86 | For addresses of 0, 4 or 16 bytes, equal preimages if and only if the same unordered pair of endpoints |
| Cidr.WithinMeansSubset | internal/server/registry.go:447-470 | One block lies within another if and only if every address it contains is in the other |
| Cidr.NestedOrDisjoint | internal/server/registry.go:447-470 | Two blocks that share an address are nested |
| Cidr.ContainsIsInterval | internal/server/registry.go:447-470 | A block is an interval of address values, which starts at its base with the bits after the prefix cleared |
| Routing.SelectionOrderIndependentExactly | internal/server/registry.go:447-470 | The choice never depends on map order if and only if no two registered blocks are nested or equal |
| Routing.NestedBlocksAreAmbiguous | internal/server/registry.go:447-470 | With two nested blocks, either proxy may be chosen for one address |
| Registry.Registry.FindProxyByCIDR | internal/server/registry.go:207-240 | Whatever the iteration order: a registered proxy whose block contains the address, or none when there is none |
| Registry.Registry.RegisterClientStream | internal/server/registry.go:117-138 | A new ID is stored with its stream; a known one is refused and nothing changes |
| Registry.Registry.UnregisterClient | internal/server/registry.go:140-151 | Exactly that ID is removed |
| Registry.Registry.RegisterProxyStream | internal/server/registry.go:161-184 | The same for proxies, with their block |
| Registry.Registry.UnregisterProxy | internal/server/registry.go:186-197 | Exactly that ID is removed |
| Registry.Registry.LookupFromClient | internal/server/registry.go:285-324 | The first locked section: the route found and touched, or created for a chosen proxy, and the stream to use |
| Registry.Registry.LookupFromProxy | internal/server/registry.go:342-356 | The first locked section for responses: the stream of the client that the stored route names, if there is a route and the client is registered, and none otherwise; the route is active now |
| Registry.Registry.AddRoute | internal/server/registry.go:300-308 | A new route object, numbered and with counters at zero, replaces whatever the ID led to |
| Registry.Registry.CountToProxy | internal/server/registry.go:326-329 | The second locked section, also for a route that has left the map |
| Registry.Registry.CountToClient | internal/server/registry.go:358-361 | The same for responses |
| Registry.Registry.RouteFromClient | internal/server/registry.go:285-340 | Both sections with nothing between them: the stream of the proxy that the route names, stored or newly created, and both counters raised if it is registered |
| Registry.Registry.RouteFromProxy | internal/server/registry.go:342-372 | Both sections for responses: the same stream, and both response counters raised if there is one |
| Registry.Registry.CleanupStaleConnections | internal/server/registry.go:87-115 | Collecting first and deleting then removes exactly the routes idle for more than five minutes; the count is the drop in size |
| Registry.Registry.CollectStale | internal/server/registry.go:93-99 | The first loop collects each over-idle ID once, in whatever order, and no other |
| Registry.Registry.DeleteAll | internal/server/registry.go:101-114 | The second loop deletes exactly those, one each |
| Registry.Registry.RemoveConnection | internal/server/registry.go:374-380 | Exactly that route leaves the map |
| Server.StepKeepsShape | internal/server/registry.go:285-372 | Every step keeps routes stored under their own ID, and calls under way on routes of their packet's ID |
| Server.StepFrame | internal/server/grpc_client.go:23-118 | A step changes no session but its own |
| Server.ReceiveFindsTarget | internal/server/registry.go:285-372 | A packet received is relayed if and only if the maps lead to a stream: its route's proxy or client, or the proxy chosen for a new route, is registered; and then to that stream |
| Ownership.ExactlyOneOwner | internal/server/grpc_client.go:54-74 | An ID is in a table if and only if some session has a deferred unregister for it, exactly one does, and its stream is the stored one |
| Ownership.UnwindRemovesOwnId | internal/server/grpc_proxy.go:58-82 | Each deferred unregister removes an ID of its own stream, and nothing else |
| Ownership.AllEndedLeavesNothing | internal/server/grpc_client.go:54-74 | Once all streams have ended, both tables are empty |
| Ownership.OneRegisterSendsUnderOwnId | internal/client/server_conn.go:105-145 | A session that registers once, as the client does, sends under an ID that is stored for its stream |
| Ownership.OwnIdExactly | internal/server/grpc_client.go:54-72 | With any registrations, a session that goes on receiving routes under an ID of its own if and only if the ID it named last was free, or its own already, when it named it |
| Ownership.RefusedIdIsStillUsed | internal/server/grpc_client.go:54-99 | A run in which a session's packet creates a route for another stream's ID, to which the responses will go |
| Traffic.TrafficIsConserved | internal/server/registry.go:326-329 | Over all routes ever created, the counters add up to the calls past the counting section, and to their bytes, modulo 2^64 |
| Traffic.CountedCallsAreSentOnce | internal/server/registry.go:326-339 | Each such call is sent once, in order, to the stream of its lookup; at most the last is still to be sent |
| Stickiness.BindingNeverChanges | internal/server/registry.go:288-317 | A route keeps its ID, client, proxy and creation time for good |
| Stickiness.NewRouteIsCreated | internal/server/registry.go:289-314 | A step creates one route at most, and only for a client's packet, with every counter at zero |
| Stickiness.EveryRouteWasCreated | internal/server/registry.go:289-314 | Each route was created for a registered client, to a proxy registered then whose block contains the packet's destination |
| Stickiness.CallsGoWhereRegistered | internal/server/registry.go:319-339 | Packets of a route go to the stream registered, at their lookup, under its proxy; responses to that under its client |
| Stickiness.RunKeepsTimely | internal/server/registry.go:300-317 | Creation, last activity and clock are in order for every route |
| Stickiness.RouteInUseSurvives | internal/server/registry.go:87-115 | A route used at gaps of at most five minutes is never swept |
| Stickiness.SweepKeepsExactlyUsed | internal/server/registry.go:87-115 | In every run, a sweep keeps a stored route if and only if it was used at most five minutes before |
| Stickiness.ActiveRouteSurvives | internal/server/registry.go:87-115 | A route that is not over-idle at any sweep, and not removed by hand, stays |
| Stickiness.SweepRemovesExactlyIdle | internal/server/registry.go:87-115 | After a sweep a stored route is there if and only if it was not idle for more than five minutes |
| Stickiness.RemovedRouteStaysRemoved | internal/server/registry.go:374-380 | A route that left the map never comes back; its ID gets a new one |
| Sessions.Connect | internal/server/grpc_client.go:23-118 | The loop takes exactly the steps of a session that plays the inbox, message by message, up to the first lost ack, then stops and unwinds; what it sends is what those steps send, and both registration tables are restored |
| Sessions.ReceiveRegister | internal/server/grpc_client.go:54-80 | The ID is remembered and acknowledged even when refused; a deferred call is added when granted |
| Sessions.ReceivePacket | internal/server/grpc_proxy.go:88-110 | A registered session sends the packet to the stream the lookup found, with both counters raised, or nothing when it failed, and the tables are those of the lookup; an unregistered one does nothing |
| Sessions.ReceiveMessage | internal/server/grpc_client.go:53-116 | A registration is a Register and its ack; a packet a lookup and, when it succeeds, the counting and the send; other messages do nothing |
| Sessions.SessionSendsItsInbox | internal/server/grpc_client.go:83-105 | All that a session sends are packets of its inbox, each once and in order |
| Sessions.RunDeferred | internal/server/grpc_proxy.go:58-82 | The deferred calls, last first, are the Unwind steps to the session's end, and restore both registration tables |
| Sessions.RegisterGrants | internal/server/grpc_client.go:54-72 | However often IDs are registered, the tables differ from the beginning by exactly the deferred IDs |
| Connections.OneMoreExpired | internal/proxy/forwarder.go:183-195 | Deciding one more entry, in any order, removes it if and only if it is over-idle |
| ConnectionTable.ConnectionTable.Track | internal/client/tracker.go:41-58 | A new state object replaces whatever is stored under the ID; its socket stays open |
| ConnectionTable.ConnectionTable.UpdateActivity | internal/client/tracker.go:68-75 | What is stored under the ID is active at the time of the call, and no other state object changes |
| ConnectionTable.ConnectionTable.Remove | internal/proxy/forwarder.go:162-174 | Whatever is stored under the ID is closed and removed, and nothing else |
| ConnectionTable.ConnectionTable.Cleanup | internal/proxy/forwarder.go:176-203 | Exactly the connections unused for longer than the limit are removed and their sockets closed, whatever the iteration order; the count is the drop in size |
| ConnectionTable.ConnectionTable.CleanupOne | internal/client/tracker.go:98-110 | One iteration, whatever was decided before it |
| ConnectionTable.ConnectionTable.Dial | internal/proxy/forwarder.go:52-69 | A new socket, and a new state object for it under the ID |
| ConnectionTable.ConnectionTable.ForwardLookup | internal/proxy/forwarder.go:49-77 | A known connection is active now; an unknown one is dialed and stored, or nothing changes |
| ConnectionTable.ConnectionTable.WriteOrRemove | internal/proxy/forwarder.go:79-83 | The bytes are appended to that socket, or whatever is stored under the ID is closed and removed |
| ConnectionTable.ConnectionTable.Forward | internal/proxy/forwarder.go:49-91 | Both sections with nothing between them: the bytes go to the end of the one connection of that ID |
| ConnectionTable.ConnectionTable.DeliverResponse | internal/client/tracker.go:120-144 | Likewise at the client, where the connection is active now, and a failed write removes nothing |
| Reading.Handle | internal/client/handler.go:31-124 | The table loses at most the handler's own ID, only its socket is closed, the first reads find the free slots, and every packet queued shows what the buffer holds at the end; steps of the process model lead to the same table and queue |
| Reading.Turn | internal/client/handler.go:73-122 | A read that is not empty is queued, or dropped exactly when the queue is full, as in the steps of the model |
| Reading.CopyTurn | internal/proxy/forwarder.go:113-153 | A read that is not empty is queued as a copy if there is a slot, and otherwise given up at a stop, as in the steps of the model |
| Reading.ReadFromTarget | internal/proxy/forwarder.go:97-160 | What is queued are the bytes of each read, whatever is read later; the removal is by ID; steps of the process model lead to the same table and queue |
| Reading.SlicesShowBuffer | internal/client/handler.go:73-100 | The bytes of every queued slice are those the buffer holds now |
| Process.StepKeepsShape | internal/client/handler.go:31-124 | Entries, goroutines and sockets stay matched, in both roles |
| Steps.TurnSteps | internal/client/handler.go:73-122 | One turn of a reading loop, alone: a read, the activity, and the packet queued or dropped |
| Steps.AbandonSteps | internal/proxy/forwarder.go:144-153 | A turn that ends with a full channel and a stop gives its packet up |
| Steps.EndSteps | internal/client/handler.go:31-65 | A goroutine that leaves its loop removes its ID and, at the client, closes its socket |
| Lifecycle.RunKeepsOwned | internal/client/handler.go:31-65 | In every run, whatever a table holds belongs to a goroutine that has still to run its own removal |
| Lifecycle.DialedIsStoredOrClosed | internal/proxy/forwarder.go:49-95 | Every connection ever dialed is open if and only if it is in the map, there once, under its own ID |
| Lifecycle.NoSocketLeaksAtTheProxy | internal/proxy/forwarder.go:212-217 | When all readers are gone the map is empty and every connection ever dialed is closed |
| Lifecycle.NoSocketLeaksAtTheClient | internal/client/handler.go:31-65 | When all handlers have returned the tracker is empty and every connection ever accepted is closed |
| Lifecycle.CleanupClosesExactly | internal/client/tracker.go:91-118 | A cleanup closes a socket if and only if it is stored and over-idle |
| Lifecycle.RemovalClosesExactly | internal/proxy/forwarder.go:162-174 | A deferred removal closes a socket if and only if it is the one stored under that ID |
| Lifecycle.StaleReaderClosesNewer | internal/proxy/forwarder.go:97-99 | A run in which a reader's removal closes a newer connection in use |
| Lifecycle.HeldIsQueuedOrDropped | internal/client/handler.go:111-122 | In every client run, a packet built is queued, or dropped exactly when all 100 slots are taken |
| Lifecycle.HeldIsQueuedUnlessStopped | internal/proxy/forwarder.go:144-153 | In every proxy run, a packet built waits for a slot and is queued; it is given up only after a stop |
| Lifecycle.ClosedIsSilent | internal/client/tracker.go:77-89 | In every run, nothing is read from a socket or written to it once it is closed |
| Activity.ActivityIsLastUse | internal/client/tracker.go:68-75 | In every run, the activity of a connection is the time of the last step that used it: its creation, a read, a packet for it |
| Activity.CleanupKeepsExactlyUsed | internal/client/tracker.go:91-118 | In every run, a cleanup keeps a stored connection, and its socket as it is, if and only if some step used it at most the idle time before |
| Pipeline.ChunkIsFaithful | internal/client/handler.go:76-100 | The buffer starts with the bytes of the last read |
| Pipeline.PromptlySentIsExact | internal/client/handler.go:98-112 | A packet sent before the next read of its socket carries the bytes of its own |
| Carriage.StepKeepsCarries | internal/client/server_conn.go:181-204 | Every step keeps chunks numbered, the buffer what the reads made it, and written packets under their socket's ID |
| Carriage.ImageIsFaithful | internal/client/server_conn.go:193-204 | What is sent is the packet queued, with the bytes the buffer holds by then (client), or unchanged (proxy) |
| EndToEnd.StepKeepsInv | internal/client/server_conn.go:147-229 | Every step of the composed system keeps, for every origin and every destination, the packets on the way in order, without duplicates, and faithful |
| EndToEnd.RunKeepsInv | internal/proxy/server_conn.go:140-201 | So does every run |
| EndToEnd.ArrivalAdvances | internal/client/server_conn.go:147-179 | Receiving moves the oldest packet of one stream into the process, or loses it |
| EndToEnd.EmissionAdvances | internal/proxy/server_conn.go:177-201 | Sending moves the oldest queued packet into the stream, or loses it |
| EndToEnd.TakeAdvances | internal/server/grpc_client.go:36-99 | A session takes the oldest packet of its stream, to relay it or not |
| EndToEnd.DeliverAdvances | internal/server/registry.go:337-339 | A send moves the session's one packet to the stream found at lookup, or loses it |
| Delivery.ResponsesArriveInOrder | internal/client/tracker.go:120-144 | Responses written to any socket are, per target connection, a subsequence of the chunks read, bytes included |
| Delivery.PacketsArriveInOrder | internal/proxy/forwarder.go:79-83 | Forwarded packets likewise: ID, tuple, length and place, bytes apart |
| Delivery.EveryByteIsTheLastRead | internal/client/handler.go:73-100 | Each byte written is the same byte of the last read, up to the sending, that was long enough |
| Delivery.BytesArriveExactly | internal/client/handler.go:73-100 | A packet arrives with the bytes of its own read if and only if later reads left each of them as it was |
| Delivery.SentPromptlyArrivesExactly | internal/client/handler.go:98-112 | A packet sent before its handler's next read arrives exactly as read |
| Delivery.NothingCrossesConnections | internal/proxy/forwarder.go:49-83 | What is written to a socket was read from one of the same connection ID, and carries the tuple of that one |
| Direction.WrittenComesFromTheOtherSide | internal/server/registry.go:319-372 | And by a process of the other role |
| Direction.RunKeepsDirected | internal/server/registry.go:319-372 | In every run, packets come down a stream only from processes of the other role |
| Direction.LookupFindsOpposite | internal/server/registry.go:319-356 | A lookup that succeeds ends at a stream registered in the other role |
| Once.WrittenOnce | internal/proxy/server_conn.go:140-201 | Over all processes and sockets, no chunk is written twice |
| Once.RunKeepsSingle | internal/server/registry.go:285-372 | In every run a chunk comes down one stream at most, and only once it has left the server, and goes to one socket there |
| Losses.NothingVanishes | internal/server/registry.go:285-372 | Every chunk ever read is on its way or has arrived, or some step gave it up |
| Losses.ReadIsWrittenOrGivenUp | internal/client/tracker.go:120-144 | When nothing is in transit, each has been written or was given up |
| Losses.StepKeepsLive | internal/client/server_conn.go:193-229 | A step loses no packet but the one it gives up |
| Fate.OnePlace | internal/server/registry.go:285-372 | A chunk is in the process that read it, on the way to the server, in it, or below it: in one of these only |
| Fate.StepKillsLost | internal/client/handler.go:111-122 | A step that gives a chunk up finds it on its way and leaves it nowhere |
| Fate.ExactlyOneFate | internal/proxy/server_conn.go:140-201 | In every run, a chunk read is on its way or has arrived if and only if no step so far gave it up; no two steps give it up |
| Fate.GivenUpIsNeverWritten | internal/proxy/forwarder.go:79-91 | A chunk given up at any time is never written, before or after |
| Fate.WrittenExactly | internal/client/tracker.go:120-144 | When nothing is in transit, a chunk has been written if and only if no step gave it up |
| Fate.DeliveryIsComplete | internal/client/tracker.go:120-144 | If nothing of an origin was given up and all of it went to one socket, that socket has received exactly what was read; but for the bytes, when a client read it |
| Tuples.DownHasTuple | internal/proxy/forwarder.go:49-55 | In every run, whatever a proxy has still to receive has a tuple, so the dial never looks for the destination of a packet without one |
| Tuples.WrittenHasTuple | internal/proxy/forwarder.go:79-83 | What a proxy writes carries the tuple of the client connection it was read from |
| Tuples.OneTuplePerTarget | internal/proxy/forwarder.go:49-83 | All that is written to one target carries one tuple, if no two client connections of its ID differ in theirs |
| Projection.ProcessRun | internal/client/server_conn.go:105-204 | In every run of the system, each process has gone through a run of its own to where it is |
| Projection.ServerRun | internal/server/grpc_client.go:23-118 | So has the server |
| Projection.SocketsAreOwned | internal/proxy/forwarder.go:97-99 | In every process of the system, whatever a table holds belongs to a goroutine that has still to run its own removal, and at a proxy open sockets are the stored ones |
| Projection.NoSocketLeaks | internal/client/handler.go:31-65 | In a process of the system whose goroutines have ended, the table is empty and every socket closed |
| Projection.IdsAreOwned | internal/server/grpc_client.go:54-74 | Inside the system an ID is stored if and only if one session has still to unregister it, and for that session's stream |
| Progress.ClientWrites | internal/client/tracker.go:120-144 | A client with nothing in hand that receives a response for a stored, open connection can touch and write it: exactly that packet is appended to exactly that socket |
| Progress.ProxyWrites | internal/proxy/forwarder.go:49-91 | Likewise a proxy, for a connection it holds |
| Progress.ProxyDials | internal/proxy/forwarder.go:49-91 | For an ID it does not hold, it can dial, store the new connection, start its reader and write the packet |
| Progress.Unwanted | internal/client/tracker.go:120-128 | A packet for a connection that is neither held nor dialed changes nothing |
| Progress.ClientGivesUp | internal/client/tracker.go:134-144 | A failed write at the client removes nothing |
| Progress.ProxyGivesUp | internal/proxy/forwarder.go:79-83 | At the proxy it removes what is stored under the ID, and closes that socket |
| Progress.Accepts | internal/client/client.go:116-152 | A client can accept a connection at any time |
| Progress.SendsUp | internal/client/server_conn.go:181-204 | The oldest packet queued can be sent, as it then is, to the end of the stream |
| Progress.ServerRelays | internal/server/registry.go:285-372 | A packet with a target can be looked up, counted and sent there; its route is stored and active, and a new one leads from the session's client to the chosen proxy |
| Progress.Sweeps | internal/server/registry.go:87-115 | A sweep is possible at any time, and takes exactly the routes idle for more than five minutes |
| Progress.Removes | internal/server/registry.go:374-380 | So is the removal of a route |
| Progress.Joins | internal/client/server_conn.go:62-145 | A process can start on any free stream and register there; its ID is granted if and only if nobody holds it |
| Progress.ResponseReachesItsSocket | internal/server/registry.go:342-372 | With nothing in the way, a response whose client is registered and tracks the connection is written to that connection's socket, in six steps that change nothing else |
| Progress.PacketReachesItsTarget | internal/server/registry.go:285-340 | Likewise a packet to its target, held already or dialed for it, in five |
| Witness.OnePacketIsDelivered | internal/client/server_conn.go:105-204 | A run in which a byte read by a client, over two registered streams, is written to a dialed target |
| Witness.ResponseIsDelivered | internal/client/tracker.go:120-144 | A run that goes on with the answer: a byte read from that target is written to the local connection |
| Witness.OverwrittenBeforeSent | internal/client/handler.go:73-100 | A run of the system in which a target is sent the byte of a later read in place of the one read first |
| Witness.TwoTuplesOneTarget | internal/proxy/forwarder.go:49-83 | A run of the system in which two connections with one ID and different tuples are written to one target |

## Left out

- gRPC, TLS, protobuf: a stream is a pair of first-in, first-out queues whose messages may be lost.
- Registration, acknowledgement and heartbeat messages travel outside the modelled queues; a session's receive of one is a step by itself, and so is sending the acknowledgement.
- Sockets, dialing, `SO_ORIGINAL_DST` and read deadlines: their results are arbitrary. A write succeeds as a whole or writes nothing.
- A packet without a tuple for a connection the proxy does not know makes `Forward` dereference a null pointer; in `Process` by itself that is a failed dial, and in the whole system no such packet reaches a proxy (`Tuples.DownHasTuple`).
- SHA-256 is an arbitrary function of the preimage; nothing is claimed about collisions of the hash itself.
- Text: `net.ParseIP`, `net.ParseCIDR` and `SplitHostPort` are not modelled; addresses and blocks are parsed values or absent.
- Marshalling is atomic: a client's send copies the buffer at one moment, although a read could change it in the middle.
- Slices of parsed packets are copies in the model; sharing between an input buffer and a parsed packet is not captured.
- Time is an arbitrary clock that never goes back.
- `Registry.Cleanup` at shutdown, and the goroutine that calls the sweep: the sweep is a step that may come at any time.
- Tracker and forwarder have the same fields and the same removal and cleanup bodies; one class stands for both.
- Sessions.Connect: one method stands for both services' loops, and it is proved for a session that is not interrupted; `Server` covers all interleavings.
- Registry.Registry.RouteFromClient: nothing runs between its two locked sections; `Server` has them as separate steps.
- Registry.Registry.RouteFromProxy: nothing runs between its two locked sections; `Server` has them as separate steps.
- ConnectionTable.ConnectionTable.Forward: nothing runs between the lookup and the write; `Process` has them as separate steps.
- ConnectionTable.ConnectionTable.DeliverResponse: nothing runs between its sections and the write; `Process` has them as separate steps.
- Reading.Handle: uninterrupted, and nothing drains the channel; `Process` covers all interleavings.
- Reading.ReadFromTarget: uninterrupted, so a full channel is left by a stop; `Process` covers all interleavings, in which a reader waits.
- Reading.CopyTurn: where the source waits for a slot or a stop, it takes the stop; in `Process` both can come.
- Delivery.PacketsArriveInOrder: says nothing of the bytes, because they can change before the packet is sent; the exact condition is `Delivery.BytesArriveExactly`.
- Netfilter rules, configuration, logging, wiring, the command line, metrics getters, list and count methods: mostly plumbing.
- Address translation, reconnection and TCP state tracking, which the repository's README mentions, are not in its code.
