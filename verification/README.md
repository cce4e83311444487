# Relaybaton: a verified model of its core

Relaybaton is a tunnel with a SOCKS5 front. A local client accepts SOCKS5 connections, decides for each
destination whether to dial it itself or to go through a remote server, and relays; the server dials the
destination and shapes the way back with one token bucket per user. This project models that core in Dafny and
proves what it keeps in every run, under every interleaving of its threads.

`dafny verify dfyconfig.toml` checks everything.

| module | models |
|---|---|
| `Bytes` | octets, network octet order, concatenation of messages |
| `Socks5` | the wire codec: a reader, the two parsers as they move it, the encoders, the grammar |
| `Reserved` | the reserved-address test: masks, the CIDR table, the server's normalisation |
| `TokenBucket` | the limiter as one object, its 64-bit arithmetic, rates and service times |
| `WaitProtocol` | the limiter as threads see it: three mutexes, a wait group, one ticker, any number of callers, and the relay loop that calls it |
| `BucketRegistry` | the per-user registry of buckets and its create race |
| `RouterProtocol` | the router as threads see it: the `on` flag, the database pointer, the decision cache, one updater |
| `RouterRuns` | selections that nobody disturbs, and what a new router decides |
| `Updater` | the updater by itself: a whole download as a run of that machine |
| `StaleDecisions` | exactly when a decision can be out of date |
| `Client` | connection, connection table, router and client objects; what one network event does |
| `ClientRuns` | many connections over the router machine |
| `EventRuns` | events that nobody disturbs, as runs of that machine |
| `SwitchPanic` | exactly when the client can panic |
| `Stream` | one connection end to end, both directions |
| `Segment` | the write that splits the first TLS record |

## How it is modelled

Concurrent parts are machines: `Do(state, action)` is one step between two operations on a lock or wait group and
says *blocked*, *panic* (or *fault*), or the next state; a run is a sequence of actions, so a statement about all
action sequences is a statement about all schedules. Parts that one thread runs alone are classes and methods with
the fields and branches of the source, proved against functions that the machines share: `RateLimiter.Add` and
`RateLimiter.Register` implement the atomic bucket that `WaitProtocol` refines, and `Client.React` computes
the two halves of an event, `Before` and `After`, between which `ClientRuns` lets the router machine run. Undisturbed runs
of the machines come to what the objects compute: `SelectRuns`, `DownloadRuns`, `CallRuns`, `ReactRuns`.

Assumptions about the surroundings: the wait group behaves as documented, panics included; event handling for one
connection is serial and follows open, data, close; live remote addresses are distinct; a resolver that succeeds
returns an address of 4 or 16 octets; addresses of memory have 48 bits, so that a buffer of more than 2^48 octets cannot
be made, and memory does not run out below that; a read into a nonempty buffer delivers at least one octet or fails; a
database opens only when its file is complete; websocket messages arrive in order; an asynchronous write is queued behind
the event that is being handled; a packet recognised as TLS has two octets at least.

## Findings

Where the code does less than one would expect, the code is kept and the exact condition is proved.

- The bucket fills exactly as designed if and only if 17 times the bandwidth fits in 64 bits (`ExactArithmeticIff`).
- A request of 0 tokens registers and is never released, and it locks every later caller out (`ZeroHangs`,
  `ReleasedIff`). The relay loop makes such a request, in some schedule, if and only if the bandwidth is 0, that is
  for a plan limit below 2 (`RelayHangsIff`).
- The relay loop is never refused for want of capacity, at any bandwidth (`RelayNeverRefused`): where the shift by four
  bits loses something, the buffer of one bandwidth cannot be made. Instead, some schedule of the relay loop panics over
  a buffer too long to be made if and only if sixteen bandwidths exceed the longest buffer, 2^48 octets
  (`RelayTooLongIff`).
- A cached decision can outlive the mode it was made in (`CacheOutlivesSwitch`). With at most m downloads, a selected or
  cached decision can differ from what the router's present flag and database decide if and only if m > 0, the address is
  not reserved, and a database that the router starts with or that one of the m downloads publishes calls it domestic
  (`StaleIff`); the client begins at most one download, so m is 1. While flag and database stay unchanged it cannot
  (`StableSelect`).
- A frame of an accepted connection panics on a missing transport if and only if the router's answer differs from the one
  at acceptance (`FinishPanicsIff`), which needs two configurations that disagree on the destination
  (`PanicIsDisputed`). With at most m downloads some run of the client panics if and only if m > 0 and such a database
  calls some IPv4 address domestic that is not reserved (`PanicIff`). It does not panic while flag and database stay
  unchanged (`TransportConsistency`), and never when everything is proxied (`ProxyAllNeverPanics`).
- The server's reserved test passes every 16-octet address that is not mapped IPv4, all of which the client calls
  reserved (`ServerRefusesIff`).
- A further bucket can come to exist for a user if and only if none is stored or some call has missed and not created its
  own yet (`AnotherBucketIff`); so two concurrent first calls can leave two buckets (`TwoBuckets`), and the user's rate is
  bounded by the number of buckets created (`UserRate`).
- A method request with a count of 0 is accepted as such when any octet follows it, although section 3 of RFC 1928 has
  1 to 255 methods (`MethodRequestParserExact`); the client then closes, as no method is offered.

## Model

| member | source | states |
|---|---|---|
| `Bytes.Uint16ToBytes` | pkg/util/util.go:13-17 | the two octets filled in are the port, the first one its multiples of 256 |
| `Bytes.BigEndianInverse` | pkg/util/util.go:13-17 | port encoding and decoding are inverse in both directions, the most significant octet first |
| `Socks5.Reader.Read` | pkg/socks5/request.go:47-49 | a read fails at the end of input even for an empty buffer, and is otherwise short without failing |
| `Socks5.ReadField` | pkg/socks5/request.go:48-58 | one read with its two checks takes exactly the octets asked for, or tells which check failed |
| `Socks5.ReadAddress` | pkg/socks5/request.go:116-176 | the address field by type, with the length octet kept in front of a domain name and a zero length refused |
| `Socks5.NewRequestFrom` | pkg/socks5/request.go:46-192 | the moving-reader parser returns the request, or the very error, of the functional grammar |
| `Socks5.RequestParserExact` | pkg/socks5/request.go:46-192 | a frame is accepted as r if and only if r is well formed and the frame starts with r's layout |
| `Socks5.RequestAcceptedIff` | pkg/socks5/request.go:46-192 | acceptance as a test on octets: version 5, command 1 to 3, known type, complete address of nonzero length, port |
| `Socks5.RequestRefusedBecause` | pkg/socks5/request.go:46-192 | which error a refused frame gets, told on its octets |
| `Socks5.LayoutParses` | pkg/socks5/request.go:46-192 | the layout of a well-formed request, with anything after it, decodes to that request |
| `Socks5.ParsedIsLaidOut` | pkg/socks5/request.go:46-192 | what was accepted is well formed and its layout is a prefix of the frame |
| `Socks5.RequestExtension` | pkg/socks5/request.go:178-191 | octets after an accepted request change nothing |
| `Socks5.RequestPrefixFree` | pkg/socks5/request.go:46-192 | no accepted message is a proper prefix of another |
| `Socks5.ReplyRoundTrip` | pkg/socks5/reply.go:53-69 | a packed reply with a command code parses to the same code, type, address and port, reserved 0 |
| `Socks5.RepackAccepted` | pkg/socks5/reply.go:53-69 | packing the fields of an accepted request reproduces the consumed octets, the reserved one cleared |
| `Socks5.NewMethodRequestFrom` | pkg/socks5/method_request.go:31-77 | the parser returns the request, or the error, of the functional grammar |
| `Socks5.MethodRequestParserExact` | pkg/socks5/method_request.go:31-77 | a frame is accepted as m if and only if it starts with m's layout, counts agree and it has three octets |
| `Socks5.MethodRequestAcceptedIff` | pkg/socks5/method_request.go:31-77 | acceptance, and the errors, as tests on the octets |
| `Reserved.IsReservedIP` | pkg/core/router.go:273-285 | the loop over the table answers whether the address is of a special class or in some block |
| `Reserved.AndMask` | pkg/core/router.go:279 | what an octet keeps under each octet of a prefix mask |
| `Reserved.MaskIsInterval` | pkg/core/router.go:279 | the masked comparison of four octets is membership in one interval of 2^(32 - prefix) numbers, for every block |
| `Reserved.V4BlocksMasked` | pkg/core/router.go:289-304 | every IPv4 entry of the table is its own network address |
| `Reserved.TableIsIntervals` | pkg/core/router.go:287-328 | for IPv4 in either form the whole table is a union of sixteen closed intervals |
| `Reserved.ReservedIff` | pkg/core/router.go:273-328 | an address is reserved if and only if it is not IPv4 or its octets are in the dotted ranges |
| `Reserved.MappedFormAgrees` | pkg/core/router.go:273-285 | the 4-octet and the mapped 16-octet form get the same answer |
| `Reserved.NonMappedIsReserved` | pkg/core/router.go:306 | the default route makes every 16-octet address that is not mapped IPv4 reserved |
| `Reserved.ServerRefusesIff` | pkg/core/server.go:184-194 | the server refuses exactly reserved IPv4; nothing the client proxies is refused; when the two tests differ |
| `TokenBucket.RateLimiter.constructor` | pkg/core/ratelimiter.go:21-31 | a new limiter is an empty bucket of sixteen bandwidths |
| `TokenBucket.RateLimiter.Add` | pkg/core/ratelimiter.go:40-60 | a call of add is one tick of the atomic bucket, the wait group included |
| `TokenBucket.RateLimiter.Run` | pkg/core/ratelimiter.go:33-38 | the ticker's first k periods are k ticks |
| `TokenBucket.RateLimiter.Register` | pkg/core/ratelimiter.go:62-72 | refused if and only if above capacity, else pending in the bucket |
| `TokenBucket.RateLimiter.Available` | pkg/core/ratelimiter.go:76-78 | the tokens held, never above capacity |
| `TokenBucket.SaturateBounds` | pkg/core/ratelimiter.go:43-48 | saturation adds no more than the amount, and is the exact minimum under exact arithmetic |
| `TokenBucket.ExactArithmeticIff` | pkg/core/ratelimiter.go:21-48 | the bucket fills to min(k, 16) bandwidths at every tick k if and only if 17 bandwidths fit in 64 bits |
| `TokenBucket.WindowBounds` | pkg/core/ratelimiter.go:40-60 | over any window of any run: conservation of granted, held and discarded tokens, and both rate bounds |
| `TokenBucket.WindowRate` | pkg/core/ratelimiter.go:40-60 | k ticks grant at most the capacity and k - 1 bandwidths |
| `TokenBucket.RateFromCreation` | pkg/core/ratelimiter.go:21-60 | k ticks from creation grant at most k bandwidths; conservation from zero; tokens within capacity |
| `TokenBucket.ServedExactly` | pkg/core/ratelimiter.go:40-60 | a pending request waits, tokens accumulating, until exactly its service tick |
| `TokenBucket.ServedInEveryRun` | pkg/core/ratelimiter.go:40-74 | in every run no tick before the service tick grants the request, and at that tick it has been granted |
| `TokenBucket.ServedWithinSixteen` | pkg/core/ratelimiter.go:40-74 | the service tick is at least 1 and at most the rounded-up quotient, at most 16 |
| `TokenBucket.ZeroIsNeverServed` | pkg/core/ratelimiter.go:51 | a request of 0 stays pending through every run |
| `TokenBucket.LineIsServed` | pkg/core/ratelimiter.go:62-74 | in every run the ticks that find one of m requests pending, and those still to wait for, are within the sum of the rounded-up quotients, at most 16 m; what was requested is granted or pending |
| `WaitProtocol.NeverPanics` | pkg/core/ratelimiter.go:40-74 | no step misuses the wait group: no Done at zero, no overlapping rounds |
| `WaitProtocol.RunRefines` | pkg/core/ratelimiter.go:40-74 | every run of any number of callers is a run of the atomic bucket, and grants match returns up to one credit |
| `WaitProtocol.CounterExact` | pkg/core/ratelimiter.go:49-72 | outside the critical sections the counter is 1 exactly when something waits, a hanging request of 0 included |
| `WaitProtocol.RoundsDoNotOverlap` | pkg/core/ratelimiter.go:68-72 | when a new round begins nobody waits for an earlier one |
| `WaitProtocol.ReturnedRate` | pkg/core/ratelimiter.go:33-74 | in every schedule the requests returned add up to at most one bandwidth per tick |
| `WaitProtocol.ReturnedInWindow` | pkg/core/ratelimiter.go:33-74 | in any window of k ticks returns are at most the standing credit, the capacity and k - 1 bandwidths |
| `WaitProtocol.BlockedOnWhom` | pkg/core/ratelimiter.go:40-74 | whoever is blocked waits for a thread that can step, or for the tick that covers its request |
| `WaitProtocol.TickCompletes` | pkg/core/ratelimiter.go:40-60 | from every reachable state a tick completes in nine steps of the ticker and the lock holder |
| `WaitProtocol.TicksGoOn` | pkg/core/ratelimiter.go:33-60 | any number of ticks can pass from every reachable state |
| `WaitProtocol.ServedUnderEverySchedule` | pkg/core/ratelimiter.go:40-74 | a waiting request is granted at exactly its service tick, within sixteen, under every schedule |
| `WaitProtocol.LineUnderEverySchedule` | pkg/core/ratelimiter.go:40-74 | the same for m callers under every schedule of the threads, with what has returned up to the last one's way out |
| `WaitProtocol.GrantedReturns` | pkg/core/ratelimiter.go:58-73 | a granted caller can proceed at once or after the ticker's next step |
| `WaitProtocol.ZeroHangs` | pkg/core/ratelimiter.go:51-74 | a registered request of 0 is never released and no other caller enters |
| `WaitProtocol.ReleasedIff` | pkg/core/ratelimiter.go:51-74 | some schedule lets a registered request return if and only if it is not 0 |
| `WaitProtocol.RelayNeverRefused` | pkg/core/server.go:222-246 | no schedule of relay loops, at any bandwidth, is refused for want of capacity |
| `WaitProtocol.RelayTooLongIff` | pkg/core/server.go:230-234 | some relay schedule panics over a buffer too long to be made if and only if sixteen bandwidths exceed the longest buffer |
| `WaitProtocol.RelayAsks` | pkg/core/server.go:230-241 | a look at k tokens leads to a request of 1 to k, at none to one of 1 to the bandwidth, unless that buffer is too long |
| `WaitProtocol.LoneRelayDrawsOnWhatItSaw` | pkg/core/server.go:230-241 | a relay loop by itself on a nonempty bucket asks for no more than it saw, all of which stays held until the next tick grants it |
| `WaitProtocol.WaitRefusesIff` | pkg/core/ratelimiter.go:62-67 | a call that finds nobody inside is refused if and only if it asks for more than the capacity |
| `WaitProtocol.RelayHangsIff` | pkg/core/server.go:230-241 | some relay schedule registers a request of 0 if and only if the bandwidth is 0 |
| `BucketRegistry.Server.GetBucket` | pkg/core/server.go:360-385 | a present bucket is returned unchanged; a missing one is created at half the limit and stored; no user, no change |
| `BucketRegistry.CallRuns` | pkg/core/server.go:360-385 | the machine's call, undisturbed, comes to the same: found, or created, stored and found, or no user and no change |
| `BucketRegistry.PresenceIsStable` | pkg/core/server.go:360-385 | once the key is present it stays present |
| `BucketRegistry.AnotherBucketIff` | pkg/core/server.go:360-385 | some run creates another bucket if and only if none is stored or some call has missed without having created its own |
| `BucketRegistry.StoreSettlesIff` | pkg/core/server.go:375-385 | a store makes one bucket the last word if and only if no other call is between its miss and its store |
| `BucketRegistry.LaterCallsAgree` | pkg/core/server.go:360-385 | after the last call in flight has stored, that bucket stays, none is created, later calls return it |
| `BucketRegistry.UserRate` | pkg/core/server.go:360-385 | with B buckets created the user's grants over k ticks are at most B k bandwidths |
| `BucketRegistry.LedgerIsItsOwnRun` | pkg/core/server.go:360-385 | in every run each bucket does what its own ticks and registrations make of a new one |
| `BucketRegistry.RateDoubles` | pkg/core/server.go:361-375 | the bound is reached: two buckets grant two bandwidths in one tick each |
| `BucketRegistry.TwoBuckets` | pkg/core/server.go:361-375 | two calls that both miss leave two buckets |
| `RouterProtocol.NewRouterEstablishes` | pkg/core/router.go:40-84 | every router that construction returns satisfies the invariant |
| `RouterRuns.ConstructionIff` | pkg/core/router.go:40-84 | construction fails if and only if, deciding by country, the stat fails but for absence or the file does not open; the flag is on and a database held if and only if a file was found and opened |
| `RouterRuns.FirstSelection` | pkg/core/router.go:40-124 | the first undisturbed selection of an address that is not reserved is direct if and only if a database was found that calls it domestic |
| `RouterRuns.SelectRuns` | pkg/core/router.go:98-140 | an undisturbed selection answers the cached value, or proxy unless reserved or domestic while on, and stores just that |
| `RouterRuns.EvictionDecidesAnew` | pkg/core/router.go:142-146 | an eviction removes the one key, and the next selection decides by the present |
| `RouterProtocol.NeverFaults` | pkg/core/router.go:107-124 | no step looks up through a missing pointer, a closed database or a file being replaced |
| `RouterProtocol.RunKeeps` | pkg/core/router.go:86-220 | the invariant holds along every run of readers, updater and evictions |
| `RouterProtocol.DatabaseGate` | pkg/core/router.go:107-124 | in every interleaving a lookup uses the current, open, complete database while no writer holds the lock |
| `RouterProtocol.CacheJustified` | pkg/core/router.go:98-146 | every cached or selected value is an answer getGeoIP returned, decided by some configuration so far |
| `RouterProtocol.ReservedNeverProxied` | pkg/core/router.go:98-113 | no reachable selection sends a reserved address through the proxy |
| `RouterProtocol.StableSelect` | pkg/core/router.go:98-105 | while flag and database have not changed a selection is the decision of getGeoIP |
| `RouterProtocol.NoUpdaterNoChange` | pkg/core/client.go:261-269 | without the updater the configuration never changes |
| `RouterProtocol.TableIsFormBlind` | pkg/core/router.go:126-140 | addresses that share a cache key share the reserved test |
| `Updater.DownloadRuns` | pkg/core/router.go:148-220 | an undisturbed download, failures included, is a run of the updater's steps with the same end |
| `StaleDecisions.CacheOutlivesSwitch` | pkg/core/router.go:98-105 | for every start and every database that calls the address domestic, some run ends with a cached and selected answer that the present contradicts |
| `StaleDecisions.StaleIff` | pkg/core/router.go:98-146 | within m downloads a selected or cached answer can be out of date if and only if m > 0, the address is not reserved and a database started with or published calls it domestic |
| `Client.ConnTable.Put` | pkg/core/map.go:23-27 | the connection is entered under its own key |
| `Client.ConnTable.Get` | pkg/core/map.go:29-34 | an absent key is a panic, excluded by the caller |
| `Client.ConnTable.Delete` | pkg/core/map.go:36-40 | exactly that key is removed |
| `Client.Router.GetGeoIP` | pkg/core/router.go:107-124 | the decision of the configuration, with a failed lookup proxied |
| `Client.Router.Select` | pkg/core/router.go:98-105 | an undisturbed selection answers and stores what the machine's undisturbed run (`RouterRuns.SelectRuns`) does |
| `Client.Router.Replace` | pkg/core/router.go:187-204 | one database entry closes what is open and writes the file over, broken if the copy fails |
| `Client.Router.Walk` | pkg/core/router.go:185-207 | the entries are replaced in order up to the first failure |
| `Client.Router.Download` | pkg/core/router.go:148-220 | flag, pointer, open databases and file after a download, whatever fails; on exactly after complete success |
| `Client.Client.React` | pkg/core/client.go:81-192 | one event on the objects is the two halves of the event function with the router's answer between them |
| `Client.HelloExact` | pkg/core/client.go:95-118 | the first frame is answered 5, 0 and accepted if and only if its octets offer method 0; else it closes |
| `Client.RequestExact` | pkg/core/client.go:119-174 | the second frame leads to acceptance if and only if it is a request with a known destination, the selected dial has an answer and the submit succeeds; which transport is open, and the reply's octets |
| `Client.FrameExact` | pkg/core/client.go:175-186 | a later frame goes to the selected transport if that is open, and meets none otherwise |
| `Client.Client.ReactOpened` | pkg/core/client.go:95-118 | the scan over the methods accepts exactly an offer without authentication |
| `Client.Client.ReactMethodAccepted` | pkg/core/client.go:119-174 | request, address, selection and the chosen branch, errors included |
| `Client.Client.ReactAccepted` | pkg/core/client.go:175-186 | a frame goes to the selected transport or panics when it is missing; a failed write closes nothing |
| `Client.Client.Proxied` | pkg/core/client.go:134-156 | the branch that dials the server, with its four failures; told by outcomes in `RequestExact` |
| `Client.Client.Connected` | pkg/core/client.go:157-173 | the branch that dials the destination, with its two failures |
| `Client.Client.OnOpened` | pkg/core/client.go:216-220 | a fresh connection is entered, the others stay |
| `Client.Client.OnClosed` | pkg/core/client.go:222-250 | the open transports are closed, and the entry goes with the cached decision for its destination |
| `ClientRuns.BeforeKeeps` | pkg/core/client.go:94-132 | the first half of an event keeps what a connection keeps of its frames |
| `ClientRuns.AfterKeeps` | pkg/core/client.go:133-186 | so does the second half, unless it writes to the transport not chosen |
| `ClientRuns.ConnectionTable` | pkg/core/client.go:216-250 | in every run the keys are the open connections, each under its own key, and no lookup misses |
| `ClientRuns.CloseEvicts` | pkg/core/client.go:222-250 | a close removes the entry and of the cache exactly the decision for its destination |
| `EventRuns.ReactRuns` | pkg/core/client.go:81-192 | from every reachable state an undisturbed event is a run of the machine that ends as the event function says |
| `ClientRuns.HandshakeSafety` | pkg/core/client.go:94-186 | transports open only after a good method request and then a request, on the selected side whose dial connected; accepted if and only if that dial answered and the submit succeeded; the answers sent, code included; every later frame, in order, to the one transport |
| `ClientRuns.StatusOnlyAdvances` | pkg/core/client.go:94-186 | the status advances one state at a time and an accepted connection never changes |
| `ClientRuns.FinishPanicsIff` | pkg/core/client.go:175-181 | an event panics if and only if a frame is relayed and the answer differs from the one at acceptance |
| `ClientRuns.RunChooses` | pkg/core/client.go:133-181 | in every run the transport of an accepted connection is the decision of some configuration so far for its destination |
| `ClientRuns.PanicIsDisputed` | pkg/core/client.go:175-181 | a step panics only at the end of an event for a destination on which two configurations so far disagree |
| `ClientRuns.TransportConsistency` | pkg/core/client.go:133-181 | while the configuration stays, accepted connections use the transport Select picks and no step panics |
| `ClientRuns.ProxyAllNeverPanics` | pkg/core/client.go:261-269 | with everything proxied no run panics |
| `SwitchPanic.SomeRunPanics` | pkg/core/client.go:175-181 | a run with a mode switch and a racing selection panics, for every start, database and IPv4 address it calls domestic, unless reserved |
| `SwitchPanic.PanicIff` | pkg/core/client.go:175-181 | within m downloads some run of the client panics if and only if m > 0 and a database started with or published calls an IPv4 address domestic that is not reserved |
| `Stream.ReactKeepsHead` | pkg/core/client.go:94-186 | what the handshake has answered, and that acceptance answers nothing more |
| `Stream.StreamsInOrder` | pkg/core/server.go:222-272 | the destination gets a prefix of the accepted frames, the application both replies and a prefix of the remote stream |
| `Stream.FrameDelivers` | pkg/core/client.go:175-186 | what a frame of an accepted connection adds to the messages or octets under way, failed writes included |
| `Stream.AnyChunk` | pkg/core/conn.go:144-160 | chunks of any size are possible in each stage, and are what comes next |
| `Stream.FailureStops` | pkg/core/server.go:242-271 | a failure passes on only the octets written before it and ends its stage |
| `Stream.StoppedForGood` | pkg/core/conn.go:124-160 | a stage that has stopped delivers nothing more in any run |
| `Stream.NothingStops` | pkg/core/server.go:222-272 | in every run without a failure every stage is still at work |
| `Stream.EverythingCanArrive` | pkg/core/server.go:222-272 | from every point of every run without a failure some schedule delivers all frames and the whole remote stream |
| `Stream.DrainedIsComplete` | pkg/core/conn.go:124-160 | without failures and with empty queues everything has arrived |
| `Segment.TCPSegmentConn.Write` | pkg/core/tcp_segment_conn.go:15-32 | the octets handed over are a prefix of the argument, all of it on success with its count; the flag falls only then |
| `Segment.SplitOnce` | pkg/core/tcp_segment_conn.go:15-32 | over any successful calls the stream is the concatenation; the first recognised record is two segments, of 2 octets and the rest, every other call is one |

## Left out

- WebSocket, TLS with ESNI, DNS, dialling, the event library, and the parsing of the country database: foreign code, present as outcomes and ordered channels.
- Network, hashing and archive work of `Download` and `Update`: their effect on flag, pointer and file is kept, their content is not.
- The priority that a pending writer of the read-write lock has over new readers: the router machine allows more schedules than that.
- The text form of addresses: the cache key is the octets that determine it.
- The relay loops of the server and of `Conn.Run` and `Conn.DirectConnect` are steps of the machines `WaitProtocol` and `Stream`, not methods, because they run against other threads at every turn; buffers are values there, and aliasing is not captured.
- `OnClosed` is one step of `ClientRuns`; its lookup, eviction and deletion are not separated.
- The traffic counter and the database record of a user's traffic: unsynchronised bookkeeping without a further property.
- Authentication, web handlers, configuration, logging, the HTTP and redirect servers and `HandleMethodRequest`: glue, or not on the event path.
- `RateLimiter.Run`: the endless ticker loop is described for its first k periods.
