# The agent mesh: its HTTP parser, protocol, allocator and schedulers

A Dafny model of the service mesh in which a consumer agent (C++ or Java) takes HTTP requests,
picks a provider agent, sends it the request over a multiplexed binary protocol (ACT), and in
which the provider agent forwards it to a Dubbo provider and relays the answer.  The code that
works by changing fields is modelled as classes with those fields, each method proved against
a functional specification; what the code is for is proved about the specifications.

The main results hold for all inputs: any bytes, any cutting of a stream into buffers, any
interleaving of events, any answers of callbacks.

## What is modelled

**The incremental HTTP request parser** (`HttpChars`, `HttpMachine`, `HttpLegal`, `HttpRun`,
`HttpGrammar`, `HttpOutlook`, `HttpParser`, `HttpSplit`, `HttpText`, `HttpTarget`,
`HttpConnection`, `HttpMessage`, `HttpRoundTrip`, `HttpVariants`, `HttpRefusals`, `HttpDelivery`,
`HttpEndings`, `HttpExamples`).  `HttpMachine.Dispatch` is the switch of `http_parser_execute` for
one byte; `HttpRun.Feed`, `Seen`, `Beyond` and `Meter` run it over a buffer and say what it means:
record, merged callbacks, error, where the connection leaves HTTP, header bytes counted.  What it
accepts and refuses is stated in the character codes of `Ascii` and in literal texts, not in its
own tables.  The class
`HttpParser.HttpParser` is the parser as it is written, with its marks, bulk skips, early
returns and pauses.  It is built in strict mode for `HTTP_REQUEST`, as the consumer agent does.
The two answers that the user's callbacks give are parameters: `answers` (go on, pause, or fail,
given the callback and all before it) and `Settings.verdict` (what `on_headers_complete` says
about the body of each message, given the parser's fields and everything reported so far).
`HttpDelivery.HandOver` is the loop of a caller, as the parser's own test suite has it.

**The URL parser** (`UrlGrammar`, `UrlHost`, `UrlComponents`, `UrlStandard`, `UrlFields`,
`UrlParser`): `http_parser_parse_url` with its two automata, against an independent grammar of URLs
in character codes and a rendering of them, and against the URLs of RFC 3986.

**The protocol** (`Wire`, `Frames`, `DubboBody`, `Answers`, `Buffers`, `Encoders`, `PaClient`, `DubboClient`,
`ProviderAgent`, `FrameParser`): integers and C strings on the wire, the four frame decoders and
three encoders, buffers and their pool, and the classes of the three clients.  `Frames.Drive` is
the reference meaning of a byte stream.

**The mesh** (`MeshMessages`, `MeshBytes`, `MeshProgress`, `MeshClasses`, `MeshSteps`, `MeshRun`):
consumers, provider agent and provider as a transition system, first on messages, then on bytes in
arbitrary fragments; the second refines the first.  `MeshProgress` is about its ends: it never gets
stuck, and without new requests every run is over after finitely many events.  `MeshClasses` shows that the classes do, event by
event, what the second says; `MeshRun.Deployment` holds all of them, with the memory they own and
the bytes on their way, and keeps them together through whole runs.

**Allocator and schedulers** (`Allocator`, `Scheduler`): the recycling pool behind `x_malloc`,
and the C++, Java and Python versions of weighted round-robin.

## Model

| member | source | states |
|---|---|---|
| HttpParser.HttpParser.Execute | uv/http-parser/http_parser.c:651-710 | one call on a request parser: after an error or for no bytes nothing or an EOF error; otherwise the call, whatever it skipped in bulk and wherever it returned, leaves a parser that makes of the rest of the buffer what the byte machine makes of the whole; it uses up the buffer or returns exactly where the connection first leaves HTTP, with the parser that the machine has there; it reports exactly the machine's error, at the byte that the machine refuses, and has then delivered all that the machine reported, but perhaps the data under way; it refuses headers exactly when the count of header bytes passes the limit; a pause in on_headers_complete keeps the exact count; it is paused or fails exactly as the answers to the callbacks say, and callbacks stay grammatical, errors included |
| HttpParser.HttpParser.Turn | uv/http-parser/http_parser.c:703-710 | one byte of the outer loop: it is counted once, dispatched until consumed with the rank of the state falling each time, and the outlook of the machine is kept |
| HttpParser.HttpParser.ScanField | uv/http-parser/http_parser.c:1233-1366 | the loop over a field name, with its skip over names nobody interprets, ends where the machine ends and has counted what the machine counts |
| HttpParser.HttpParser.ScanValue | uv/http-parser/http_parser.c:1449-1650 | the loop over a header value, with its memchr skip, does the same, and when the skip goes past its reach the limit is exceeded anyway |
| HttpParser.HttpParser.Block | uv/http-parser/http_parser.c:1847-1882 | a block of an identity or chunk body consumed at once means what its bytes mean one by one, and the asserts on the content length hold |
| HttpParser.HttpParser.Call | uv/http-parser/http_parser.c:78-92 | a callback is logged with its data; the parser goes on, is paused, or fails, and only a failure stores the header count |
| HttpParser.HttpParser.SetPaused | uv/http-parser/http_parser.c:2442-2455 | pausing and resuming keep the parser valid and change nothing but the error code |
| HttpOutlook.ValueSkipped | uv/http-parser/http_parser.c:1470-1500 | skipping a run of an uninterpreted value leaves ahead what consuming it unchecked byte by byte leaves |
| HttpSplit.CutExact | uv/http-parser/http_parser.c:675-701 | an accepted buffer may be cut in two anywhere without effect, except in front of a header value byte that is not a header character, where the second half is refused |
| HttpSplit.SplitsAgree | uv/http-parser/http_parser.c:675-701 | every cutting into non-empty pieces means what one buffer means if every header value byte is legal where it stands |
| HttpSplit.SplitsDisagree | uv/http-parser/http_parser.c:1470-1500 | if one is not, there is a cutting that is refused |
| HttpSplit.SplitInvariance | uv/http-parser/http_parser.c:2028-2051 | calls of the parser: a stream with legal header value bytes is accepted in one call exactly when it is in any non-empty pieces, with the same record, header count and merged callbacks; if it is refused within the header limit, it is with the same error and the same callbacks, but for data under way |
| HttpSplit.RefusedInPieces | uv/http-parser/http_parser.c:2053-2057 | a refused stream, cut anywhere, gives the error of the machine after the callbacks that the machine reports |
| HttpSplit.SplitVariance | uv/http-parser/http_parser.c:1461-1500 | calls of the parser: an accepted stream is refused when a buffer starts at an illegal header value byte |
| HttpSplit.PauseTransparency | uv/http-parser/http_parser.c:78-131 | for a stream in any buffers that unpaused calls accept, with any pauses in each of them, no call of the paused and resumed run fails if and only if no call resumes a parser that on_headers_complete paused on headers filling the limit; then at most four calls a byte are needed and the final record and merged callbacks are those of the unpaused run |
| HttpExamples.FullAccepted | uv/http-parser/http_parser.c:1774-1797 | headers of exactly 81920 bytes are accepted by an unpaused call |
| HttpExamples.PausedOnFullHeaders | uv/http-parser/http_parser.c:1774-1797 | the parser run on them with an on_headers_complete that pauses is paused, and when it is resumed refuses them |
| HttpExamples.UnsafeCutExample | uv/http-parser/http_parser.c:1470-1500 | a control character inside a header value is accepted in one buffer and refused at the start of the next |
| HttpSplit.HeadersCounted | uv/http-parser/http_parser.c:152-159 | up to on_headers_complete the counter grows by exactly one a byte, skips included |
| HttpSplit.ChunkHeaderCounted | uv/http-parser/http_parser.c:1963-1979 | the header of a chunk is counted byte by byte and sets the counter back to zero at its line feed |
| HttpSplit.BodyNotCounted | uv/http-parser/http_parser.c:152-159 | bytes of bodies and chunks are not counted |
| HttpGrammar.DispatchInGrammar | uv/http-parser/http_parser.c:1731-1797 | a dispatch reports only what the phase of the callbacks so far allows and leaves record and phase fitting each other, body lengths included |
| HttpGrammar.ChunksAlternate | uv/http-parser/http_parser.c:1963-2019 | in grammatical callbacks, which those of every run are, failed ones too, there is a chunk header more than chunk completes inside a chunk, and as many elsewhere |
| HttpGrammar.BodiesExact | uv/http-parser/http_parser.c:1847-1882 | at every moment of grammatical callbacks the body bytes delivered since the last header of a chunk or message and those still owed make up exactly what it announced; at its complete nothing is owed |
| HttpRun.MergeExact | uv/http-parser/http_parser.c:106-131 | joining the pieces in which data is reported loses no byte of any kind, leaves no two pieces side by side, and changes nothing else: nothing at all exactly if there is nothing to join |
| HttpText.MethodExact | uv/http-parser/http_parser.c:933-1015 | a word and a blank are taken if and only if the word is one of the 34 method names, and the method is then that one |
| HttpText.HeaderNameExact | uv/http-parser/http_parser.c:1197-1349 | after a name and its colon the header state is that of Content-Length, Transfer-Encoding, Upgrade or Connection if and only if the name is that header's (or Proxy-Connection), case ignored |
| HttpText.LengthExact | uv/http-parser/http_parser.c:1507-1547 | a Content-Length is taken if and only if it is digits with a value of at most 18446744073709551609, and the stored length is that value; larger ones are refused as invalid lengths |
| HttpText.SizeExact | uv/http-parser/http_parser.c:1899-1950 | a chunk size is taken if and only if all its bytes are hexadecimal digits or from 0x80 on and its value is at most 2^64 - 17, and the stored size is that value; larger ones are refused as invalid lengths |
| HttpText.SizeHexadecimal | uv/http-parser/http_parser.c:222-231 | a chunk size that is taken is hexadecimal if and only if it has no byte from 0x80 on |
| HttpText.HighSizeExample | uv/http-parser/http_parser.c:1904-1912 | the byte 0x80 alone is taken for the chunk size 0 |
| HttpTarget.TargetExact | uv/http-parser/http_parser.c:486-632 | a request target may end exactly where the URL grammar says that it is complete, for CONNECT too |
| HttpTarget.TargetTaken | uv/http-parser/http_parser.c:1017-1088 | a text and a blank are taken as a target if and only if the grammar says so, and reported as the URL; else the URL is refused as invalid |
| HttpConnection.HeardExact | uv/http-parser/http_parser.c:1570-1637 | keep-alive, close or upgrade in a list of tokens is heard if and only if it stands behind an even number of tokens that are a proper beginning of one of these words |
| HttpConnection.ListEaten | uv/http-parser/http_parser.c:1427-1447 | a Connection value that is a list of tokens is read to its end, and the line leaves exactly the flags of the words that are heard |
| HttpConnection.GivesUpExact | uv/http-parser/http_parser.c:1559-1578 | behind a comma the parser gives up at exactly these bytes: the delimiters but blanks, the underscore, the tabulator, and all from 0x80 on |
| HttpConnection.GivesUp | uv/http-parser/http_parser.c:1559-1578 | then nothing that follows in the value is heard |
| HttpConnection.CutShortExample | uv/http-parser/http_parser.c:1588-1596 | in "up, close" the word close is not heard |
| HttpRefusals.EncodingExact | uv/http-parser/http_parser.c:1399-1406 | a Transfer-Encoding announces chunks if and only if its value is that one word, case ignored, with nothing but blanks behind it |
| HttpRefusals.DueExact | uv/http-parser/http_parser.c:1090-1181 | the letters of the protocol, the digits of the version, line ends and the framing of chunks: exactly the bytes due are taken, and anything else is the error given |
| HttpRefusals.HeadEndRefused | uv/http-parser/http_parser.c:1731-1740 | behind the carriage return of the empty line anything but a line feed is refused |
| HttpRefusals.ChunkSizeRefused | uv/http-parser/http_parser.c:1899-1940 | a chunk size that starts with no digit, or goes on with neither a digit nor what may end it, is refused as such |
| HttpRefusals.NameExact | uv/http-parser/http_parser.c:1183-1195 | a field name is taken if and only if it is a token of RFC 7230; else it is refused as an invalid token |
| HttpRefusals.MethodRefused | uv/http-parser/http_parser.c:964-1015 | a word is refused as an invalid method or is still read as one |
| HttpRefusals.ValueByteExact | uv/http-parser/http_parser.c:1461-1500 | a checked byte of a header value is refused if and only if it is a control character other than the tabulator, unless the parser is lenient |
| HttpRefusals.AfterLength | uv/http-parser/http_parser.c:1507-1557 | behind the digits of a Content-Length blanks are taken, and nothing else |
| HttpVariants.ExtrasIgnored | uv/http-parser/http_parser.c:921-931 | line ends before a request, blanks before its target and version, and blanks and tabulators before a header value change nothing |
| HttpVariants.LineFeedAlone | uv/http-parser/http_parser.c:1064-1181 | wherever a line of the head may end, a line feed alone means what a carriage return and a line feed mean, whatever follows |
| HttpVariants.ShortLine | uv/http-parser/http_parser.c:1071-1079 | a target that ends its line is that of an HTTP/0.9 request |
| HttpVariants.ValueFolded | uv/http-parser/http_parser.c:1664-1669 | a value continued in the next line is reported as one value, with the blank |
| HttpVariants.EmptyFold | uv/http-parser/http_parser.c:1693-1704 | a value may also start in the next line |
| HttpVariants.SecondLength | uv/http-parser/http_parser.c:1408-1419 | a second Content-Length is refused at its first digit |
| HttpVariants.LengthAndChunks | uv/http-parser/http_parser.c:1742-1749 | a Content-Length beside the chunked coding is refused at the end of the headers |
| HttpRoundTrip.RequestParsed | uv/http-parser/http_parser.c:1800-1845 | the text of any valid request, with identity or chunked content, trailers, Connection lists, Upgrade headers or as CONNECT, is consumed and causes exactly its callbacks; the parser is then ready or dead as version and Connection headers say, and the connection leaves HTTP with its last byte exactly if it is upgraded |
| HttpRoundTrip.HeadParsed | uv/http-parser/http_parser.c:1767-1797 | if on_headers_complete says that there is no body the message is complete with its head, and leaves HTTP if it was upgraded or so told |
| HttpRoundTrip.StreamParsed | uv/http-parser/http_parser.c:1890-1897 | pipelined requests are parsed one after the other with nothing lost, invented or reordered |
| HttpDelivery.StreamDelivered | uv/http-parser/http_parser.c:2028-2051 | the same through calls of the parser with the stream cut into any non-empty buffers |
| HttpDelivery.StreamDeliveredPaused | uv/http-parser/http_parser.c:2442-2455 | the same for a stream cut into any buffers with callbacks that pause at will in each of them: exactly delivered if and only if on_headers_complete never pauses on headers filling the limit |
| HttpDelivery.HandOver | uv/http-parser/test.c:4046-4082 | the loop that resumes a paused parser with what it left ends with all buffers used up or an error; callbacks that never pause never meet the full limit |
| HttpDelivery.Deliver | uv/http-parser/test.c:4046-4082 | so run, the parser delivers any pipelined requests exactly, in any buffers and with any pauses, if and only if it is never resumed on full headers; and always if no callback pauses |
| HttpEndings.ClosedParsed | uv/http-parser/http_parser.c:712-720 | behind a request that closes the connection line ends are ignored, and any other byte is the error of a closed connection, with nothing more reported |
| HttpEndings.ClosedDelivered | uv/http-parser/http_parser.c:712-720 | the same for calls, in any buffers: exactly the callbacks of the requests, and that error |
| HttpEndings.UpgradeDelivered | uv/http-parser/http_parser.c:1890-1897 | a call with a stream that ends in an upgrade, whatever follows, returns exactly behind the last request, having made exactly the callbacks of the requests |
| UrlParser.HttpParserUrl.ParseUrl | uv/http-parser/http_parser.c:2319-2440 | a text whose authority ends below byte 65536, whatever follows it, is accepted if and only if it is the rendering of a valid URL, and the record then describes that URL, offsets and lengths modulo 2^16 |
| UrlComponents.AcceptsExact | uv/http-parser/http_parser.c:486-632 | the automata accept exactly the renderings of valid URLs, whose characters are given by their codes |
| UrlComponents.RenderInjective | uv/http-parser/http_parser.c:486-632 | a text is the rendering of at most one valid URL |
| UrlStandard.StandardExact | uv/http-parser/http_parser.c:515-583 | of the URLs of RFC 3986 with a host of letters, digits, hyphens and dots or an address in brackets, exactly those are accepted whose scheme is made of letters and whose fragment does not follow the authority directly |
| UrlStandard.EncodedExample | uv/http-parser/test.c:2930-2945 | /toto.html?toto=a%20b has a path of 10 bytes at 0 and a query of 10 bytes at 11 |
| UrlHost.AuthorityComplete | uv/http-parser/http_parser.c:2150-2230 | the host automaton reads the rendering of a valid authority completely and into its parts |
| UrlParser.FieldExact | uv/http-parser/http_parser.c:2336-2437 | a given field tells where its component lies if and only if offset and length of that fit in 16 bits |
| UrlParser.ShortFits | uv/http-parser/http_parser.h:360-369 | in a text below 65536 bytes everything fits |
| UrlParser.LongPathExample | uv/http-parser/http_parser.c:2378-2387 | a path of 65536 bytes is accepted and given with length 0 |
| UrlParser.FieldIsSound | uv/http-parser/http_parser.c:2336-2437 | a given field that fits is not empty, in bounds and selects its component; userinfo, host and port lie inside the authority; a scheme comes with a host |
| UrlParser.FieldsAreDisjoint | uv/http-parser/http_parser.c:2336-2437 | two given fields that fit do not overlap and stand in URL order |
| Wire.IntRoundTrip | uv/utils.cc:1-3 | an int written and read comes back exactly when it is a 32-bit number |
| Wire.IntBigEndian | uv/utils.cc:23-28 | the four bytes written are those of the number, the most significant first |
| Wire.LongRoundTrip | uv/utils.cc:5-21 | a long long written and read comes back if and only if its bit 31 is clear, and else 2^32 too small |
| Wire.LongBigEndian | uv/utils.cc:12-21 | so are the eight bytes of a long long |
| Wire.LongExample | uv/utils.cc:5-10 | 2^31 is read back as its negative |
| Wire.CopyExact | uv/pa.cc:115-121 | strncpy copies a payload exactly if and only if NULs stand only at its end |
| Frames.PiecesAgree | uv/pa.cc:197-320 | a reader that gets its stream in pieces ends up where it would with all of it |
| Frames.KeyLayout | uv/pa_client.cc:142-158 | the key of a connection: two magic bytes, and each field behind its length in four bytes |
| Frames.ActLayout | uv/pa_client.cc:79-90 | a request or response: id and length in four bytes each, and the data |
| Frames.DubboLayout | uv/dubbo_client.cc:41-45 | a Dubbo message: two magic bytes, two flag bytes, the id in eight bytes, the length in four, and the body |
| Frames.RequestStreamRead | uv/pa.cc:188-323 | key and requests, cut into any pieces, are read as exactly these requests in order, and nothing is left over |
| Frames.ResponseStreamRead | uv/pa_client.cc:33-77 | the same for the responses, by the C++ and the Java reader |
| Frames.FramesBeforeAll | consumer-agent/src/main/java/cn/buaa/act/Parser/FrameParser.java:30-61 | a reader that does not get stuck has completed exactly the frames in front of where it stops |
| Frames.CopiesExact | uv/pa_client.cc:61-64 | the responses read are the responses written if and only if every payload has NULs only at its end |
| Answers.AnswersExact | uv/pa_client.cc:67-70 | answers find their map entries one by one if and only if their ids are distinct and known; then each callback is made once, in order, with its own context and data, and exactly these entries are erased |
| Encoders.EncodeActKey | uv/pa_client.cc:142-158 | the key of a connection is encoded as the specification says |
| Encoders.EncodeActMessage | uv/pa_client.cc:79-90 | so is a request or response |
| Encoders.EncodeDubboRequest | uv/dubbo_client.cc:24-89 | a Dubbo request fills a buffer of exactly the computed length with the header bytes 0xda 0xbb 0xc6 0x00 and exactly its encoding |
| DubboBody.BodyRead | uv/dubbo_client.cc:46-80 | a reader that cuts a body behind its newlines and takes the quotes off reads version, interface, method, types, arguments and attachments, in this order and as they were given, if and only if none of them holds a newline; else it reads nothing |
| Buffers.BufPool.Malloc | uv/bytebuf.cc:29-40 | the largest pooled buffer if it is large enough, taken out of the pool and emptied, or else a new one; never one in use |
| Buffers.Inlet.Alloc | uv/pa_client.cc:10-31 | the allocation callback loses, invents and reorders no unread byte and offers a third of the suggested size or all the unread bytes leave of it; it exchanges the buffer exactly if less than a third is free, takes a pooled one if any is large enough, makes one of the suggested size only else, and pools the old one |
| Buffers.Inlet.Fill | uv/pa_client.cc:10-41 | if bytes are offered and the unread ones do not fill the suggested size, at least one is taken |
| Buffers.Inlets.Alloc | uv/pa.cc:40-71 | connections that share one pool: no buffer is active twice or pooled while active, the allocation of one leaves the unread bytes of all, and while one size is suggested as many buffers have been taken from the system as were ever needed at one time |
| Buffers.Serve | uv/bytebuf.cc:29-53 | the same after any run of connecting, asking for buffers, arriving and reading: never more than one buffer more than there are connections |
| PaClient.PaClient.Fetch | uv/pa_client.cc:230-236 | a request is noted in both maps and queued; on a connected line the whole queue is written in order |
| PaClient.PaClient.HandleQueue | uv/pa_client.cc:115-140 | once connected the queue is emptied and written as its encodings, in order; before, nothing happens |
| PaClient.PaClient.ReadCallback | uv/pa_client.cc:33-77 | the bytes that have arrived are read as the reference reader reads them, and every complete answer is given to its callback |
| PaClient.PaClient.Receive | uv/pa_client.cc:10-77 | allocation, arrival and read callback together: progress, and the meaning of the bytes taken |
| DubboClient.DubboClient.Fetch | uv/dubbo_client.cc:260-271 | the request is queued and noted, and the queue written if connected |
| DubboClient.DubboClient.ReadCallback | uv/dubbo_client.cc:182-246 | as for the other client, with ids in eight bytes |
| DubboClient.DubboClient.Receive | uv/dubbo_client.cc:152-246 | progress, and the meaning of the bytes taken |
| ProviderAgent.StreamContext.OnRead | uv/pa.cc:188-323 | every complete request of the bytes that have arrived is handed to the Dubbo client, in order, with its connection as context |
| ProviderAgent.StreamContext.Receive | uv/pa.cc:40-323 | progress, and the meaning of the bytes taken |
| ProviderAgent.StreamContext.DubboCallback | uv/pa.cc:137-163 | the answer is written to the connection as its encoding |
| FrameParser.FrameParser.Handle | consumer-agent/src/main/java/cn/buaa/act/Parser/FrameParser.java:22-83 | whatever the fragments, exactly the frames of the stream are handled, in order, those without data too; at a negative length it throws, after the frames in front of it and on every later call; a null buffer adds nothing and throws only if it is the first |
| MeshMessages.NextKeeps | uv/dubbo_client.cc:227-238 | every action on messages keeps the invariant: each request in flight is in exactly one stage, with its data as it must be there, and the maps know exactly the requests in flight |
| MeshMessages.LookupsHit | uv/pa.cc:137-163 | whoever reads a message finds its request in the maps |
| MeshMessages.ProviderFinds | uv/dubbo_client.cc:46-80 | a request that the provider holds can be read if and only if what arrived of its fields holds no newline, and then has the fields of its own call and line |
| MeshMessages.FiredExact | uv/pa_client.cc:61-70 | a callback gets the result as the provider gave it if and only if that has NULs only at its end |
| MeshMessages.NothingLost | uv/pa_client.cc:230-236 | when nothing is queued or on its way every call has had its callback and the maps are empty |
| MeshBytes.AfterGood | uv/pa.cc:275-318 | every event on byte streams, with any fragment, keeps the state sane and the invariant of the messages behind it |
| MeshBytes.EndToEnd | uv/pa_client.cc:115-140 | in every run, with any fragmentation and reordering of answers, the invariant holds: each callback at most once, with its own context and result |
| MeshProgress.Completes | uv/pa_client.cc:115-140 | messages handled in any order without new requests: after exactly as many actions as there is work every queue is empty, and until then some action is possible |
| MeshProgress.NeverStuck | uv/dubbo_client.cc:227-238 | wherever in a run on bytes nothing can happen any more but new requests, every call has had its callback and nothing is in flight |
| MeshProgress.AfterLess | uv/pa.cc:275-318 | after every event all that was read is handed on and all that can be is written; every event but a new request leaves less to connect, less work, or fewer bytes on their way |
| MeshProgress.EveryRunEnds | uv/pa_client.cc:33-77 | no run without new requests goes on for ever, whatever comes next each time and in whatever fragments |
| MeshClasses.ConsumerStep | uv/pa_client.cc:33-77 | on a line of the mesh the requirements of the client's reader hold, and its contract is the step of the mesh |
| MeshClasses.ClientFetches | uv/pa_client.cc:230-236 | the client under a fetch is the line of the mesh under it, and writes what is put on the wire |
| MeshClasses.ClientReceives | uv/pa_client.cc:10-77 | so it is under the bytes it takes, and makes the callbacks that the mesh records |
| MeshClasses.AgentReceives | uv/pa.cc:188-323 | so are the reader of a connection and the Dubbo client behind it |
| MeshClasses.HubReceives | uv/dubbo_client.cc:182-246 | so is the Dubbo client under answers, and each connection is sent the answers to its own requests |
| MeshRun.Deploy | uv/pa_client.cc:204-229 | new clients, connections and Dubbo client, with memory of their own, are in step with the mesh at its start |
| MeshRun.Deployment.Fetch | uv/pa_client.cc:230-236 | after a fetch all objects, the bytes on their way and the callbacks made are those of the run of the mesh with that event |
| MeshRun.Deployment.ArriveAtClient | uv/pa_client.cc:10-77 | so they are when bytes arrive at a client |
| MeshRun.Deployment.ArriveAtAgent | uv/pa.cc:40-323 | when bytes arrive on a connection of the provider agent, whose buffers come from a pool it shares with the others |
| MeshRun.Deployment.ArriveAtHub | uv/dubbo_client.cc:152-246 | and when answers arrive at the Dubbo client, whose callbacks write them to the connections |
| MeshRun.Deployment.CallbacksExact | uv/pa_client.cc:67-70 | whatever a run of the classes has been, each callback a client has made is of its own request, with its context and its result, and none was made twice |
| MeshRun.Deployment.ProviderFinds | uv/dubbo_client.cc:46-80 | whatever a run of the classes has been, so has every request at the provider |
| MeshRun.Deployment.SettledCalledBack | uv/pa_client.cc:33-77 | whatever a run of the classes has been, where nothing can happen any more but new requests every request has had its callback and all maps are empty |
| MeshRun.Deployment.AllCalledBack | uv/pa_client.cc:230-236 | when nothing is queued, on its way or half read, every request has had its callback from its client and all maps are empty |
| Allocator.MallocSound | uv/bytebuf.cc:59-77 | a block of at least the size asked for and at most twice that or 66 bytes, not in use; pooled exactly if a pooled one will do, and then the smallest that is large enough; a new one has 32, 66 or the asked number of bytes |
| Allocator.FreeSound | uv/bytebuf.cc:79-89 | a freed block goes back to the pool with its recorded size, and live and pooled blocks stay apart |
| Allocator.RunSound | uv/bytebuf.cc:59-89 | the same after every legal run |
| Allocator.SizesGraded | uv/bytebuf.cc:68-74 | after every legal run each block has 32, 66 or more than 66 bytes |
| Allocator.OneSizeExact | uv/bytebuf.cc:59-89 | if all requests have one size, as many blocks are taken from the system as were ever live at one time |
| Allocator.SmallExact | uv/bytebuf.cc:59-89 | if all requests are below 32 bytes, whatever their sizes, as many blocks are taken from the system as were ever live at one time |
| Allocator.MediumExact | uv/bytebuf.cc:59-89 | so it is if all are from 32 to 65 bytes |
| Scheduler.EtcdLb.NextIdx | uv/lb.h:35-43 | the n-th call turns the wheel once; with zero weights last it returns the bisect choice and every endpoint has had its exact share |
| Scheduler.JavaLb.Choose | consumer-agent/src/main/java/cn/buaa/act/EtcdLB.java:71-80 | the same for the Java scheduler |
| Scheduler.EndPoints.Choose | ca.py:53-60 | the bisect choice, and every count is the exact share |
| Scheduler.TurnedExact | uv/lb.h:35-43 | with zero weights last, the n-th turn shows the bisect choice for n modulo the total |
| Scheduler.SchedulersAgree | uv/lb.h:35-43 | wheel and bisection agree on every call if and only if no weight 0 stands before a positive one |
| Scheduler.SharesExact | uv/lb.h:35-43 | the wheel gives every endpoint its exact share after every number of calls if and only if no weight 0 stands before a positive one |
| Scheduler.ZeroFirstExample | uv/lb.h:35-43 | with weights 0 and 1 the wheel chooses the first endpoint on every call |
| Scheduler.CountExact | ca.py:53-60 | after any number of calls each endpoint has been chosen its weight for every full round and its part of the current one |
| Scheduler.WindowExact | ca.py:53-60 | any total-many calls in a row give each endpoint its weight |

## Findings

Where the code does not do what its users would expect; each has a concrete input and the exact
condition.

- **Cuts inside a header value.** Bytes of a value that nobody interprets are skipped without a
  check, but the first byte of a buffer is checked.  `GET / HTTP/1.1`, `A: bc` and then the byte
  0x01 is accepted in one buffer and refused when 0x01 starts a new one
  (`HttpExamples.UnsafeCutExample`).  A cut matters exactly there: `HttpSplit.CutExact`,
  `SplitsAgree` and `SplitsDisagree`.
- **Pausing on full headers.** When `on_headers_complete` pauses, the byte it was called at is
  counted again on resumption.  Headers of exactly 81920 bytes are then refused
  (`HttpExamples.PausedOnFullHeaders`); nothing else is (`HttpSplit.PauseTransparency`).
- **Chunk sizes with high bytes.** The table of digit values has 128 of its 256 entries, so bytes
  from 0x80 on read as the digit 0, and 0x80 alone as the last chunk (`HttpText.HighSizeExample`);
  without such bytes sizes are exact (`HttpText.SizeHexadecimal`).
- **Long URLs.** Offsets and lengths of URL fields are stored in 16 bits: a path of 65536 bytes is
  accepted and reported with length 0 (`UrlParser.LongPathExample`); a field is right exactly when
  its offset and length fit (`UrlParser.FieldExact`).
- **Ids with bit 31.** The low word of a long long is added as a signed number: 2^31 comes back
  as its negative (`Wire.LongExample`), and exactly the numbers with bit 31 set come back wrong
  (`Wire.LongRoundTrip`).  Ids in flight are therefore below 2^31 in the mesh.
- **NULs in payloads.** Payloads are copied as C strings: 1, 0, 2 arrives as 1, 0, 0
  (`Wire.CopyExample`); exactly the payloads with NULs only at the end survive
  (`Wire.CopyExact`, `Frames.CopiesExact`, `MeshMessages.FiredExact`).
- **Lists in Connection headers.** The comma behind a token that is a proper beginning of
  keep-alive, close or upgrade is taken for a wrong letter of that word, and the next token is not
  looked at: "up, close" does not close (`HttpConnection.CutShortExample`).  Exact condition:
  `HttpConnection.HeardExact`.  A tabulator behind a comma is meant to be skipped, but the test is
  made on `c | 0x20`, which is never a tabulator; the parser gives up on the rest of the value, as it
  does behind an empty item.  Exact condition: `HttpConnection.GivesUpExact`.
- **URLs of the standard that are refused.** A scheme with a digit, '+', '-' or '.', and a fragment
  directly behind the authority, as in `http://host#top` (`UrlStandard.StandardExact`).
- **Newlines in arguments.** The fields of a Dubbo request are put between quotes and newlines
  unescaped: one that holds a newline makes the request unreadable, and exactly such do
  (`DubboBody.BodyRead`, `MeshMessages.ProviderFinds`).
- **Zero weights in front.** The incremental scheduler stops at an endpoint of weight 0 that
  stands before one of positive weight; with weights 0, 1 it never leaves it
  (`Scheduler.ZeroFirstExample`).  The Java and Python schedulers sort by descending weight, the
  C++ one takes its endpoints as they come (`uv/ca.cc:313`).  Exact condition:
  `Scheduler.SchedulersAgree` and `SharesExact`.

## Left out

- The response half of the HTTP parser and `HTTP_BOTH`: status lines, bodies read until EOF.
- Non-strict mode of the parser.
- HttpParser.HttpParser.Execute: for buffers of 2^32 - 81920 bytes and more nothing is promised, because there the 32-bit header byte counter, whose additions are modelled modulo 2^32, can wrap around past the limit.
- HttpParser.HttpParser.Execute: callbacks may pause, fail and look, but not otherwise change the parser; all of them are set.
- HttpSplit.SplitInvariance: runs that leave HTTP (CONNECT, upgrade) in the middle of a buffer, where the caller takes over the rest, are not compared; `HttpEndings.UpgradeDelivered` is about one buffer.
- HttpRoundTrip.RequestParsed: Connection headers whose value is not a list of tokens, or has a token that starts with an underscore are not part of the requests rendered (`HttpConnection.GivesUp` is about those at which the matcher gives up); on_headers_complete lets the body through (`HeadParsed` is the other case).
- UrlParser.HttpParserUrl.ParseUrl: nothing is promised for a text whose authority ends at byte 65536 or later; offset and length of that are truncated to 16 bits before the host automaton uses them, so it reads other bytes.
- PaClient.PaClient.ReadCallback: of the stream it is required that the reader does not get stuck in it (a wrong magic number, at which the C++ loops spin, or a negative length) and that its answers are expected; `MeshClasses` shows that both hold in the mesh.
- DubboClient.DubboClient.ReadCallback: the same is required of the bytes from the provider.
- MeshRun.Deploy: the clients and connections of a run are all there from its start, one connection to a client; a field waited for fits the buffer size that the event loop suggests.
- Callbacks of the clients are entries in a log; the provider is a set of pending requests answered in any order with any bytes.
- Scheduler.EtcdLb.NextIdx: weights are not negative and their sum fits an int.
- Allocator.RunSound: blocks that `x_malloc` never gave out are not freed, and `free` is not called on pooled blocks.
- The decoding of results into text by the Java frame parser, and the one response object that it reuses for every answer.
- Form scanning, URL decoding of forms and the string hashes in `uv/ca.cc` and `ca.py`; HTTP responses.
- The Python clients and servers, which speak the same protocol with exact-length reads.
- Sockets, DNS, etcd, logging, start-up and timing; connection errors, which the code only logs.
