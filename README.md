# webserv core bookkeeping in Dafny

This project models three sequential pieces of state that the webserv HTTP server keeps while it serves requests, and proves what each of them guarantees:

- **CGI process handling** (`Cgi`, file `cgi.dfy`). One `CgiHandler` tracks one CGI child process:
  - its pid and the two pipes, as four descriptor fields that use -1 for "none";
  - the request body, streamed to the child through a resumable offset;
  - the output drained from the child;
  - the cached exit status;
  - the start time used for the timeout.

  The CGI/1.1 environment (section 4.1 of RFC 3875) is a pure function that returns a key/value map.
- **The response send state machine** (`Connection`, file `connection.dfy`). A `ClientConnection` serialises its response once into a buffer. It then sends the buffer with one non-blocking write() at a time, from an offset that never passes the buffer's end.
- **Per-visitor sessions** (`Session`, file `session.dfy`). A `SessionManager` covers:
  - a string-to-string store whose appends join values with ", ";
  - version-4 UUID session identifiers (RFC 4122, sections 4.1.1, 4.1.3 and 4.4);
  - whitespace trimming of every value before the store is persisted;
  - the INI-style session file lines the store is reloaded from;
  - the status, history and user-agent bookkeeping done on each request.

`Http` (file `http.dfy`) holds the request and response objects as plain values. `Common` (file `common.dfy`) holds an `Option` type and a sum over sequences.

Every operating-system call is replaced by its outcome, passed in as a parameter:
- the count write() returned, and whether errno said "would block";
- the bytes read() returned, or its failure;
- the value waitpid() returned and the child's status;
- the descriptors pipe() produced and the pid fork() returned;
- the clock;
- the 16 bytes rand() would have drawn;
- whether the session file opened, and its lines.

Two ghost logs on `CgiHandler` record the calls themselves:
- `closeLog` holds every descriptor passed to close(), in order;
- `waitLog` holds every pid passed to waitpid(), in order.

Each state-changing method is specified against a pure step function: `WriteStep`, `ReadStep`, `PollStep`, `SendStep`, `SetEntry`, `LoadLines`, `CleanAll` or `UpdateForRequest`. Lemmas about sequences of steps (`RunWrites`, `RunReads`, `RunSends`) prove what the source promises across calls.

Behaviour reproduced as written:
- An empty CGI input makes the first writeToCGI close the pipe and return 0. That is the same value as "complete".
- isCgiDone returns 0 both for "still running" and for "exited with code 0".
- The parent side of startCGI, and its fork-failure path, close descriptors without resetting them to -1.
- The CGI input is the request body only up to its first NUL. CONTENT_LENGTH still counts the whole body.
- With an empty serialised response, a 0-byte write or a would-block error never completes sending. Only a hard write error ends it.
- writeToCGI returns its running total as an `int`, so from 2^31 bytes on the value wraps. At 2^32 bytes sent it reads as 0, the "complete" value, while the pipe stays open.
- isCgiDone keeps the pid of a child it has reaped. A later terminateCGI therefore kills that pid and waits on it a second time.
- setupEnvironment tests the Content-Type header for emptiness on the whole string, but hands every value to setenv() as a C string that ends at its first NUL.

Characters: one Dafny `char` stands for one byte of a `std::string`, so the length of a string is its `size()`.

ManageUserSession is a method on the manager itself. The source's manageUserSession makes its calls on a `session` argument. getManager (src/SessionManager.cpp:240-244) passes the object itself as that argument, so the two are the same.

## Model

| member | source | states |
|---|---|---|
| Cgi.CgiHandler.constructor | src/CGIHandler.cpp:14-21 | A fresh handler has no pid, and every descriptor is -1. Nothing is sent or received, neither started nor finished, and the exit status is -1. The input is the body up to its first NUL. |
| Cgi.CStr | src/CGIHandler.cpp:20 | `c_str()` conversion: the result is the longest prefix of the body without NUL, ended by a NUL or by the body's end. |
| Cgi.CgiHandler.StartCgi | src/CGIHandler.cpp:147-200 | Records the start time. Succeeds iff both pipes and the fork succeed. On success it stores the pid, marks the handler started, and logs closes of the child's two ends without resetting them. A fork failure logs closes of all four without resetting them. A pipe failure closes nothing. |
| Cgi.AsInt | src/CGIHandler.cpp:104 | The `int` that a `size_t` count becomes on return: within the 32-bit signed range, equal to the count when the count fits, and congruent to it modulo 2^32. |
| Cgi.WriteStep | src/CGIHandler.cpp:79-106 | A closed write end returns -1 and changes nothing. Otherwise the sent count grows by exactly the positive bytes written, never past the input size. Reaching the size closes the write end (-1) and returns 0. Otherwise it returns the running total narrowed to `int`. |
| Cgi.CgiHandler.WriteToCgi | src/CGIHandler.cpp:79-106 | The new input state and the return value are `WriteStep` of the old state. The write end is logged as closed exactly when it goes to -1. |
| Cgi.WritesDrainInput | src/CGIHandler.cpp:84-104 | Positive partial writes that cover the rest of the input: the last call returns 0, leaving everything sent and the write end at -1, and any further call returns -1. For an input of at most 2^31 - 1 bytes, every earlier call returns a running total strictly between 0 and the size. |
| Cgi.WrappedTotalLooksComplete | src/CGIHandler.cpp:97-104 | With 2^32 of 2^32 + 1 bytes sent, writeToCGI returns 0 while the write end stays open. |
| Cgi.EmptyInputClosesAtOnce | src/CGIHandler.cpp:97-102 | With empty input, the first call closes the write end and returns 0, the same value as "complete". |
| Cgi.ReadStep | src/CGIHandler.cpp:108-121 | A closed read end or a failed read returns -1 with nothing changed. A non-empty read appends exactly those bytes and returns their count. A zero read closes the read end (-1) and returns 0. |
| Cgi.CgiHandler.ReadFromCgi | src/CGIHandler.cpp:108-121 | The new output state and the return value are `ReadStep` of the old state. The read end is logged as closed exactly when it goes to -1. |
| Cgi.ReadsAccumulate | src/CGIHandler.cpp:114-115 | While the child keeps its end open, the output is the old output followed by exactly the bytes of every read, in order, and the read end stays open. |
| Cgi.ReadsUntilEof | src/CGIHandler.cpp:114-120 | Reads up to end of stream leave the whole received text as output and the read end at -1. Every later read returns -1. |
| Cgi.RunReadsAppend | src/CGIHandler.cpp:108-121 | Running one more read after a run of reads is the same as running the longer sequence. |
| Cgi.PollStep | src/CGIHandler.cpp:45-75 | A finished state returns its cached status unchanged. A waitpid result of 0 returns 0 with nothing changed. Otherwise the handler becomes finished and caches and returns the exit code for a normal exit of this pid, or -1 for a signal or a waitpid failure. |
| Cgi.CgiHandler.IsCgiDone | src/CGIHandler.cpp:45-75 | The new state and the return value are `PollStep` of the old state. waitpid is logged only when no status was cached yet. |
| Cgi.PollStable | src/CGIHandler.cpp:46-49 | Once a non-zero waitpid result has been seen, polling again gives the same state and value whatever waitpid would report. |
| Cgi.ZeroIsAmbiguous | src/CGIHandler.cpp:55-66 | A running child and a child that exited with code 0 both yield 0. Only the finished flag tells them apart. |
| Cgi.SignaledIsFailure | src/CGIHandler.cpp:60-64 | A child killed by a signal is cached and reported as -1. |
| Cgi.Elapsed | src/CGIHandler.cpp:125 | `unsigned long` subtraction: the plain difference when the clock has not gone back, and the difference plus 2^64 when it has. |
| Cgi.CgiHandler.HasTimedOut | src/CGIHandler.cpp:123-126 | True iff the unsigned elapsed time exceeds the timeout, including the wrap-around case. |
| Cgi.OpenEnds | src/CGIHandler.cpp:246-266 | A pipe cleanup closes only its own two ends, and never -1. It closes one descriptor per end that is not -1: the read end first, the write end last. |
| Cgi.CgiHandler.CloseInputPipe | src/CGIHandler.cpp:246-255 | Both input ends end at -1, and only the ends that were open are logged as closed. |
| Cgi.CgiHandler.CloseOutputPipe | src/CGIHandler.cpp:257-266 | Both output ends end at -1, and only the ends that were open are logged as closed. |
| Cgi.CgiHandler.TerminateCgi | src/CGIHandler.cpp:128-136 | A positive pid is reaped (logged in `waitLog`) and reset to -1; any other pid is kept. Then both pipes are cleaned up. |
| Cgi.ReapThenTerminateWaitsTwice | src/CGIHandler.cpp:58-66 | After isCgiDone has reaped the child, terminateCGI still waits on the same pid: the wait log gains that pid twice. |
| Cgi.CloseTwiceClosesOnce | src/CGIHandler.cpp:246-266 | A second cleanup of every pipe closes nothing more: the close log is that of the first cleanup alone. |
| Cgi.EndsWith | src/CGIHandler.cpp:139-145 | True iff the suffix is no longer than the string and matches its last characters one by one. |
| Cgi.EndsWithAppended | src/CGIHandler.cpp:139-145 | Any string followed by the suffix ends with that suffix. |
| Cgi.EndsWithSplits | src/CGIHandler.cpp:139-145 | A string that ends with the suffix is some prefix followed by that suffix. |
| Cgi.DecimalRoundTrip | src/CGIHandler.cpp:221 | The decimal text written for CONTENT_LENGTH reads back as the number it was written from. |
| Cgi.DecimalString | src/CGIHandler.cpp:221 | The text given for CONTENT_LENGTH is at least one decimal digit, with no leading zero. |
| Cgi.SetupEnvironment | src/CGIHandler.cpp:202-243 | No value in the environment holds a NUL. |
| Cgi.EnvironmentKeys | src/CGIHandler.cpp:211-236 | The variables set are exactly the ten always-set ones, plus CONTENT_TYPE only when the Content-Type header is non-empty. |
| Cgi.EnvironmentValues | src/CGIHandler.cpp:211-233 | REQUEST_METHOD, CONTENT_TYPE, QUERY_STRING and SERVER_NAME are the request's method, Content-Type header, query string and Host header, each cut at its first NUL. |
| Cgi.EnvironmentContentLength | src/CGIHandler.cpp:221 | CONTENT_LENGTH is decimal text whose value is the size of the whole body. |
| Cgi.EnvironmentFixedValues | src/CGIHandler.cpp:224-236 | SCRIPT_FILENAME and SCRIPT_NAME are the resolved and the given script path, each cut at its first NUL. The constants are CGI/1.1, 200, HTTP/1.1 and webserv/1.0. |
| Cgi.NulContentTypeSetsEmpty | src/CGIHandler.cpp:216-219 | A Content-Type that starts with NUL passes the emptiness test, and CONTENT_TYPE is set to the empty string. |
| Http.StrHeader | src/CGIHandler.cpp:216 | A header's value, or "" when the request does not carry that header. |
| Cgi.ContentLengthExceedsInput | src/CGIHandler.cpp:20-21 | For a body holding a NUL, CONTENT_LENGTH is larger than the number of input bytes the child will be sent. |
| Connection.ClientConnection.constructor | src/ClientConnection.cpp:9-10 | A new connection has no request and no response, offset 0, and is not sending. |
| Connection.ClientConnection.SetRequest | src/ClientConnection.cpp:20 | Stores the given request. |
| Connection.ClientConnection.SetResponse | src/ClientConnection.cpp:21 | Stores the given response. |
| Connection.ClientConnection.PrepareResponse | src/ClientConnection.cpp:24-30 | With no response, nothing changes. Otherwise the buffer is the serialised response, the offset is 0 and sending is on. The offset stays within the buffer. |
| Connection.SendStep | src/ClientConnection.cpp:32-51 | When not sending, it returns false and changes nothing. A positive write advances the offset by exactly that many bytes, and completes (true, sending off) iff the offset reaches the buffer's end. A hard error turns sending off and returns true. A would-block error or a 0-byte write returns false with nothing changed. The offset never passes the buffer's end. |
| Connection.ClientConnection.SendResponseChunk | src/ClientConnection.cpp:32-51 | The new state and the result are `SendStep` of the old state, and the offset stays within the buffer. |
| Connection.SendsComplete | src/ClientConnection.cpp:38-44 | Positive partial writes that cover the rest of the buffer: every call but the last reports "not complete", and the last reports completion. The offset ends at the buffer's length with sending off. |
| Connection.EmptyBufferNeverCompletes | src/ClientConnection.cpp:38-50 | With an empty buffer, a 0-byte write or a would-block error returns false and leaves the connection sending. |
| Connection.ClientConnection.IsResponseComplete | src/ClientConnection.cpp:53-55 | True iff the connection is not sending. |
| Session.SessionManager.constructor | src/SessionManager.cpp:4-16 | A non-empty cookie id is kept, and the visitor is returning. An empty id is replaced by the UUID of the drawn bytes, which is a well-formed version-4 UUID, and the visitor is new. |
| Session.VersionedByte | src/SessionManager.cpp:53-61 | Every byte except bytes 6 and 8 is emitted exactly as drawn. |
| Session.Uuid | src/SessionManager.cpp:50-67 | The identifier is 36 characters long. |
| Session.HexPair | src/SessionManager.cpp:62 | Each byte becomes two lowercase hex digits. |
| Session.UuidPrefixLength | src/SessionManager.cpp:52-65 | After n bytes the text has two digits per byte plus one dash per dash position passed. |
| Session.UuidPrefixExtends | src/SessionManager.cpp:62-64 | Writing another byte leaves every earlier character in place. |
| Session.LastByteChars | src/SessionManager.cpp:62-64 | A byte adds two hex digits, which never fall on a dash position, then its dash if it has one. |
| Session.UuidPrefixChars | src/SessionManager.cpp:62-64 | Every character written is a dash exactly at the dash positions, and a lowercase hex digit everywhere else. |
| Session.UuidIsVersion4 | src/SessionManager.cpp:50-67 | For any 16 bytes, the result has 36 characters with dashes exactly at 8, 13, 18 and 23, and lowercase hex digits elsewhere. The version digit at 14 is '4', and the variant digit at 19 is one of 8, 9, a, b. |
| Session.VersionNibble | src/SessionManager.cpp:54-57 | Masking with 0x0F and setting 0x40 makes the high nibble of byte 6 equal to 4. |
| Session.VariantNibble | src/SessionManager.cpp:58-61 | Masking with 0x3F and setting 0x80 puts the high nibble of byte 8 between 8 and 11. |
| Session.UuidRoundTrip | src/SessionManager.cpp:52-65 | Reading the 16 hex pairs back out of the UUID gives every drawn byte, with only the version and variant bits replaced. |
| Session.UuidDeterminesBytes | src/SessionManager.cpp:52-65 | Two draws give the same identifier only if they agree outside the version and variant bits. |
| Session.GenerateUuid | src/SessionManager.cpp:50-67 | The loop computes `Uuid` of the drawn bytes, and the result is a version-4 UUID. |
| Session.IsSpace | src/SessionManager.cpp:106-109 | isspace() in the C locale: a space, or a character from tab to carriage return. |
| Session.LeadingSpaces | src/SessionManager.cpp:106-107 | The count of leading whitespace characters: all of them are whitespace, and the next character is not. |
| Session.TrailingSpaces | src/SessionManager.cpp:108-109 | The count of trailing whitespace characters: all of them are whitespace, and the character before them is not. |
| Session.Trim | src/SessionManager.cpp:98-111 | The result is a contiguous piece of the value starting right after its leading whitespace, followed in the value only by whitespace. It neither starts nor ends with whitespace. |
| Session.TrimIdempotent | src/SessionManager.cpp:98-111 | Cleaning a cleaned value changes nothing. |
| Session.CleanValue | src/SessionManager.cpp:98-111 | The two index loops compute `Trim`, and the empty value maps to itself. |
| Session.SetEntry | src/SessionManager.cpp:69-77 | The key is added. With append set and the key present, the stored value is the old value, ", " and the new value; otherwise it is exactly the new value. Every other key is unchanged. |
| Session.SessionManager.SetData | src/SessionManager.cpp:69-77 | The store becomes `SetEntry` of the old store. |
| Session.Lookup | src/SessionManager.cpp:81-87 | The stored value for a present key, or "" for a missing one. |
| Session.SessionManager.GetData | src/SessionManager.cpp:81-87 | Returns `Lookup` of the store. |
| Session.SetThenGet | src/SessionManager.cpp:69-87 | Reading back after setData gives the new or appended value, and any other key reads as before. |
| Session.CleanAll | src/SessionManager.cpp:117-119 | Same keys, and every value is replaced by its trimmed form. |
| Session.CleanAllIdempotent | src/SessionManager.cpp:117-119 | Cleaning a cleaned store changes no key and no value. |
| Session.SessionManager.PersistSession | src/SessionManager.cpp:113-119 | The entry-by-entry cleaning loop leaves the store equal to `CleanAll` of the old store. |
| Session.FindChar | src/SessionManager.cpp:179 | Finds the first occurrence of the character, or reports that the string has none. |
| Session.ClassifyLine | src/SessionManager.cpp:172-185 | Empty and '#' lines are skipped. `[...]` lines are section headers. Any other line with '=' splits at its first '=' into key and value, and a line without '=' is ignored. |
| Session.ApplyLine | src/SessionManager.cpp:179-184 | Only an entry line stores anything: its key gets its value, and every other key is unchanged. |
| Session.LoadLines | src/SessionManager.cpp:171-185 | Loading lines never removes a key. |
| Session.LoadedKeys | src/SessionManager.cpp:171-185 | After loading, a key is present iff it was before or some line defines it. A key no line defines keeps its old value. |
| Session.LastDefinitionWins | src/SessionManager.cpp:179-184 | A key's value after loading comes from the last line that defines it. |
| Session.NonEntriesStoreNothing | src/SessionManager.cpp:172-177 | A blank line, a comment, a section header or a line without '=' leaves the store unchanged. |
| Session.Loaded | src/SessionManager.cpp:159-188 | Loading never removes a key, and a file that did not open leaves the store as it was. |
| Session.SessionManager.LoadSession | src/SessionManager.cpp:159-188 | A missing file marks a first connection and loads nothing. Otherwise the visitor is returning, and the store is the old one with the file's lines applied in order. |
| Session.UpdateStatus | src/SessionManager.cpp:207-216 | A first connection sets "new user". A returning "new user" becomes "existing user". Any other status, and every other key, stays as it was. |
| Session.AppendIfGiven | src/SessionManager.cpp:224-232 | A non-empty value is appended with ", ", or stored when the key is absent. An empty value changes nothing. |
| Session.UpdateForRequest | src/SessionManager.cpp:205-237 | After a request the store keeps every key it had and holds last_access_time. It gains no key outside the five tracked ones. |
| Session.UpdateSetsStatus | src/SessionManager.cpp:207-216 | After a request the status is "new user" on a first connection, and "existing user" for a returning "new user". Otherwise it is as loaded. |
| Session.UpdateAppendsHistory | src/SessionManager.cpp:219-232 | The access time is always appended. The path and the method are appended only when non-empty, and left as loaded otherwise. |
| Session.UpdateSetsUserAgent | src/SessionManager.cpp:234-237 | The user agent is overwritten only when the request carries a non-empty one, and left as loaded otherwise. |
| Session.UpdateKeepsOthers | src/SessionManager.cpp:203-238 | A request touches no key but status, last_access_time, requested_pages, methods and user_agent. |
| Session.SessionManager.ManageUserSession | src/SessionManager.cpp:203-238 | The session is loaded and the visitor is new iff no file opened. A new visitor gets the cookie value `<id>; Path=/; HttpOnly`. The store becomes `UpdateForRequest` of the loaded store, with the request's path, method and User-Agent. |

## Left out

- The child branch of startCGI (dup2, execl, exit) is left out, because it runs in another process. pipe(), fork() and waitpid() are represented only by the results passed in and by the ghost close and wait logs. kill() is not modelled at all: terminateCGI's SIGKILL leaves no trace, and only the blocking waitpid after it is logged.
- realpath() and setenv() in setupEnvironment are left out. The resolved absolute path is a parameter, and a failed realpath() is not distinguished.
- curr_time_ms(), gettimeofday(), localtime() and strftime() (curr_time) are left out. The clock and the formatted time are parameters, and `to_string` of the formatted time is taken to be that text itself.
- CGI_TIMEOUT_MS is defined in a header that is not part of this model. Its value is a constant of the model, and no lemma depends on that value.
- The handler's start time is uninitialised until startCGI runs. The model sets it to 0 in the constructor.
- rand() in generateUUID is left out: the 16 bytes it would draw are a parameter. generate_session_id (time plus rand) is not part of this model.
- The default SessionManager() constructor is left out. It leaves the first-connection flag uninitialised, and the core does not use it.
- persistSession's file writing is left out: the sessions/ path, append mode, the "[General]"/"[Requests]" layout, and the "Pages="/"Methods=" keys. Only its cleaning pass is modelled.
- loadSession's ifstream is left out. Whether the file opened, and its lines, are parameters. The current section name it tracks is kept but never used, as in the source.
- Session.IsSpace: this is isspace() of the C locale on characters. Bytes above 127, and other locales, are not modelled.
- Cgi.DecimalString: `to_string` is declared in a header that is not part of this model. It is taken to write plain decimal text, with no sign, padding or grouping.
- Cgi.SetupEnvironment: if realpath() fails, the source passes an uninitialised buffer as SCRIPT_FILENAME. The model always uses the given resolved path.
- Logging and console output (Logger, std::cout, std::cerr) are left out throughout.
- Accessors and plain setters of CGIHandler (getPid, setPid, setInputPipeFd, setOutputPipeFd, setCGIInput, setCGIOutput) and of ClientConnection (getServer, getRequest, getResponse) are left out. setRequestActivity and the server pointer are left out too, because they belong to the event loop.
- HTTPRequest parsing and HTTPResponse::toString are left out: their bodies are not part of this model. The request is a value with the fields the core reads, and the serialiser is a function passed to PrepareResponse. HTTPRequest.hpp declares no getStrHeader. The model reads a header with `Http.StrHeader`, which gives "" for a missing header.
- Ownership and deletion of the request and response objects (the ClientConnection destructor) are left out, because the model holds them as values.
- The commented-out signalHandler, UploadHandler, and the poll-based event loop are not part of this model.
