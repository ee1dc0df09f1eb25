/**
 * The CGI process manager: the bookkeeping a CGIHandler keeps around one
 * child process -- its process id, the two pipes, the request body streamed
 * to the child, the output drained from it, and the cached exit status.
 *
 * Every operating-system call is replaced by its outcome, handed in as a
 * parameter: the byte count returned by write(), the bytes returned by
 * read(), the value and status returned by waitpid(), the descriptors
 * returned by pipe() and the pid returned by fork(). Every close() the
 * handler performs is recorded in the ghost log `closeLog`, and every pid
 * handed to waitpid() in the ghost log `waitLog`.
 */
module Cgi {
  import opened Common
  import opened Http

  /** The terminating NUL of a C string. */
  const NUL: char := '\0'

  /** Size of the stack buffer a single read() from the CGI output fills. */
  const READ_CHUNK: nat := 4096

  /**
   * Time budget of one CGI run in milliseconds. The constant is defined in a
   * header that is not part of this model; the value here is an assumption and
   * no lemma depends on it.
   */
  const CGI_TIMEOUT_MS: nat := 5000

  /** 2^32: the range of `int` on the platforms the server targets. */
  const INT_MODULUS: int := 0x1_0000_0000

  /** The largest `int`. */
  const INT_MAX: int := 0x7FFF_FFFF

  /** 2^64: the arithmetic of `unsigned long` on the platforms the server targets. */
  const ULONG_MODULUS: int := 0x1_0000_0000_0000_0000

  type ULong = x: int | 0 <= x < ULONG_MODULUS

  /** An exit code as WEXITSTATUS extracts it: one unsigned byte. */
  type ExitCode = x: int | 0 <= x < 256

  /** What waitpid() reports about a child it has reaped. */
  datatype ChildStatus = Exited(code: ExitCode) | Signaled

  // ---------------------------------------------------------------------------
  // Pure helpers

  /**
   * The string a std::string constructed from `s.c_str()` holds: everything
   * before the first NUL character.
   */
  function CStr(s: string): (r: string)
    ensures |r| <= |s| && r == s[..|r|]
    ensures NUL !in r
    ensures |r| < |s| ==> s[|r|] == NUL
  {
    if s == [] || s[0] == NUL then [] else [s[0]] + CStr(s[1..])
  }

  /** Whether `str` ends with `suffix`, character by character. */
  function EndsWith(str: string, suffix: string): (r: bool)
    ensures r <==> |suffix| <= |str| &&
                   forall i :: 0 <= i < |suffix| ==> str[|str| - |suffix| + i] == suffix[i]
  {
    if |str| >= |suffix| then str[|str| - |suffix|..] == suffix else false
  }

  /** Appending a suffix to anything gives a string that ends with it. */
  lemma EndsWithAppended(prefix: string, suffix: string)
    ensures EndsWith(prefix + suffix, suffix)
  {
  }

  /** A string that ends with `suffix` is some prefix followed by `suffix`. */
  lemma EndsWithSplits(str: string, suffix: string)
    requires EndsWith(str, suffix)
    ensures str == str[..|str| - |suffix|] + suffix
  {
    assert str[|str| - |suffix|..] == suffix;
  }

  function DigitChar(d: nat): (c: char)
    requires d < 10
    ensures '0' <= c <= '9'
  {
    ['0', '1', '2', '3', '4', '5', '6', '7', '8', '9'][d]
  }

  predicate IsDigits(s: string) {
    forall i :: 0 <= i < |s| ==> '0' <= s[i] <= '9'
  }

  /** Plain decimal text of a natural number, no sign and no leading zeros. */
  function DecimalString(n: nat): (r: string)
    ensures |r| >= 1 && IsDigits(r)
    ensures |r| > 1 ==> r[0] != '0'
  {
    if n < 10 then [DigitChar(n)] else DecimalString(n / 10) + [DigitChar(n % 10)]
  }

  /** The number a string of decimal digits denotes. */
  function DecimalValue(s: string): nat
    requires IsDigits(s)
  {
    if s == [] then 0 else DecimalValue(s[..|s| - 1]) * 10 + (s[|s| - 1] - '0') as nat
  }

  /** Reading back the decimal text of `n` gives `n`. */
  lemma {:induction false} DecimalRoundTrip(n: nat)
    ensures DecimalValue(DecimalString(n)) == n
  {
    var s := DecimalString(n);
    if n >= 10 {
      DecimalRoundTrip(n / 10);
      assert s[..|s| - 1] == DecimalString(n / 10);
      assert s[|s| - 1] == DigitChar(n % 10);
      assert (DigitChar(n % 10) - '0') as nat == n % 10;
    } else {
      assert (DigitChar(n) - '0') as nat == n;
    }
  }

  // ---------------------------------------------------------------------------
  // The CGI/1.1 meta-variables

  /** The meta-variables setupEnvironment may set. */
  datatype MetaVar =
    | RequestMethod | ContentType | ContentLength | GatewayInterface | ScriptFilename
    | ScriptName | QueryString | RedirectStatus | ServerProtocol | ServerName | ServerSoftware

  /** The environment variable name setenv() is given for each meta-variable. */
  function VarName(v: MetaVar): string {
    match v
    case RequestMethod => "REQUEST_METHOD"
    case ContentType => "CONTENT_TYPE"
    case ContentLength => "CONTENT_LENGTH"
    case GatewayInterface => "GATEWAY_INTERFACE"
    case ScriptFilename => "SCRIPT_FILENAME"
    case ScriptName => "SCRIPT_NAME"
    case QueryString => "QUERY_STRING"
    case RedirectStatus => "REDIRECT_STATUS"
    case ServerProtocol => "SERVER_PROTOCOL"
    case ServerName => "SERVER_NAME"
    case ServerSoftware => "SERVER_SOFTWARE"
  }

  /** The meta-variables every CGI environment carries, whatever the request. */
  const ALWAYS_SET: set<MetaVar> := {
    RequestMethod, ContentLength, GatewayInterface, ScriptFilename, ScriptName,
    QueryString, RedirectStatus, ServerProtocol, ServerName, ServerSoftware
  }

  /**
   * The environment the child receives, as a map from meta-variable to value.
   * `absPath` is what realpath() resolved the script path to. Every value goes
   * through setenv() as a C string, so it ends at its first NUL.
   */
  function SetupEnvironment(req: Request, scriptPath: string, absPath: string): (env: map<MetaVar, string>)
    ensures forall v :: v in env ==> NUL !in env[v]
  {
    var contentType := StrHeader(req, "Content-Type");
    var withType := if contentType != "" then map[ContentType := CStr(contentType)] else map[];
    withType[RequestMethod := CStr(req.httpMethod)]
            [ContentLength := DecimalString(|req.body|)]
            [GatewayInterface := "CGI/1.1"]
            [ScriptFilename := CStr(absPath)]
            [ScriptName := CStr(scriptPath)]
            [QueryString := CStr(req.queryString)]
            [RedirectStatus := "200"]
            [ServerProtocol := "HTTP/1.1"]
            [ServerName := CStr(StrHeader(req, "Host"))]
            [ServerSoftware := "webserv/1.0"]
  }

  /** Exactly the ten standard variables are set, and CONTENT_TYPE only for a non-empty Content-Type. */
  lemma EnvironmentKeys(req: Request, scriptPath: string, absPath: string)
    ensures SetupEnvironment(req, scriptPath, absPath).Keys ==
              ALWAYS_SET + (if StrHeader(req, "Content-Type") != "" then {ContentType} else {})
  {
  }

  /**
   * The values taken from the request: its method, Content-Type, query string
   * and Host header, each up to its first NUL.
   */
  lemma EnvironmentValues(req: Request, scriptPath: string, absPath: string)
    ensures var env := SetupEnvironment(req, scriptPath, absPath);
      ALWAYS_SET <= env.Keys &&
      env[RequestMethod] == CStr(req.httpMethod) &&
      (ContentType in env ==> env[ContentType] == CStr(req.headers["Content-Type"])) &&
      env[QueryString] == CStr(req.queryString) &&
      env[ServerName] == CStr(StrHeader(req, "Host"))
  {
  }

  /** CONTENT_LENGTH is decimal text whose value is the size of the whole body. */
  lemma EnvironmentContentLength(req: Request, scriptPath: string, absPath: string)
    ensures ContentLength in SetupEnvironment(req, scriptPath, absPath)
    ensures IsDigits(SetupEnvironment(req, scriptPath, absPath)[ContentLength])
    ensures DecimalValue(SetupEnvironment(req, scriptPath, absPath)[ContentLength]) == |req.body|
  {
    DecimalRoundTrip(|req.body|);
  }

  /**
   * The values describing the script -- its resolved and its given path, each
   * up to its first NUL -- and the four fixed strings.
   */
  lemma EnvironmentFixedValues(req: Request, scriptPath: string, absPath: string)
    ensures var env := SetupEnvironment(req, scriptPath, absPath);
      ALWAYS_SET <= env.Keys &&
      env[ScriptFilename] == CStr(absPath) && env[ScriptName] == CStr(scriptPath) &&
      env[GatewayInterface] == "CGI/1.1" &&
      env[RedirectStatus] == "200" &&
      env[ServerProtocol] == "HTTP/1.1" &&
      env[ServerSoftware] == "webserv/1.0"
  {
  }

  /**
   * The emptiness test sees the whole header while setenv() sees it only up to
   * its first NUL: a Content-Type starting with NUL sets CONTENT_TYPE to the
   * empty string.
   */
  lemma NulContentTypeSetsEmpty(req: Request, scriptPath: string, absPath: string)
    requires "Content-Type" in req.headers
    requires |req.headers["Content-Type"]| > 0 && req.headers["Content-Type"][0] == NUL
    ensures ContentType in SetupEnvironment(req, scriptPath, absPath)
    ensures SetupEnvironment(req, scriptPath, absPath)[ContentType] == ""
  {
    EnvironmentValues(req, scriptPath, absPath);
  }

  /**
   * CONTENT_LENGTH counts the whole body, while the bytes streamed to the child
   * stop at the body's first NUL: for a body holding a NUL the script is told
   * of more bytes than it will ever receive.
   */
  lemma ContentLengthExceedsInput(req: Request, scriptPath: string, absPath: string)
    requires NUL in req.body
    ensures ContentLength in SetupEnvironment(req, scriptPath, absPath)
    ensures DecimalValue(SetupEnvironment(req, scriptPath, absPath)[ContentLength]) > |CStr(req.body)|
  {
    EnvironmentContentLength(req, scriptPath, absPath);
  }

  // ---------------------------------------------------------------------------
  // One step of the input side: writeToCGI

  /** The part of the handler writeToCGI reads and updates. */
  datatype InputSide = InputSide(input: string, sent: nat, writeFd: int)

  predicate InputOk(s: InputSide) {
    s.sent <= |s.input|
  }

  /**
   * The `int` a `size_t` count becomes when returned from a function declared
   * to return `int`: the count modulo 2^32, read as a two's-complement value.
   */
  function AsInt(n: nat): (r: int)
    ensures -INT_MAX - 1 <= r <= INT_MAX
    ensures n <= INT_MAX ==> r == n
    ensures (n - r) % INT_MODULUS == 0
  {
    var m := n % INT_MODULUS;
    if m <= INT_MAX then m else m - INT_MODULUS
  }

  /**
   * A write() of `count` bytes may accept any number of them, or fail with -1.
   * (A write of zero bytes returns 0.)
   */
  predicate WriteResultOk(s: InputSide, written: int) {
    s.writeFd != -1 ==> -1 <= written <= |s.input| - s.sent
  }

  /**
   * writeToCGI, given that write() returned `written`: the new input side and
   * the value returned.
   */
  function WriteStep(s: InputSide, written: int): (res: (InputSide, int))
    requires InputOk(s) && WriteResultOk(s, written)
    ensures InputOk(res.0) && res.0.input == s.input
    ensures s.writeFd == -1 ==> res == (s, -1)
    ensures s.writeFd != -1 ==> res.0.sent == s.sent + (if written > 0 then written else 0)
    ensures s.writeFd != -1 && res.0.sent == |s.input| ==> res.0.writeFd == -1 && res.1 == 0
    ensures s.writeFd != -1 && res.0.sent < |s.input| ==>
              res.0.writeFd == s.writeFd && res.1 == AsInt(res.0.sent)
  {
    if s.writeFd == -1 then (s, -1)
    else
      var sent := if written > 0 then s.sent + written else s.sent;
      if sent == |s.input| then (InputSide(s.input, sent, -1), 0)
      else (InputSide(s.input, sent, s.writeFd), AsInt(sent))
  }

  /** writeToCGI called once per element of `ws`, write() accepting that many bytes each time. */
  function RunWrites(s: InputSide, ws: seq<nat>): (res: (InputSide, seq<int>))
    requires InputOk(s) && s.sent + Sum(ws) <= |s.input|
    ensures |res.1| == |ws| && InputOk(res.0)
    decreases ws
  {
    if ws == [] then (s, [])
    else
      var (s', ret) := WriteStep(s, ws[0]);
      var (final, rets) := RunWrites(s', ws[1..]);
      (final, [ret] + rets)
  }

  /**
   * Partial writes that together accept the rest of the input: the last call
   * returns 0 and leaves the write end closed with the whole input sent, and a
   * write on the closed end afterwards returns -1. For an input that fits in an
   * `int`, every call but the last returns the running total of bytes sent, a
   * positive number below the input size.
   */
  lemma {:induction false} WritesDrainInput(s: InputSide, ws: seq<nat>)
    requires InputOk(s) && s.writeFd != -1 && s.sent < |s.input|
    requires forall i :: 0 <= i < |ws| ==> ws[i] > 0
    requires s.sent + Sum(ws) == |s.input|
    ensures |ws| > 0
    ensures RunWrites(s, ws).0 == InputSide(s.input, |s.input|, -1)
    ensures RunWrites(s, ws).1[|ws| - 1] == 0
    ensures |s.input| <= INT_MAX ==> forall i :: 0 <= i < |ws| - 1 ==> 0 < RunWrites(s, ws).1[i] < |s.input|
    ensures forall w :: WriteStep(RunWrites(s, ws).0, w).1 == -1
    decreases ws
  {
    var (s', ret) := WriteStep(s, ws[0]);
    if |ws| == 1 {
      assert Sum(ws[1..]) == 0;
    } else {
      assert s'.sent < |s.input| by {
        assert Sum(ws[1..]) > 0 by { assert ws[1..][0] > 0; }
      }
      WritesDrainInput(s', ws[1..]);
    }
  }

  /**
   * Past 2^31 bytes the returned total wraps: with 2^32 of 2^32 + 1 bytes sent,
   * writeToCGI returns 0 -- the "complete" value -- while the write end stays
   * open.
   */
  lemma WrappedTotalLooksComplete(s: InputSide)
    requires s.writeFd != -1 && s.sent == 0 && |s.input| == INT_MODULUS + 1
    ensures WriteStep(s, INT_MODULUS) == (InputSide(s.input, INT_MODULUS, s.writeFd), 0)
  {
  }

  /** With nothing to send, the first writeToCGI closes the write end and returns 0. */
  lemma EmptyInputClosesAtOnce(fd: int, written: int)
    requires fd != -1 && -1 <= written <= 0
    ensures WriteStep(InputSide([], 0, fd), written) == (InputSide([], 0, -1), 0)
  {
  }

  // ---------------------------------------------------------------------------
  // One step of the output side: readFromCGI

  /** The part of the handler readFromCGI reads and updates. */
  datatype OutputSide = OutputSide(output: string, readFd: int)

  /** What one read() returned: some bytes (none at end of stream), or -1. */
  datatype ReadResult = Bytes(data: string) | ReadFailed

  predicate ReadResultOk(rd: ReadResult) {
    rd.Bytes? ==> |rd.data| <= READ_CHUNK
  }

  /** readFromCGI, given that read() returned `rd`: the new output side and the value returned. */
  function ReadStep(s: OutputSide, rd: ReadResult): (res: (OutputSide, int))
    requires ReadResultOk(rd)
    ensures s.readFd == -1 || rd.ReadFailed? ==> res == (s, -1)
    ensures s.readFd != -1 && rd.Bytes? ==> res.1 == |rd.data| && res.0.output == s.output + rd.data
    ensures s.readFd != -1 && rd.Bytes? ==> res.0.readFd == (if rd.data == [] then -1 else s.readFd)
  {
    if s.readFd == -1 then (s, -1)
    else match rd
      case ReadFailed => (s, -1)
      case Bytes(data) =>
        if |data| > 0 then (OutputSide(s.output + data, s.readFd), |data|)
        else (OutputSide(s.output, -1), 0)
  }

  predicate AllReadsOk(rs: seq<ReadResult>) {
    forall i :: 0 <= i < |rs| ==> ReadResultOk(rs[i])
  }

  /** readFromCGI called once per element of `rs`. */
  function RunReads(s: OutputSide, rs: seq<ReadResult>): (final: OutputSide)
    requires AllReadsOk(rs)
    decreases rs
  {
    if rs == [] then s else RunReads(ReadStep(s, rs[0]).0, rs[1..])
  }

  /** The bytes of all successful reads, in order. */
  function Received(rs: seq<ReadResult>): string {
    if rs == [] then [] else (if rs[0].Bytes? then rs[0].data else []) + Received(rs[1..])
  }

  /**
   * As long as the child has not closed its end, reads (failed ones included)
   * leave the read end open and the accumulated output is the old output
   * followed by exactly the bytes read, in order.
   */
  lemma {:induction false} ReadsAccumulate(s: OutputSide, rs: seq<ReadResult>)
    requires AllReadsOk(rs) && s.readFd != -1
    requires forall i :: 0 <= i < |rs| ==> rs[i] != Bytes([])
    ensures RunReads(s, rs) == OutputSide(s.output + Received(rs), s.readFd)
    decreases rs
  {
    if rs != [] {
      var s' := ReadStep(s, rs[0]).0;
      ReadsAccumulate(s', rs[1..]);
      assert s' == OutputSide(s.output + (if rs[0].Bytes? then rs[0].data else []), s.readFd);
    }
  }

  /**
   * Reads until end of stream: the output is the exact concatenation of what
   * was read, the read end is closed, and every later read returns -1.
   */
  lemma ReadsUntilEof(s: OutputSide, rs: seq<ReadResult>)
    requires AllReadsOk(rs) && s.readFd != -1
    requires forall i :: 0 <= i < |rs| ==> rs[i] != Bytes([])
    ensures RunReads(s, rs + [Bytes([])]) == OutputSide(s.output + Received(rs), -1)
    ensures forall rd :: ReadResultOk(rd) ==>
              ReadStep(RunReads(s, rs + [Bytes([])]), rd).1 == -1
  {
    ReadsAccumulate(s, rs);
    RunReadsAppend(s, rs, Bytes([]));
  }

  lemma {:induction false} RunReadsAppend(s: OutputSide, rs: seq<ReadResult>, last: ReadResult)
    requires AllReadsOk(rs) && ReadResultOk(last)
    ensures AllReadsOk(rs + [last])
    ensures RunReads(s, rs + [last]) == ReadStep(RunReads(s, rs), last).0
    decreases rs
  {
    if rs != [] {
      assert (rs + [last])[1..] == rs[1..] + [last];
      RunReadsAppend(ReadStep(s, rs[0]).0, rs[1..], last);
    } else {
      assert rs + [last] == [last];
    }
  }

  // ---------------------------------------------------------------------------
  // Polling the child: isCgiDone

  /** The part of the handler isCgiDone reads and updates. */
  datatype Reaping = Reaping(finished: bool, exitStatus: int)

  /** A cached exit status is a byte or the failure value -1; before that it is -1. */
  predicate ReapingOk(r: Reaping) {
    (r.finished ==> -1 <= r.exitStatus < 256) && (!r.finished ==> r.exitStatus == -1)
  }

  /**
   * isCgiDone for the child `pid`, given that waitpid() returned `result` and,
   * when it reaped the child, `status`: the new state and the value returned.
   */
  function PollStep(r: Reaping, pid: int, result: int, status: ChildStatus): (res: (Reaping, int))
    requires ReapingOk(r)
    ensures ReapingOk(res.0)
    ensures r.finished ==> res == (r, r.exitStatus)
    ensures !r.finished && result == 0 ==> res == (r, 0)
    ensures !r.finished && result != 0 ==> res.0.finished && res.1 == res.0.exitStatus
    ensures !r.finished && result != 0 ==>
              res.0.exitStatus == (if result == pid && status.Exited? then status.code else -1)
  {
    if r.finished then (r, r.exitStatus)
    else if result == 0 then (r, 0)
    else if result == pid then
      var code := if status.Exited? then status.code else -1;
      (Reaping(true, code), code)
    else (Reaping(true, -1), -1)
  }

  /** Once finished, polling again returns the cached status whatever waitpid would say. */
  lemma {:induction false} PollStable(r: Reaping, pid: int, result1: int, status1: ChildStatus,
                                      result2: int, status2: ChildStatus)
    requires ReapingOk(r) && result1 != 0
    ensures PollStep(PollStep(r, pid, result1, status1).0, pid, result2, status2)
         == PollStep(r, pid, result1, status1)
  {
    var first := PollStep(r, pid, result1, status1);
    assert first.0.finished;
  }

  /**
   * The value 0 means both "still running" and "exited with code 0": only the
   * handler's state tells the two apart.
   */
  lemma ZeroIsAmbiguous(pid: int)
    requires pid > 0
    ensures PollStep(Reaping(false, -1), pid, 0, Signaled) == (Reaping(false, -1), 0)
    ensures PollStep(Reaping(false, -1), pid, pid, Exited(0)) == (Reaping(true, 0), 0)
  {
  }

  /** A child killed by a signal is reported with the failure value, not an exit code. */
  lemma SignaledIsFailure(pid: int)
    requires pid > 0
    ensures PollStep(Reaping(false, -1), pid, pid, Signaled) == (Reaping(true, -1), -1)
  {
  }

  // ---------------------------------------------------------------------------
  // Time: hasTimedOut

  /** `now - start` in unsigned long arithmetic. */
  function Elapsed(now: ULong, start: ULong): (d: ULong)
    ensures now >= start ==> d == now - start
    ensures now < start ==> d == now - start + ULONG_MODULUS
  {
    (now - start) % ULONG_MODULUS
  }

  /** The descriptors a close-both-ends routine closes, in order: those that are not -1. */
  function OpenEnds(readEnd: int, writeEnd: int): (closed: seq<int>)
    ensures -1 !in closed
    ensures forall x :: x in closed ==> x == readEnd || x == writeEnd
    ensures |closed| == (if readEnd != -1 then 1 else 0) + (if writeEnd != -1 then 1 else 0)
    ensures readEnd != -1 ==> closed[0] == readEnd
    ensures writeEnd != -1 ==> closed[|closed| - 1] == writeEnd
  {
    (if readEnd != -1 then [readEnd] else []) + (if writeEnd != -1 then [writeEnd] else [])
  }

  // ---------------------------------------------------------------------------
  // The handler

  class CgiHandler {
    const scriptPath: string
    const interpreterPath: string
    const request: Request

    var pid: int
    /** _inputPipeFd[0]: read end of the pipe feeding the child's stdin. */
    var inputPipeRead: int
    /** _inputPipeFd[1]: write end of the pipe feeding the child's stdin. */
    var inputPipeWrite: int
    /** _outputPipeFd[0]: read end of the pipe draining the child's stdout. */
    var outputPipeRead: int
    /** _outputPipeFd[1]: write end of the pipe draining the child's stdout. */
    var outputPipeWrite: int
    var cgiInput: string
    var cgiOutput: string
    var bytesSent: nat
    var started: bool
    var cgiFinished: bool
    var cgiExitStatus: int
    var startTime: ULong

    /** Every descriptor passed to close(), in order. */
    ghost var closeLog: seq<int>
    /** Every pid passed to waitpid(), in order. */
    ghost var waitLog: seq<int>

    ghost predicate Valid()
      reads this
    {
      InputOk(InputSide(cgiInput, bytesSent, inputPipeWrite)) &&
      ReapingOk(Reaping(cgiFinished, cgiExitStatus))
    }

    function Input(): InputSide
      reads this
    {
      InputSide(cgiInput, bytesSent, inputPipeWrite)
    }

    function Output(): OutputSide
      reads this
    {
      OutputSide(cgiOutput, outputPipeRead)
    }

    function Reap(): Reaping
      reads this
    {
      Reaping(cgiFinished, cgiExitStatus)
    }

    /**
     * A fresh handler: no process, every descriptor -1, nothing sent, nothing
     * received, no status; the input is the body up to its first NUL. The
     * start time is not set until the process is started.
     */
    constructor (scriptPath: string, interpreterPath: string, request: Request)
      ensures this.scriptPath == scriptPath && this.interpreterPath == interpreterPath
      ensures this.request == request
      ensures pid == -1 && bytesSent == 0 && !started && !cgiFinished && cgiExitStatus == -1
      ensures inputPipeRead == -1 && inputPipeWrite == -1
      ensures outputPipeRead == -1 && outputPipeWrite == -1
      ensures cgiInput == CStr(request.body) && cgiOutput == ""
      ensures closeLog == [] && waitLog == []
      ensures Valid()
    {
      this.scriptPath := scriptPath;
      this.interpreterPath := interpreterPath;
      this.request := request;
      pid := -1;
      cgiOutput := "";
      bytesSent := 0;
      started := false;
      cgiFinished := false;
      cgiExitStatus := -1;
      startTime := 0;
      outputPipeRead := -1;
      outputPipeWrite := -1;
      inputPipeRead := -1;
      inputPipeWrite := -1;
      cgiInput := CStr(request.body);
      closeLog := [];
      waitLog := [];
    }

    /**
     * The parent's side of startCGI. `inPipe` and `outPipe` are the descriptor
     * pairs pipe() produced (None when it failed), `forkPid` the pid fork()
     * returned to the parent (-1 on failure), `now` the clock in milliseconds.
     * The parent closes the child's ends without resetting them to -1, and a
     * failed fork closes all four without resetting them.
     */
    method StartCgi(now: ULong, inPipe: Option<(int, int)>, outPipe: Option<(int, int)>, forkPid: int)
      returns (ok: bool)
      requires Valid()
      requires inPipe.Some? ==> inPipe.value.0 >= 0 && inPipe.value.1 >= 0
      requires outPipe.Some? ==> outPipe.value.0 >= 0 && outPipe.value.1 >= 0
      requires forkPid == -1 || forkPid > 0
      modifies this
      ensures Valid()
      ensures startTime == now
      ensures ok <==> inPipe.Some? && outPipe.Some? && forkPid > 0
      ensures inPipe.None? ==>
                inputPipeRead == old(inputPipeRead) && inputPipeWrite == old(inputPipeWrite)
      ensures inPipe.Some? ==> inputPipeRead == inPipe.value.0 && inputPipeWrite == inPipe.value.1
      ensures inPipe.None? || outPipe.None? ==>
                outputPipeRead == old(outputPipeRead) && outputPipeWrite == old(outputPipeWrite)
      ensures inPipe.Some? && outPipe.Some? ==>
                outputPipeRead == outPipe.value.0 && outputPipeWrite == outPipe.value.1
      ensures ok ==> pid == forkPid && started
      ensures !ok ==> pid == old(pid) && started == old(started)
      ensures closeLog == old(closeLog) +
                (if ok then [outPipe.value.1, inPipe.value.0]
                 else if inPipe.Some? && outPipe.Some? then
                   [inPipe.value.0, inPipe.value.1, outPipe.value.0, outPipe.value.1]
                 else [])
      ensures cgiInput == old(cgiInput) && bytesSent == old(bytesSent) && cgiOutput == old(cgiOutput)
      ensures Reap() == old(Reap()) && waitLog == old(waitLog)
    {
      startTime := now;
      if inPipe.None? {
        return false;
      }
      inputPipeRead, inputPipeWrite := inPipe.value.0, inPipe.value.1;
      if outPipe.None? {
        return false;
      }
      outputPipeRead, outputPipeWrite := outPipe.value.0, outPipe.value.1;
      if forkPid > 0 {
        pid := forkPid;
        started := true;
        closeLog := closeLog + [outputPipeWrite, inputPipeRead];
        return true;
      }
      closeLog := closeLog + [inputPipeRead, inputPipeWrite, outputPipeRead, outputPipeWrite];
      return false;
    }

    /**
     * One attempt to stream the rest of the input to the child, write()
     * having accepted `written` bytes (or -1).
     */
    method WriteToCgi(written: int) returns (r: int)
      requires Valid() && WriteResultOk(Input(), written)
      modifies this`bytesSent, this`inputPipeWrite, this`closeLog
      ensures Valid()
      ensures (Input(), r) == WriteStep(old(Input()), written)
      ensures closeLog == old(closeLog) +
                (if old(inputPipeWrite) != -1 && inputPipeWrite == -1 then [old(inputPipeWrite)] else [])
    {
      if inputPipeWrite == -1 {
        return -1;
      }
      if written > 0 {
        bytesSent := bytesSent + written;
      }
      if bytesSent == |cgiInput| {
        closeLog := closeLog + [inputPipeWrite];
        inputPipeWrite := -1;
        return 0;
      }
      return AsInt(bytesSent);
    }

    /** One read of the child's output, read() having returned `rd`. */
    method ReadFromCgi(rd: ReadResult) returns (n: int)
      requires ReadResultOk(rd)
      modifies this`cgiOutput, this`outputPipeRead, this`closeLog
      ensures (Output(), n) == ReadStep(old(Output()), rd)
      ensures closeLog == old(closeLog) +
                (if old(outputPipeRead) != -1 && outputPipeRead == -1 then [old(outputPipeRead)] else [])
    {
      if outputPipeRead == -1 {
        return -1;
      }
      match rd
      case ReadFailed =>
        n := -1;
      case Bytes(data) =>
        if |data| > 0 {
          cgiOutput := cgiOutput + data;
        } else {
          closeLog := closeLog + [outputPipeRead];
          outputPipeRead := -1;
        }
        n := |data|;
    }

    /**
     * Non-blocking poll of the child, waitpid() having returned `result` and,
     * if it reaped the child, `status`. Once the status is cached waitpid is
     * not called again.
     */
    method IsCgiDone(result: int, status: ChildStatus) returns (r: int)
      requires Valid()
      modifies this`cgiFinished, this`cgiExitStatus, this`waitLog
      ensures Valid()
      ensures (Reap(), r) == PollStep(old(Reap()), pid, result, status)
      ensures waitLog == if old(cgiFinished) then old(waitLog) else old(waitLog) + [pid]
    {
      if cgiFinished {
        return cgiExitStatus;
      }
      waitLog := waitLog + [pid];
      if result == 0 {
        return 0;
      } else if result == pid {
        if status.Exited? {
          cgiExitStatus := status.code;
        } else {
          cgiExitStatus := -1;
        }
        cgiFinished := true;
        return cgiExitStatus;
      } else {
        cgiFinished := true;
        cgiExitStatus := -1;
        return cgiExitStatus;
      }
    }

    /** Whether more than the time budget has elapsed since the start, `now` being the clock. */
    function HasTimedOut(now: ULong): (r: bool)
      reads this
      ensures now >= startTime ==> (r <==> now - startTime > CGI_TIMEOUT_MS)
      ensures now < startTime ==> (r <==> now - startTime + ULONG_MODULUS > CGI_TIMEOUT_MS)
    {
      Elapsed(now, startTime) > CGI_TIMEOUT_MS
    }

    /** Closes whichever ends of the input pipe are open and resets both to -1. */
    method CloseInputPipe()
      modifies this`inputPipeRead, this`inputPipeWrite, this`closeLog
      ensures inputPipeRead == -1 && inputPipeWrite == -1
      ensures closeLog == old(closeLog) + OpenEnds(old(inputPipeRead), old(inputPipeWrite))
    {
      if inputPipeRead != -1 {
        closeLog := closeLog + [inputPipeRead];
        inputPipeRead := -1;
      }
      if inputPipeWrite != -1 {
        closeLog := closeLog + [inputPipeWrite];
        inputPipeWrite := -1;
      }
    }

    /** Closes whichever ends of the output pipe are open and resets both to -1. */
    method CloseOutputPipe()
      modifies this`outputPipeRead, this`outputPipeWrite, this`closeLog
      ensures outputPipeRead == -1 && outputPipeWrite == -1
      ensures closeLog == old(closeLog) + OpenEnds(old(outputPipeRead), old(outputPipeWrite))
    {
      if outputPipeRead != -1 {
        closeLog := closeLog + [outputPipeRead];
        outputPipeRead := -1;
      }
      if outputPipeWrite != -1 {
        closeLog := closeLog + [outputPipeWrite];
        outputPipeWrite := -1;
      }
    }

    /**
     * Forced termination: a tracked child is killed and reaped with a blocking
     * waitpid and forgotten; then both pipes are closed. The cached status is
     * left as it was.
     */
    method TerminateCgi()
      modifies this`pid, this`inputPipeRead, this`inputPipeWrite, this`outputPipeRead,
               this`outputPipeWrite, this`closeLog, this`waitLog
      ensures pid == if old(pid) > 0 then -1 else old(pid)
      ensures waitLog == old(waitLog) + (if old(pid) > 0 then [old(pid)] else [])
      ensures inputPipeRead == -1 && inputPipeWrite == -1
      ensures outputPipeRead == -1 && outputPipeWrite == -1
      ensures closeLog == old(closeLog) + OpenEnds(old(inputPipeRead), old(inputPipeWrite))
                                        + OpenEnds(old(outputPipeRead), old(outputPipeWrite))
    {
      if pid > 0 {
        waitLog := waitLog + [pid];
        pid := -1;
      }
      CloseInputPipe();
      CloseOutputPipe();
    }
  }

  /**
   * isCgiDone does not forget the pid of a child it has reaped, so a later
   * terminateCGI kills and waits on that pid once more.
   */
  method ReapThenTerminateWaitsTwice(h: CgiHandler, status: ChildStatus)
    requires h.Valid() && h.pid > 0 && !h.cgiFinished
    modifies h
    ensures h.cgiFinished && h.pid == -1
    ensures h.waitLog == old(h.waitLog) + [old(h.pid), old(h.pid)]
  {
    var r := h.IsCgiDone(h.pid, status);
    h.TerminateCgi();
  }

  /**
   * Closing a pipe twice closes nothing the second time: the second call of
   * each close routine finds both ends at -1.
   */
  method CloseTwiceClosesOnce(h: CgiHandler)
    modifies h
    ensures h.inputPipeRead == -1 && h.inputPipeWrite == -1
    ensures h.outputPipeRead == -1 && h.outputPipeWrite == -1
    ensures h.closeLog == old(h.closeLog) + OpenEnds(old(h.inputPipeRead), old(h.inputPipeWrite))
                                          + OpenEnds(old(h.outputPipeRead), old(h.outputPipeWrite))
  {
    h.TerminateCgi();
    ghost var afterFirst := h.closeLog;
    h.CloseInputPipe();
    h.CloseOutputPipe();
    h.TerminateCgi();
    assert h.closeLog == afterFirst;
  }
}
