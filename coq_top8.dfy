/** The prover process wrapper (server/src/coqtop/CoqTop8.ts): the command
    line it spawns, the channel addresses it passes, and the flags of its
    life cycle.  The process, its sockets and the signals sent to it are
    recorded as state; spawning, listening and connecting are not modelled. */
module CoqTop8 {
  import opened Wrappers
  import opened JsText
  import opened SemVer

  datatype CoqTopSettings = CoqTopSettings(binPath: string, coqtopExe: string, coqidetopExe: string, args: seq<string>)

  /** `path.join(dir, exe)`, kept as its two parts. */
  datatype BinaryPath = BinaryPath(dir: string, exe: string)

  datatype CommandLine = CommandLine(binary: BinaryPath, args: seq<string>)

  /** The parsed script URI. */
  datatype Uri = Uri(scheme: string, fsPath: string)

  function CoqtopBin(settings: CoqTopSettings): BinaryPath
  {
    BinaryPath(Trim(settings.binPath), settings.coqtopExe)
  }

  function CoqidetopBin(settings: CoqTopSettings): BinaryPath
  {
    BinaryPath(Trim(settings.binPath), settings.coqidetopExe)
  }

  /** `scriptPath`: the file path of a `file` URI, nothing otherwise. */
  function ScriptPath(uri: Uri): (r: Option<string>)
    ensures r.Some? <==> uri.scheme == "file"
  {
    if uri.scheme == "file" then Some(uri.fsPath) else None
  }

  const FallbackVersion := MinorVersion(8, 10)
  const IdeTopVersion := MinorVersion(8, 9)

  /** The channel argument `host:readPort:writePort`. */
  function AddressArg(host: string, readPort: nat, writePort: nat): string
  {
    host + ":" + NatToString(readPort) + ":" + NatToString(writePort)
  }

  /** With a host that has no colon, the argument splits back into the
      host and the two ports. */
  lemma AddressArgParses(host: string, readPort: nat, writePort: nat)
    requires ':' !in host
    ensures var parts := Split(AddressArg(host, readPort, writePort), ':');
      |parts| == 3 && parts[0] == host &&
      (forall i :: 0 <= i < |parts[1]| ==> '0' <= parts[1][i] <= '9') && DecimalValue(parts[1]) == readPort &&
      (forall i :: 0 <= i < |parts[2]| ==> '0' <= parts[2][i] <= '9') && DecimalValue(parts[2]) == writePort
  {
    var r := NatToString(readPort);
    var w := NatToString(writePort);
    assert ':' !in r by {
      assert forall i :: 0 <= i < |r| ==> r[i] != ':';
    }
    assert ':' !in w by {
      assert forall i :: 0 <= i < |w| ==> w[i] != ':';
    }
    assert AddressArg(host, readPort, writePort) == host + [':'] + (r + [':'] + w);
    SplitPiece(host, r + [':'] + w, ':');
    SplitPiece(r, w, ':');
    SplitPiece(w, [], ':');
    DecimalOfNatToString(readPort);
    DecimalOfNatToString(writePort);
  }

  /** `-topfile <path>`, for 8.10 and later and a `file` script. */
  function TopFileArgs(version: Version, script: Uri): (r: seq<string>)
    ensures r != [] <==> AtLeast(version, FallbackVersion) && script.scheme == "file"
    ensures r != [] ==> r == ["-topfile", script.fsPath]
  {
    var path := ScriptPath(script);
    if AtLeast(version, FallbackVersion) && path.Some? then ["-topfile", path.value] else []
  }

  /** `-main-channel <addr> -control-channel <addr>`. */
  function ChannelArgs(mainAddr: string, controlAddr: string): (r: seq<string>)
    ensures |r| == 4 && r[1] == mainAddr && r[3] == controlAddr
  {
    ["-main-channel", mainAddr, "-control-channel", controlAddr]
  }

  const AsyncProofsArgs: seq<string> := ["-async-proofs", "on"]
  const IdeSlaveFlag := "-ideslave"
  const TopFileFlag := "-topfile"

  /** `spawnCoqTop`'s binary and arguments: the IDE top-level for 8.9 and
      later, the plain top-level with `-ideslave` before. */
  function SpawnCoqTop(settings: CoqTopSettings, version: Version, mainAddr: string, controlAddr: string, script: Uri): (r: CommandLine)
    ensures r.binary == if AtLeast(version, IdeTopVersion) then CoqidetopBin(settings) else CoqtopBin(settings)
    ensures ChannelArgs(mainAddr, controlAddr) <= r.args
  {
    var topfile := TopFileArgs(version, script);
    if AtLeast(version, IdeTopVersion) then
      CommandLine(CoqidetopBin(settings), ChannelArgs(mainAddr, controlAddr) + AsyncProofsArgs + settings.args + topfile)
    else
      CommandLine(CoqtopBin(settings), ChannelArgs(mainAddr, controlAddr) + [IdeSlaveFlag] + AsyncProofsArgs + settings.args)
  }

  /** `-ideslave` is passed exactly to provers before 8.9, and `-topfile`
      never to them (unless the user's own arguments hold these words);
      the user's arguments are passed in order after the fixed ones. */
  lemma IdeSlaveOnlyBefore89(settings: CoqTopSettings, version: Version, mainAddr: string, controlAddr: string, script: Uri)
    requires IdeSlaveFlag !in settings.args && TopFileFlag !in settings.args
    requires mainAddr != IdeSlaveFlag && controlAddr != IdeSlaveFlag && script.fsPath != IdeSlaveFlag
    requires mainAddr != TopFileFlag && controlAddr != TopFileFlag
    ensures IdeSlaveFlag in SpawnCoqTop(settings, version, mainAddr, controlAddr, script).args <==> !AtLeast(version, IdeTopVersion)
    ensures !AtLeast(version, IdeTopVersion) ==> TopFileFlag !in SpawnCoqTop(settings, version, mainAddr, controlAddr, script).args
  {
    if AtLeast(version, IdeTopVersion) {
      NewerArgs(settings, version, mainAddr, controlAddr, script);
    } else {
      OlderArgs(settings, version, mainAddr, controlAddr, script);
    }
  }

  lemma NewerArgs(settings: CoqTopSettings, version: Version, mainAddr: string, controlAddr: string, script: Uri)
    requires AtLeast(version, IdeTopVersion)
    requires IdeSlaveFlag !in settings.args
    requires mainAddr != IdeSlaveFlag && controlAddr != IdeSlaveFlag && script.fsPath != IdeSlaveFlag
    ensures IdeSlaveFlag !in SpawnCoqTop(settings, version, mainAddr, controlAddr, script).args
  {
    var channels := ChannelArgs(mainAddr, controlAddr);
    var top := TopFileArgs(version, script);
    assert IdeSlaveFlag !in channels;
    assert IdeSlaveFlag !in AsyncProofsArgs;
    assert IdeSlaveFlag !in top;
    assert SpawnCoqTop(settings, version, mainAddr, controlAddr, script).args == channels + AsyncProofsArgs + settings.args + top;
  }

  lemma OlderArgs(settings: CoqTopSettings, version: Version, mainAddr: string, controlAddr: string, script: Uri)
    requires !AtLeast(version, IdeTopVersion)
    requires TopFileFlag !in settings.args
    requires mainAddr != TopFileFlag && controlAddr != TopFileFlag
    ensures IdeSlaveFlag in SpawnCoqTop(settings, version, mainAddr, controlAddr, script).args
    ensures TopFileFlag !in SpawnCoqTop(settings, version, mainAddr, controlAddr, script).args
  {
    var channels := ChannelArgs(mainAddr, controlAddr);
    assert TopFileFlag !in channels;
    assert TopFileFlag !in AsyncProofsArgs;
    assert SpawnCoqTop(settings, version, mainAddr, controlAddr, script).args == channels + [IdeSlaveFlag] + AsyncProofsArgs + settings.args;
  }

  /** With the newer binary, `-topfile <path>` closes the arguments exactly
      for 8.10 and later and a `file` script. */
  lemma TopFileLast(settings: CoqTopSettings, version: Version, mainAddr: string, controlAddr: string, script: Uri)
    requires AtLeast(version, IdeTopVersion)
    ensures var args := SpawnCoqTop(settings, version, mainAddr, controlAddr, script).args;
      (AtLeast(version, FallbackVersion) && script.scheme == "file") <==>
        |args| >= 2 && args[|args| - 2..] == [TopFileFlag, script.fsPath] && |args| == 8 + |settings.args|
  {
    var args := SpawnCoqTop(settings, version, mainAddr, controlAddr, script).args;
    var top := TopFileArgs(version, script);
    assert args == ChannelArgs(mainAddr, controlAddr) + AsyncProofsArgs + settings.args + top;
    if top != [] {
      assert args[|args| - 2..] == top;
    }
  }

  /** A `-topfile` argument implies the newer binary: 8.10 is at least 8.9. */
  lemma TopFileImpliesIdeTop(version: Version, script: Uri)
    requires TopFileArgs(version, script) != []
    ensures AtLeast(version, IdeTopVersion)
  {
    LessIsStrictTotalOrder(version, IdeTopVersion, FallbackVersion);
  }

  /** The connection state of the protocol layer the process serves. */
  datatype IdeSlaveState = Disconnected | Connected | Error

  /** What the process's handlers receive as `code`: an exit code, `null`
      when the process was ended by a signal, or the `Error` the `error`
      event carries (a failed spawn). */
  datatype ExitCode = Code(n: int) | NullCode | SpawnError(message: string)

  /** A call of the `onClosed` callback: whether the process failed to
      start, and the message passed with it. */
  datatype ClosedEvent = ClosedEvent(isError: bool, message: Option<string>)

  class CoqTop {
    const settings: CoqTopSettings
    const scriptUri: Uri
    /** Whether an `onClosed` callback is registered. */
    const hasOnClosed: bool
    /** `coqtopProc != null`. */
    var running: bool
    /** The accepted sockets, by their local ports. */
    var sockets: seq<nat>
    /** Set by the protocol layer when it connects or fails; `startCoq`
        only reads it. */
    var state: IdeSlaveState
    var coqtopVersion: Option<Version>
    /** The calls made to `onClosed`, in order. */
    var closedEvents: seq<ClosedEvent>
    /** The interrupts `coqInterrupt` sends, in order; the kill in `dispose`
        is process I/O and is not recorded. */
    var signals: seq<string>
    /** The command lines spawned, in order. */
    var spawned: seq<CommandLine>

    constructor (settings: CoqTopSettings, scriptUri: Uri, hasOnClosed: bool)
      ensures this.settings == settings && this.scriptUri == scriptUri && this.hasOnClosed == hasOnClosed
      ensures !running && sockets == [] && state == Disconnected && coqtopVersion.None?
      ensures closedEvents == [] && signals == [] && spawned == []
    {
      this.settings := settings;
      this.scriptUri := scriptUri;
      this.hasOnClosed := hasOnClosed;
      running := false;
      sockets := [];
      state := Disconnected;
      coqtopVersion := None;
      closedEvents := [];
      signals := [];
      spawned := [];
    }

    /** `isRunning`. */
    function IsRunning(): (r: bool)
      reads this
      ensures r <==> running
    {
      running
    }

    /** `dispose`: reports the close while a process runs, drops the
        sockets and the process. */
    method Dispose()
      modifies this
      ensures closedEvents == old(closedEvents) + (if old(running) && hasOnClosed then [ClosedEvent(false, None)] else [])
      ensures !running && sockets == []
      ensures state == old(state) && coqtopVersion == old(coqtopVersion) && signals == old(signals) && spawned == old(spawned)
    {
      if IsRunning() && hasOnClosed {
        closedEvents := closedEvents + [ClosedEvent(false, None)];
      }
      sockets := [];
      running := false;
    }

    /** `startCoq` with `setupCoqTopReadAndWritePorts` up to the spawn:
        the detected version (already coerced) and the listening ports are
        parameters. */
    method StartCoq(detected: Option<Version>, host: string, mainR: nat, mainW: nat, controlR: nat, controlW: nat)
      returns (r: Result<CommandLine, string>)
      modifies this
      ensures old(state) != Disconnected ==>
        r == Failure("coqtop is already started") &&
        running == old(running) && coqtopVersion == old(coqtopVersion) && spawned == old(spawned)
      ensures old(state) == Disconnected ==>
        coqtopVersion == Some(if detected.Some? then detected.value else FallbackVersion) &&
        r == Success(SpawnCoqTop(settings, coqtopVersion.value, AddressArg(host, mainR, mainW), AddressArg(host, controlR, controlW), scriptUri)) &&
        running && spawned == old(spawned) + [r.value]
      ensures state == old(state) && sockets == old(sockets) && closedEvents == old(closedEvents) && signals == old(signals)
    {
      if state != Disconnected {
        return Failure("coqtop is already started");
      }
      var version := if detected.Some? then detected.value else FallbackVersion;
      var mainAddressArg := AddressArg(host, mainR, mainW);
      var controlAddressArg := AddressArg(host, controlR, controlW);
      var command := SpawnCoqTop(settings, version, mainAddressArg, controlAddressArg, scriptUri);
      RecordSpawn(version, command);
      return Success(command);
    }

    /** The state `startCoq` leaves behind once the process is spawned. */
    method RecordSpawn(version: Version, command: CommandLine)
      modifies this
      ensures coqtopVersion == Some(version) && running && spawned == old(spawned) + [command]
      ensures state == old(state) && sockets == old(sockets) && closedEvents == old(closedEvents) && signals == old(signals)
    {
      coqtopVersion, spawned, running := Some(version), spawned + [command], true;
    }

    /** The process's `exit`, `close` or `error` handler: report the close
        while running, then dispose. */
    method OnProcessEnded(isError: bool, code: ExitCode)
      modifies this
      ensures closedEvents == old(closedEvents) +
        (if old(running) && hasOnClosed
         then [ClosedEvent(isError, Some("coqtop closed with code: " + CodeToString(code))), ClosedEvent(false, None)]
         else [])
      ensures !running && sockets == []
      ensures state == old(state) && coqtopVersion == old(coqtopVersion) && signals == old(signals) && spawned == old(spawned)
    {
      if IsRunning() && hasOnClosed {
        closedEvents := closedEvents + [ClosedEvent(isError, Some("coqtop closed with code: " + CodeToString(code)))];
      }
      Dispose();
    }

    /** `coqInterrupt`. */
    method CoqInterrupt() returns (r: bool)
      modifies this
      ensures r == old(running)
      ensures signals == old(signals) + (if r then ["SIGINT"] else [])
      ensures running == old(running) && sockets == old(sockets) && state == old(state)
      ensures closedEvents == old(closedEvents) && coqtopVersion == old(coqtopVersion) && spawned == old(spawned)
    {
      if !running {
        return false;
      }
      signals := signals + ["SIGINT"];
      return true;
    }
  }

  /** `'' + code` for what a handler receives: the number, `null`, or an
      `Error`'s `toString`. */
  function CodeToString(code: ExitCode): (r: string)
    ensures r != []
    ensures code.Code? ==> r == IntToString(code.n)
    ensures code.NullCode? ==> r == "null"
    ensures code.SpawnError? ==> r == "Error: " + code.message
  {
    match code
    case Code(n) => IntToString(n)
    case NullCode => "null"
    case SpawnError(m) => "Error: " + m
  }

  /** The closing message identifies what the handler received: distinct
      codes are reported differently. */
  lemma CodeToStringInjective(a: ExitCode, b: ExitCode)
    requires CodeToString(a) == CodeToString(b)
    ensures a == b
  {
    CodeStart(a);
    CodeStart(b);
    if a.Code? && b.Code? {
      IntToStringInjective(a.n, b.n);
    } else if a.SpawnError? && b.SpawnError? {
      assert a.message == CodeToString(a)[7..];
    }
  }

  /** The first character of a closing code tells its kind. */
  lemma CodeStart(c: ExitCode)
    ensures var r := CodeToString(c);
      (c.Code? ==> r[0] == '-' || '0' <= r[0] <= '9') && (c.NullCode? ==> r[0] == 'n') && (c.SpawnError? ==> r[0] == 'E')
  {
    if c.Code? {
      IntToStringStart(c.n);
    }
  }

  /** A rendered integer starts with its sign or a digit. */
  lemma IntToStringStart(n: int)
    ensures var r := IntToString(n); (n < 0 ==> r[0] == '-') && (n >= 0 ==> '0' <= r[0] <= '9')
  {
  }

  /** Distinct integers render differently. */
  lemma IntToStringInjective(m: int, n: int)
    requires IntToString(m) == IntToString(n)
    ensures m == n
  {
    IntToStringStart(m);
    IntToStringStart(n);
    if m < 0 && n < 0 {
      var r := IntToString(m);
      assert NatToString(-m) == r[1..] == NatToString(-n);
      NatToStringInjective(-m, -n);
    } else if m >= 0 && n >= 0 {
      NatToStringInjective(m, n);
    }
  }

  lemma NatToStringInjective(a: nat, b: nat)
    requires NatToString(a) == NatToString(b)
    ensures a == b
  {
    DecimalOfNatToString(a);
    DecimalOfNatToString(b);
  }

  /** The decimal rendering of an integer. */
  function IntToString(n: int): (r: string)
    ensures r != []
  {
    if n < 0 then "-" + NatToString(-n) else NatToString(n)
  }
}
