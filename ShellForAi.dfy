/**
 * The persistent shell session and the port-forward table of the `shell_for_ai` tool.
 *
 * The module-wide record SHELL_SESSION becomes the class ShellBroker. Everything the
 * Python code learns from the operating system (the enable flag in the configuration,
 * whether the container runs, whether a process has exited, what select/read return,
 * the container's address, a free port, the relay's start-up) is passed in as an oracle
 * value. Each state-changing method is specified by a pure transition function on the
 * value `Session`; the lemmas below state the promised properties of those functions.
 */
module ShellForAi {
  import opened Wrappers
  import opened Strings

  type ProcessId = nat
  type Fd = nat

  // ================================================================ oracles

  /** One round of `select` + `os.read` on the pty master. */
  datatype Poll =
    | NotReady                 // select reported nothing readable within 10 ms
    | Chunk(data: seq<byte>)   // os.read returned these bytes (possibly none)
    | ReadFailed               // select or os.read raised OSError

  /** The outcome of `docker ps -q -f name=<container>`. */
  datatype ContainerCheck = Running | NotRunning | CheckFailed

  /** The outcome of `subprocess.Popen(["docker", "exec", ...])` on a fresh pty pair. */
  datatype Spawn = Spawned(process: ProcessId, fd: Fd) | SpawnRaised(reason: string)

  /** What the host reports during one call of `_ensure_session`. */
  datatype HostWorld = HostWorld(
    enabled: bool,                       // tools_api_config.shell_for_ai.enable
    configuredContainer: Option<string>, // tools_api_config.shell_for_ai.container_name
    exited: set<ProcessId>,              // processes whose poll() is not None
    container: ContainerCheck,
    spawn: Spawn,
    bannerPolls: seq<Poll>)              // what the start-up drain reads

  /** The relay process started by `expose_container_port`. */
  datatype Relay =
    | RelayRaised(reason: string)        // Popen raised
    | RelayStarted(process: ProcessId, saidReady: bool, exitedEarly: bool)

  /** What the host reports during one call of `expose_container_port`. */
  datatype ExposeWorld = ExposeWorld(
    containerIp: Option<string>,         // docker inspect; None when it failed
    freePort: int,                       // what _find_free_port would return
    relay: Relay)

  // ================================================================ state

  /** One entry of `port_forwards`, keyed by its host port. */
  datatype Forward = Forward(hostPort: int, process: ProcessId, containerPort: int, containerIp: string)

  /** The value of SHELL_SESSION. `forwards` lists the port_forwards entries in insertion order. */
  datatype Session = Session(
    process: Option<ProcessId>,
    masterFd: Option<Fd>,
    buffer: seq<byte>,
    containerName: string,
    forwards: seq<Forward>)

  const DefaultContainer := "ai_shell_container"
  const InitialSession := Session(None, None, [], DefaultContainer, [])

  /** A process handle is held exactly when a pty descriptor is, and host ports are unique keys. */
  predicate ValidSession(s: Session)
  {
    (s.process.None? <==> s.masterFd.None?) && DistinctPorts(s.forwards)
  }

  predicate DistinctPorts(fs: seq<Forward>)
  {
    forall i, j :: 0 <= i < j < |fs| ==> fs[i].hostPort != fs[j].hostPort
  }

  /** The keys of `port_forwards`. */
  function Ports(fs: seq<Forward>): set<int>
  {
    set f | f in fs :: f.hostPort
  }

  // ================================================================ buffer fill

  /** Whether this poll ends the read loop. */
  predicate Stops(p: Poll)
  {
    p.NotReady? || p.ReadFailed? || (p.Chunk? && p.data == [])
  }

  /** The bytes `_read_available_output` appends: every chunk up to the first poll that stops it. */
  function Drained(polls: seq<Poll>): seq<byte>
  {
    if polls == [] || Stops(polls[0]) then [] else polls[0].data + Drained(polls[1..])
  }

  /** Whatever follows the poll that stops the loop is never read. */
  lemma {:induction false} DrainedIgnoresAfterStop(polls: seq<Poll>, later: seq<Poll>)
    requires polls != [] && Stops(polls[|polls| - 1])
    ensures Drained(polls + later) == Drained(polls)
  {
    if !Stops(polls[0]) {
      assert (polls + later)[1..] == polls[1..] + later;
      DrainedIgnoresAfterStop(polls[1..], later);
    }
  }

  /** When no poll stops the loop, every chunk is appended, in order. */
  lemma {:induction false} DrainedAppendsChunks(polls: seq<Poll>, more: seq<Poll>)
    requires forall k :: 0 <= k < |polls| ==> !Stops(polls[k])
    ensures Drained(polls + more) == Drained(polls) + Drained(more)
  {
    if polls == [] {
      assert polls + more == more;
    } else {
      assert (polls + more)[1..] == polls[1..] + more;
      DrainedAppendsChunks(polls[1..], more);
    }
  }

  // ================================================================ _ensure_session

  const DisabledError := "Error: shell_for_ai is not enabled in config.json. Please set 'enable': true."
  const CheckFailedError := "Error: Failed to check Docker container status. Is Docker installed and running?"

  function NotRunningError(name: string): string
  {
    "Error: Docker container '" + name + "' is not running. Please deploy it first."
  }

  function ConfiguredName(w: HostWorld): string
  {
    w.configuredContainer.GetOr(DefaultContainer)
  }

  /** Whether the session holds a process that has not exited. */
  predicate Alive(s: Session, w: HostWorld)
  {
    s.process.Some? && s.process.value !in w.exited
  }

  /** The new SHELL_SESSION and the error (None on success) of `_ensure_session`. */
  function EnsureNext(s: Session, w: HostWorld): (Session, Option<string>)
  {
    if !w.enabled then (s, Some(DisabledError))
    else
      var named := s.(containerName := ConfiguredName(w));
      if Alive(named, w) then (named, None)
      else
        var reset := if named.process.Some? then named.(process := None, masterFd := None) else named;
        match w.container
        case NotRunning => (reset, Some(NotRunningError(ConfiguredName(w))))
        case CheckFailed => (reset, Some(CheckFailedError))
        case Running =>
          match w.spawn
          case SpawnRaised(reason) => (reset, Some("Error starting shell session: " + reason))
          case Spawned(p, fd) =>
            (reset.(process := Some(p), masterFd := Some(fd), buffer := reset.buffer + Drained(w.bannerPolls)), None)
  }

  /** Disabled: the fixed error, and no field of the session changes. */
  lemma EnsureDisabled(s: Session, w: HostWorld)
    requires !w.enabled
    ensures EnsureNext(s, w) == (s, Some(DisabledError))
  {
  }

  /** A live process makes the call a no-op apart from recording the configured container name. */
  lemma EnsureAliveNoOp(s: Session, w: HostWorld)
    requires w.enabled && Alive(s, w)
    ensures EnsureNext(s, w) == (s.(containerName := ConfiguredName(w)), None)
  {
  }

  /** A dead process loses its handle and descriptor; the buffer is kept, and the start-up
      banner is appended to it rather than discarded. Forwards are never touched. */
  lemma EnsureKeepsBuffer(s: Session, w: HostWorld)
    requires ValidSession(s)
    ensures var (s', err) := EnsureNext(s, w);
      && ValidSession(s')
      && s'.forwards == s.forwards
      && s.buffer <= s'.buffer
      && (err.None? <==> (w.enabled && (Alive(s, w) || (w.container.Running? && w.spawn.Spawned?))))
      && (err.None? ==> s'.process.Some? && s'.masterFd.Some?)
      && (w.enabled && !Alive(s, w) && err.Some? ==> s'.process.None? && s'.masterFd.None? && s'.buffer == s.buffer)
      && (w.enabled && !Alive(s, w) && w.container.Running? && w.spawn.Spawned? ==> s'.buffer == s.buffer + Drained(w.bannerPolls))
  {
  }

  /** Once a session has started, asking again while its process lives changes nothing. */
  lemma {:induction false} EnsureIdempotent(s: Session, w: HostWorld, w2: HostWorld)
    requires ValidSession(s)
    requires EnsureNext(s, w).1.None?
    requires w2.enabled && w2.configuredContainer == w.configuredContainer
    requires EnsureNext(s, w).0.process.value !in w2.exited
    ensures EnsureNext(EnsureNext(s, w).0, w2) == (EnsureNext(s, w).0, None)
  {
    EnsureKeepsBuffer(s, w);
  }

  // ================================================================ key table

  /** What a key_combo translates to. */
  datatype KeyOutcome = KeyBytes(bytes: seq<byte>) | UnknownCtrlKey | UnknownKey

  const Esc: byte := 0x1B

  /** The fixed key_map of send_shell_input. */
  const NamedKeys: map<string, seq<byte>> := map[
    "Enter" := [0x0A],
    "Return" := [0x0A],
    "Ctrl+C" := [0x03],
    "Ctrl+Z" := [0x1A],
    "Ctrl+D" := [0x04],
    "Up" := [Esc, '[' as int, 'A' as int],
    "Down" := [Esc, '[' as int, 'B' as int],
    "Tab" := [0x09]
  ]

  /** Python's `str.lower()` on one character, where the result is a single character:
      ASCII capitals and U+212A KELVIN SIGN, whose lower case is 'k'. */
  function LowerChar(c: char): char
  {
    if 'A' <= c <= 'Z' then (c as int + 32) as char
    else if c == '\U{212A}' then 'k'
    else c
  }

  predicate IsCtrlCombo(key: string)
  {
    |key| == 6 && key[..5] == "Ctrl+"
  }

  /** The key_combo branch of send_shell_input: a six-character `Ctrl+x` is computed, any other
      key is looked up in the table. */
  function TranslateKey(key: string): KeyOutcome
  {
    if IsCtrlCombo(key) then
      var ch := LowerChar(key[5]);
      if 'a' <= ch <= 'z' then KeyBytes([ch as int - 96]) else UnknownCtrlKey
    else if key in NamedKeys then KeyBytes(NamedKeys[key])
    else UnknownKey
  }

  /** `Ctrl+x` for a letter x of either case writes the one C0 control code of that letter. */
  lemma CtrlLetter(c: char)
    requires 'a' <= c <= 'z'
    ensures var upper := (c as int - 32) as char;
      && TranslateKey("Ctrl+" + [c]) == KeyBytes([c as int - 96])
      && TranslateKey("Ctrl+" + [upper]) == KeyBytes([c as int - 96])
      && 1 <= c as int - 96 <= 26
  {
    var upper := (c as int - 32) as char;
    assert ("Ctrl+" + [c])[5] == c;
    assert ("Ctrl+" + [upper])[5] == upper;
  }

  /** Every Ctrl key that is sent is one byte in 1..26; any other six-character `Ctrl+` key
      writes nothing and is reported as an unknown Ctrl key. */
  lemma CtrlKeyCodes(key: string)
    requires IsCtrlCombo(key)
    ensures TranslateKey(key).KeyBytes? ==> |TranslateKey(key).bytes| == 1 && 1 <= TranslateKey(key).bytes[0] <= 26
    ensures !TranslateKey(key).KeyBytes? ==> TranslateKey(key) == UnknownCtrlKey
    ensures TranslateKey(key).KeyBytes? <==> 'a' <= LowerChar(key[5]) <= 'z'
  {
  }

  /** The Ctrl entries of key_map agree with the computed codes (the table is never reached for them). */
  lemma CtrlTableEntriesAgree()
    ensures forall k :: k in NamedKeys && IsCtrlCombo(k) ==> TranslateKey(k) == KeyBytes(NamedKeys[k])
  {
    assert IsCtrlCombo("Ctrl+C") && IsCtrlCombo("Ctrl+Z") && IsCtrlCombo("Ctrl+D");
    NamedKeysNotCtrl();
    assert "Ctrl+C"[5] == 'C' && "Ctrl+Z"[5] == 'Z' && "Ctrl+D"[5] == 'D';
  }

  /** Enter and Return send a line feed, Tab a horizontal tab; Up and Down send the ECMA-48
      control sequences CUU and CUD (ESC [ A and ESC [ B) with the default count. */
  lemma NamedKeyBytes()
    ensures TranslateKey("Enter") == KeyBytes([0x0A]) && TranslateKey("Return") == KeyBytes([0x0A])
    ensures TranslateKey("Tab") == KeyBytes([0x09])
    ensures TranslateKey("Up") == KeyBytes([0x1B, 0x5B, 0x41])
    ensures TranslateKey("Down") == KeyBytes([0x1B, 0x5B, 0x42])
  {
    NamedKeysNotCtrl();
  }

  lemma NamedKeysNotCtrl()
    ensures !IsCtrlCombo("Enter") && !IsCtrlCombo("Return") && !IsCtrlCombo("Up")
    ensures !IsCtrlCombo("Down") && !IsCtrlCombo("Tab")
  {
    assert "Return"[..5][0] == 'R';
    assert |"Enter"| == 5 && |"Up"| == 2 && |"Down"| == 4 && |"Tab"| == 3;
  }

  /** A key that is neither a six-character `Ctrl+` key nor in the table writes nothing. */
  lemma UnknownKeyWritesNothing(key: string)
    requires !IsCtrlCombo(key) && key !in NamedKeys
    ensures TranslateKey(key) == UnknownKey
  {
  }

  // ================================================================ send_shell_input

  /** The bytes handed to `os.write` on the pty: the UTF-8 text first, then the key's bytes.
      Each write is taken to be complete. */
  function SentBytes(text: string, key: string): seq<byte>
  {
    (if text != "" then Utf8Encode(text) else []) + KeySent(key)
  }

  /** The bytes the key step writes. */
  function KeySent(key: string): seq<byte>
  {
    if key != "" && TranslateKey(key).KeyBytes? then TranslateKey(key).bytes else []
  }

  /** The per-step messages, in the order the steps run. */
  function StepMessages(text: string, key: string): seq<string>
  {
    (if text != "" then ["Sent text: " + text] else []) + KeyMessages(key)
  }

  /** The message of the key step, if a key was given. */
  function KeyMessages(key: string): seq<string>
  {
    if key == "" then []
    else match TranslateKey(key)
      case KeyBytes(_) => ["Sent key: " + key]
      case UnknownCtrlKey => ["Unknown Ctrl key: " + key]
      case UnknownKey => ["Unknown key: " + key]
  }

  const NoInputReply := "No input provided."

  function InputReply(text: string, key: string): string
  {
    var msgs := StepMessages(text, key);
    if msgs == [] then NoInputReply else Join(msgs, ", ")
  }

  /** The reply is "No input provided." exactly when neither text nor key was given; otherwise
      it starts with the first step's message. */
  lemma {:induction false} InputReplyNoInput(text: string, key: string)
    ensures InputReply(text, key) == NoInputReply <==> text == "" && key == ""
    ensures text != "" ==> "Sent text: " + text <= InputReply(text, key)
  {
    var msgs := StepMessages(text, key);
    if msgs != [] {
      JoinStartsWithFirst(msgs, ", ");
      assert msgs[0][0] == 'S' || msgs[0][0] == 'U';
      assert Join(msgs, ", ")[0] == msgs[0][0];
      assert NoInputReply[0] == 'N';
    }
  }

  /** Text is written before the key, and an unknown key adds no byte. */
  lemma SentBytesOrder(text: string, key: string)
    requires text != ""
    ensures Utf8Encode(text) <= SentBytes(text, key)
    ensures !TranslateKey(key).KeyBytes? ==> SentBytes(text, key) == Utf8Encode(text)
  {
  }

  /** The two steps of send_shell_input after the session check: the text, then the key. */
  method InputSteps(text: string, key: string) returns (msg: seq<string>, written: seq<byte>)
    ensures msg == StepMessages(text, key)
    ensures written == SentBytes(text, key)
  {
    msg, written := [], [];
    if text != "" {
      written := Utf8Encode(text);
      msg := ["Sent text: " + text];
    }
    var keyMsg, keyBytes := KeyStep(key);
    msg, written := msg + keyMsg, written + keyBytes;
  }

  /** The key step of send_shell_input: write the translated bytes, or report the key. */
  method KeyStep(key: string) returns (msg: seq<string>, written: seq<byte>)
    ensures msg == KeyMessages(key)
    ensures written == KeySent(key)
  {
    msg, written := [], [];
    if key != "" {
      match TranslateKey(key) {
        case KeyBytes(bytes) =>
          written := bytes;
          msg := ["Sent key: " + key];
        case UnknownCtrlKey =>
          msg := ["Unknown Ctrl key: " + key];
        case UnknownKey =>
          msg := ["Unknown key: " + key];
      }
    }
  }

  /** The new session, the reply and the bytes written by send_shell_input. */
  function InputNext(s: Session, w: HostWorld, text: string, key: string, echo: seq<Poll>): (Session, string, seq<byte>)
  {
    var (s1, err) := EnsureNext(s, w);
    if err.Some? then (s1, err.value, [])
    else (s1.(buffer := s1.buffer + Drained(echo)), InputReply(text, key), SentBytes(text, key))
  }

  // ================================================================ get_shell_output

  /** The new session and the result of get_shell_output: the whole buffer, then empty. */
  function OutputNext(s: Session, w: HostWorld, polls: seq<Poll>): (Session, Result<seq<byte>>)
  {
    var (s1, err) := EnsureNext(s, w);
    if err.Some? then (s1, Err(err.value))
    else (s1.(buffer := []), Ok(s1.buffer + Drained(polls)))
  }

  /** A successful read returns everything accumulated so far and leaves the buffer empty. */
  lemma OutputDrainsAndClears(s: Session, w: HostWorld, polls: seq<Poll>)
    requires ValidSession(s)
    ensures var (s', r) := OutputNext(s, w, polls);
      && ValidSession(s')
      && s'.forwards == s.forwards
      && (r.Ok? ==> s.buffer <= r.value && s'.buffer == [])
      && (r.Ok? && Alive(s, w) ==> r.value == s.buffer + Drained(polls))
  {
    EnsureKeepsBuffer(s, w);
  }

  /** Output is never delivered twice: a second read with no new data returns nothing. */
  lemma {:induction false} OutputTwice(s: Session, w: HostWorld, polls: seq<Poll>, w2: HostWorld, quiet: seq<Poll>)
    requires ValidSession(s)
    requires OutputNext(s, w, polls).1.Ok?
    requires w2.enabled && OutputNext(s, w, polls).0.process.value !in w2.exited
    requires quiet == [] || Stops(quiet[0])
    ensures OutputNext(OutputNext(s, w, polls).0, w2, quiet).1 == Ok([])
  {
    EnsureKeepsBuffer(s, w);
    var (e, err) := EnsureNext(s, w);
    var s1 := OutputNext(s, w, polls).0;
    assert err.None?;
    assert s1 == e.(buffer := []);
    assert s1.process.Some? && s1.buffer == [];
    EnsureAliveNoOp(s1, w2);
    assert Drained(quiet) == [];
    var named := s1.(containerName := ConfiguredName(w2));
    assert OutputNext(s1, w2, quiet).1 == Ok(named.buffer + Drained(quiet));
    assert named.buffer + Drained(quiet) == [];
  }

  // ================================================================ restart_shell_session

  const RestartReply := "Session terminated. It will restart on next input."

  function RestartNext(s: Session): Session
  {
    s.(process := None, masterFd := None, buffer := [])
  }

  /** After a restart the next enabled call with a running container starts a fresh session
      whose buffer holds only the new banner. */
  lemma RestartThenFreshStart(s: Session, w: HostWorld)
    requires ValidSession(s)
    requires w.enabled && w.container.Running? && w.spawn.Spawned?
    ensures ValidSession(RestartNext(s))
    ensures RestartNext(s).forwards == s.forwards
    ensures EnsureNext(RestartNext(s), w).1.None?
    ensures EnsureNext(RestartNext(s), w).0.buffer == Drained(w.bannerPolls)
    ensures EnsureNext(RestartNext(s), w).0.process == Some(w.spawn.process)
  {
  }

  // ================================================================ port forwards

  /** `del port_forwards[hp]`. */
  function RemovePort(fs: seq<Forward>, hp: int): seq<Forward>
  {
    if fs == [] then []
    else if fs[0].hostPort == hp then RemovePort(fs[1..], hp)
    else [fs[0]] + RemovePort(fs[1..], hp)
  }

  /** A table with a head entry has unique keys exactly when its tail does and the head's key is
      not among the tail's. */
  lemma DistinctCons(f: Forward, rest: seq<Forward>)
    ensures DistinctPorts([f] + rest) <==> DistinctPorts(rest) && f.hostPort !in Ports(rest)
  {
    var fs := [f] + rest;
    assert forall k :: 0 <= k < |rest| ==> fs[k + 1] == rest[k];
    if DistinctPorts(fs) {
      forall g | g in rest ensures g.hostPort != f.hostPort {
        var k :| 0 <= k < |rest| && rest[k] == g;
        assert fs[0] == f && fs[k + 1] == g;
        assert fs[0].hostPort != fs[k + 1].hostPort;
      }
    }
    if DistinctPorts(rest) && f.hostPort !in Ports(rest) {
      forall i, j | 0 <= i < j < |fs| ensures fs[i].hostPort != fs[j].hostPort {
        if i == 0 {
          assert fs[j] in rest;
        } else {
          assert fs[i] == rest[i - 1] && fs[j] == rest[j - 1];
        }
      }
    }
  }

  lemma {:induction false} RemovePortMembers(fs: seq<Forward>, hp: int)
    ensures forall f :: f in RemovePort(fs, hp) <==> f in fs && f.hostPort != hp
  {
    if fs != [] {
      RemovePortMembers(fs[1..], hp);
      assert forall f :: f in fs <==> f == fs[0] || f in fs[1..];
    }
  }

  lemma {:induction false} RemovePortDistinct(fs: seq<Forward>, hp: int)
    requires DistinctPorts(fs)
    ensures DistinctPorts(RemovePort(fs, hp))
  {
    if fs != [] {
      assert fs == [fs[0]] + fs[1..];
      DistinctCons(fs[0], fs[1..]);
      RemovePortDistinct(fs[1..], hp);
      if fs[0].hostPort != hp {
        RemovePortMembers(fs[1..], hp);
        DistinctCons(fs[0], RemovePort(fs[1..], hp));
      }
    }
  }

  lemma {:induction false} RemovePortAbsent(fs: seq<Forward>, hp: int)
    requires hp !in Ports(fs)
    ensures RemovePort(fs, hp) == fs
  {
    if fs != [] {
      assert fs[0] in fs;
      assert Ports(fs[1..]) <= Ports(fs);
      RemovePortAbsent(fs[1..], hp);
    }
  }

  /** Removing a port takes out exactly the entries with that key and keeps the others in order. */
  lemma {:induction false} RemovePortSpec(fs: seq<Forward>, hp: int)
    ensures Ports(RemovePort(fs, hp)) == Ports(fs) - {hp}
    ensures forall f :: f in RemovePort(fs, hp) <==> f in fs && f.hostPort != hp
    ensures DistinctPorts(fs) ==> DistinctPorts(RemovePort(fs, hp))
    ensures hp !in Ports(fs) ==> RemovePort(fs, hp) == fs
  {
    RemovePortMembers(fs, hp);
    var r := RemovePort(fs, hp);
    forall p | p in Ports(fs) - {hp}
      ensures p in Ports(r)
    {
      var f :| f in fs && f.hostPort == p;
      assert f in r;
    }
    if DistinctPorts(fs) {
      RemovePortDistinct(fs, hp);
    }
    if hp !in Ports(fs) {
      RemovePortAbsent(fs, hp);
    }
  }

  /** The entries whose relay process is still alive, in order. */
  function PruneDead(fs: seq<Forward>, exited: set<ProcessId>): seq<Forward>
  {
    if fs == [] then []
    else if fs[0].process in exited then PruneDead(fs[1..], exited)
    else [fs[0]] + PruneDead(fs[1..], exited)
  }

  /** Pruning keeps exactly the live entries. */
  lemma {:induction false} PruneDeadSpec(fs: seq<Forward>, exited: set<ProcessId>)
    ensures forall f :: f in PruneDead(fs, exited) <==> f in fs && f.process !in exited
    ensures Ports(PruneDead(fs, exited)) <= Ports(fs)
  {
    if fs != [] {
      PruneDeadSpec(fs[1..], exited);
      assert forall f :: f in fs <==> f == fs[0] || f in fs[1..];
    }
  }

  /** The host ports of the dead entries, in order (the `to_remove` list). */
  function DeadPorts(fs: seq<Forward>, exited: set<ProcessId>): seq<int>
  {
    if fs == [] then []
    else
      var last := fs[|fs| - 1];
      DeadPorts(fs[..|fs| - 1], exited) + (if last.process in exited then [last.hostPort] else [])
  }

  /** The ports kept when the ports in `gone` are deleted. */
  function KeepPorts(fs: seq<Forward>, gone: set<int>): seq<Forward>
  {
    if fs == [] then []
    else if fs[0].hostPort in gone then KeepPorts(fs[1..], gone)
    else [fs[0]] + KeepPorts(fs[1..], gone)
  }

  function SetOf(hs: seq<int>): set<int>
  {
    set h | h in hs
  }

  /** Deleting the ports of `hs` one after another, as the cleanup loop does. */
  function RemovePorts(fs: seq<Forward>, hs: seq<int>): seq<Forward>
  {
    if hs == [] then fs else RemovePort(RemovePorts(fs, hs[..|hs| - 1]), hs[|hs| - 1])
  }

  lemma {:induction false} RemoveAfterKeep(fs: seq<Forward>, gone: set<int>, hp: int)
    ensures RemovePort(KeepPorts(fs, gone), hp) == KeepPorts(fs, gone + {hp})
  {
    if fs != [] {
      RemoveAfterKeep(fs[1..], gone, hp);
    }
  }

  lemma {:induction false} KeepNothing(fs: seq<Forward>)
    ensures KeepPorts(fs, {}) == fs
  {
    if fs != [] {
      KeepNothing(fs[1..]);
    }
  }

  lemma {:induction false} RemovePortsIsKeep(fs: seq<Forward>, hs: seq<int>)
    ensures RemovePorts(fs, hs) == KeepPorts(fs, SetOf(hs))
  {
    if hs == [] {
      assert SetOf(hs) == {};
      KeepNothing(fs);
    } else {
      var init := hs[..|hs| - 1];
      RemovePortsIsKeep(fs, init);
      RemoveAfterKeep(fs, SetOf(init), hs[|hs| - 1]);
      assert SetOf(init) + {hs[|hs| - 1]} == SetOf(hs) by {
        assert hs == init + [hs[|hs| - 1]];
      }
    }
  }

  lemma {:induction false} DeadPortsMembers(fs: seq<Forward>, exited: set<ProcessId>)
    ensures forall h :: h in DeadPorts(fs, exited) <==> exists f :: f in fs && f.process in exited && f.hostPort == h
  {
    if fs != [] {
      var init := fs[..|fs| - 1];
      DeadPortsMembers(init, exited);
      assert fs == init + [fs[|fs| - 1]];
      assert forall f :: f in fs <==> f in init || f == fs[|fs| - 1];
    }
  }

  lemma {:induction false} KeepIsPrune(fs: seq<Forward>, gone: set<int>, exited: set<ProcessId>)
    requires forall f :: f in fs ==> (f.hostPort in gone <==> f.process in exited)
    ensures KeepPorts(fs, gone) == PruneDead(fs, exited)
  {
    if fs != [] {
      assert fs[0] in fs;
      assert forall f :: f in fs[1..] ==> f in fs;
      KeepIsPrune(fs[1..], gone, exited);
    }
  }

  /** Deleting the collected dead ports one by one removes exactly the dead entries. */
  lemma CleanupRemovesDead(fs: seq<Forward>, exited: set<ProcessId>)
    requires DistinctPorts(fs)
    ensures RemovePorts(fs, DeadPorts(fs, exited)) == PruneDead(fs, exited)
  {
    var hs := DeadPorts(fs, exited);
    RemovePortsIsKeep(fs, hs);
    DeadPortsMembers(fs, exited);
    forall f | f in fs
      ensures f.hostPort in (SetOf(hs)) <==> f.process in exited
    {
      if f.hostPort in hs {
        var g :| g in fs && g.process in exited && g.hostPort == f.hostPort;
        var i :| 0 <= i < |fs| && fs[i] == f;
        var j :| 0 <= j < |fs| && fs[j] == g;
        assert i == j;
      }
    }
    KeepIsPrune(fs, SetOf(hs), exited);
  }

  // ---------------------------------------------------------------- list_exposed_ports

  const NoPortsReply := "No ports currently exposed."
  const ListHeader := "Active Port Forwards:"

  const HostLabel := "  Host:"
  const ContainerLabel := " -> Container:"
  const DiedMark := "(Process Died)"
  const ActiveMark := "(Active)"

  /** The status a listing line ends with. */
  function StatusMark(f: Forward, exited: set<ProcessId>): string
  {
    if f.process in exited then DiedMark else ActiveMark
  }

  /** One listing line without its status: the host port, the container port and the
      container address. */
  function ForwardHead(f: Forward): string
  {
    Join([HostLabel, IntToString(f.hostPort), ContainerLabel, IntToString(f.containerPort),
          " (", f.containerIp, ") "], "")
  }

  /** The line `list_exposed_ports` writes for one entry. */
  function ForwardLine(f: Forward, exited: set<ProcessId>): string
  {
    ForwardHead(f) + StatusMark(f, exited)
  }

  /** Text ending in "(Active)" does not end in "(Process Died)". */
  lemma ActiveIsNotDied(head: string)
    ensures !EndsWith(head + ActiveMark, DiedMark)
  {
    var line := head + ActiveMark;
    assert line[|line| - 8] == '(';
    assert DiedMark[6] == 's';
  }

  /** A line ends with "(Process Died)" exactly when the relay has exited, and with
      "(Active)" otherwise. */
  lemma ForwardLineStatus(f: Forward, exited: set<ProcessId>)
    ensures EndsWith(ForwardLine(f, exited), DiedMark) <==> f.process in exited
    ensures f.process !in exited ==> EndsWith(ForwardLine(f, exited), ActiveMark)
  {
    var head, mark := ForwardHead(f), StatusMark(f, exited);
    assert (head + mark)[|head|..] == mark;
    if f.process !in exited {
      ActiveIsNotDied(head);
    }
  }

  /** A line starts with the host port it reports. */
  lemma ForwardLineStart(f: Forward, exited: set<ProcessId>)
    ensures HostLabel + IntToString(f.hostPort) + ContainerLabel <= ForwardLine(f, exited)
  {
    var ps := [HostLabel, IntToString(f.hostPort), ContainerLabel, IntToString(f.containerPort),
               " (", f.containerIp, ") "];
    assert ps == ps[..3] + ps[3..];
    JoinEmptyAppend(ps[..3], ps[3..]);
    assert ps[..3] == [HostLabel, IntToString(f.hostPort), ContainerLabel];
    JoinEmptyThree(HostLabel, IntToString(f.hostPort), ContainerLabel);
  }

  /** A line holds no newline unless the container address does. */
  lemma ForwardLineNoNewline(f: Forward, exited: set<ProcessId>)
    requires '\n' !in f.containerIp
    ensures '\n' !in ForwardLine(f, exited)
  {
    var ps := [HostLabel, IntToString(f.hostPort), ContainerLabel, IntToString(f.containerPort),
               " (", f.containerIp, ") "];
    JoinEmptyExcludes(ps, '\n');
  }

  function ForwardLines(fs: seq<Forward>, exited: set<ProcessId>): seq<string>
  {
    seq(|fs|, i requires 0 <= i < |fs| => ForwardLine(fs[i], exited))
  }

  function ListNext(s: Session, exited: set<ProcessId>): (Session, string)
  {
    if s.forwards == [] then (s, NoPortsReply)
    else (s.(forwards := PruneDead(s.forwards, exited)), Join([ListHeader] + ForwardLines(s.forwards, exited), "\n"))
  }

  /** A non-empty listing is the header followed by one line per entry, in table order, each
      ending with "(Process Died)" exactly when its relay has exited: splitting the reply at
      its newlines gives back exactly those lines. */
  lemma ListReplyLines(s: Session, exited: set<ProcessId>)
    requires forall i :: 0 <= i < |s.forwards| ==> '\n' !in s.forwards[i].containerIp
    ensures var r := ListNext(s, exited).1;
      s.forwards != [] ==>
        && Split(r, '\n') == [ListHeader] + ForwardLines(s.forwards, exited)
        && forall i :: 0 <= i < |s.forwards| ==>
             (EndsWith(Split(r, '\n')[i + 1], DiedMark) <==> s.forwards[i].process in exited)
  {
    if s.forwards != [] {
      var lines := [ListHeader] + ForwardLines(s.forwards, exited);
      forall i | 0 <= i < |lines|
        ensures '\n' !in lines[i]
      {
        if i > 0 {
          ForwardLineNoNewline(s.forwards[i - 1], exited);
        }
      }
      SplitJoin(lines, '\n');
      assert "\n" == ['\n'];
      forall i | 0 <= i < |s.forwards|
        ensures EndsWith(lines[i + 1], DiedMark) <==> s.forwards[i].process in exited
      {
        ForwardLineStatus(s.forwards[i], exited);
      }
    }
  }

  /** The reply is the fixed message exactly when the table is empty (its lines are stated by
      `ListReplyLines`), and afterwards exactly the live entries remain. */
  lemma ListReportsAndPrunes(s: Session, exited: set<ProcessId>)
    requires ValidSession(s)
    ensures var (s', r) := ListNext(s, exited);
      && ValidSession(s')
      && (s.forwards == [] <==> r == NoPortsReply)
      && (forall f :: f in s'.forwards <==> f in s.forwards && f.process !in exited)
      && s'.process == s.process && s'.buffer == s.buffer
  {
    PruneDeadSpec(s.forwards, exited);
    var lines := [ListHeader] + ForwardLines(s.forwards, exited);
    if s.forwards != [] {
      JoinStartsWithFirst(lines, "\n");
      assert Join(lines, "\n")[0] == 'A';
    }
    PruneDeadDistinct(s.forwards, exited);
  }

  lemma {:induction false} PruneDeadDistinct(fs: seq<Forward>, exited: set<ProcessId>)
    requires DistinctPorts(fs)
    ensures DistinctPorts(PruneDead(fs, exited))
  {
    if fs != [] {
      assert fs == [fs[0]] + fs[1..];
      DistinctCons(fs[0], fs[1..]);
      PruneDeadDistinct(fs[1..], exited);
      if fs[0].process !in exited {
        PruneDeadSpec(fs[1..], exited);
        DistinctCons(fs[0], PruneDead(fs[1..], exited));
      }
    }
  }

  // ---------------------------------------------------------------- expose_container_port

  const PortsNotIntegers := "Error: Ports must be integers."

  function NoIpError(name: string): string
  {
    "Error: Could not determine IP for container '" + name + "'."
  }

  function DuplicatePortError(hp: int): string
  {
    "Error: Host port " + IntToString(hp) + " is already being forwarded."
  }

  function RelayFailedError(hp: int): string
  {
    "Error: Port forwarder failed to start. Port " + IntToString(hp) + " might be in use."
  }

  function ExposedReply(cp: int, hp: int): string
  {
    "Successfully exposed Container:" + IntToString(cp) + " -> Host:" + IntToString(hp)
  }

  /** The host port actually used: the requested one, or a free one when 0 was requested. */
  function EffectivePort(hostPort: int, ew: ExposeWorld): int
  {
    if hostPort == 0 then ew.freePort else hostPort
  }

  /** The new session and reply of expose_container_port. A port argument that is not an
      integer is None; an omitted host port is Some(0). */
  function ExposeNext(s: Session, containerPort: Option<int>, hostPort: Option<int>, w: HostWorld, ew: ExposeWorld): (Session, string)
  {
    if containerPort.None? || hostPort.None? then (s, PortsNotIntegers)
    else
      var (s1, err) := EnsureNext(s, w);
      if err.Some? then (s1, err.value)
      else if ew.containerIp.None? || ew.containerIp.value == "" then (s1, NoIpError(s1.containerName))
      else
        var hp := EffectivePort(hostPort.value, ew);
        if hp in Ports(s1.forwards) then (s1, DuplicatePortError(hp))
        else
          match ew.relay
          case RelayRaised(reason) => (s1, "Error starting port forwarder: " + reason)
          case RelayStarted(p, ready, exitedEarly) =>
            if !ready && exitedEarly then (s1, RelayFailedError(hp))
            else (s1.(forwards := s1.forwards + [Forward(hp, p, containerPort.value, ew.containerIp.value)]),
                  ExposedReply(containerPort.value, hp))
  }

  /** Exposing either leaves the table as it was or appends exactly one entry under a host port
      that was free, holding the container port and address. */
  lemma ExposeAddsOne(s: Session, cp: Option<int>, hp: Option<int>, w: HostWorld, ew: ExposeWorld)
    requires ValidSession(s)
    ensures var (s', r) := ExposeNext(s, cp, hp, w, ew);
      && ValidSession(s')
      && (s'.forwards == s.forwards
          || (&& cp.Some? && hp.Some? && ew.containerIp.Some?
              && var port := EffectivePort(hp.value, ew);
              && port !in Ports(s.forwards)
              && s'.forwards == s.forwards + [Forward(port, ew.relay.process, cp.value, ew.containerIp.value)]
              && r == ExposedReply(cp.value, port)))
  {
    EnsureKeepsBuffer(s, w);
    var (s', r) := ExposeNext(s, cp, hp, w, ew);
    if s'.forwards != s.forwards {
      var port := EffectivePort(hp.value, ew);
      var fs := s'.forwards;
      forall i, j | 0 <= i < j < |fs| ensures fs[i].hostPort != fs[j].hostPort {
        if j == |fs| - 1 {
          assert fs[i] in s.forwards;
        }
      }
    }
  }

  /** Exposing appends an entry exactly when both ports are integers, the session starts, the
      container has an address, the host port is free and the relay did not die before saying
      it was ready; that entry is reported as exposed. Otherwise the table is left as it was. */
  lemma ExposeSucceeds(s: Session, cp: Option<int>, hp: Option<int>, w: HostWorld, ew: ExposeWorld)
    requires ValidSession(s)
    ensures var (s', r) := ExposeNext(s, cp, hp, w, ew);
      var succeeds := && cp.Some? && hp.Some? && EnsureNext(s, w).1.None?
                      && ew.containerIp.Some? && ew.containerIp.value != ""
                      && EffectivePort(hp.value, ew) !in Ports(s.forwards)
                      && ew.relay.RelayStarted? && (ew.relay.saidReady || !ew.relay.exitedEarly);
      && (succeeds ==>
            && s'.forwards == s.forwards + [Forward(EffectivePort(hp.value, ew), ew.relay.process, cp.value, ew.containerIp.value)]
            && r == ExposedReply(cp.value, EffectivePort(hp.value, ew)))
      && (!succeeds ==> s'.forwards == s.forwards)
  {
    EnsureKeepsBuffer(s, w);
  }

  /** A host port already in the table is refused and the table is left unchanged. */
  lemma ExposeDuplicateRefused(s: Session, cp: int, hp: int, w: HostWorld, ew: ExposeWorld)
    requires ValidSession(s)
    requires EnsureNext(s, w).1.None? && ew.containerIp.Some? && ew.containerIp.value != ""
    requires EffectivePort(hp, ew) in Ports(s.forwards)
    ensures ExposeNext(s, Some(cp), Some(hp), w, ew).0.forwards == s.forwards
    ensures ExposeNext(s, Some(cp), Some(hp), w, ew).1 == DuplicatePortError(EffectivePort(hp, ew))
  {
    EnsureKeepsBuffer(s, w);
  }

  /** Exposing a port and then exposing again on the host port that was just bound fails. */
  lemma {:induction false} ExposeSamePortTwice(s: Session, cp: int, hp: int, w: HostWorld, ew: ExposeWorld, w2: HostWorld, ew2: ExposeWorld)
    requires ValidSession(s)
    requires ExposeNext(s, Some(cp), Some(hp), w, ew).0.forwards != s.forwards
    requires EnsureNext(ExposeNext(s, Some(cp), Some(hp), w, ew).0, w2).1.None?
    requires ew2.containerIp.Some? && ew2.containerIp.value != ""
    requires EffectivePort(hp, ew) != 0
    ensures var s1 := ExposeNext(s, Some(cp), Some(hp), w, ew).0;
      ExposeNext(s1, Some(cp), Some(EffectivePort(hp, ew)), w2, ew2) == (EnsureNext(s1, w2).0, DuplicatePortError(EffectivePort(hp, ew)))
  {
    ExposeAddsOne(s, Some(cp), Some(hp), w, ew);
    var s1 := ExposeNext(s, Some(cp), Some(hp), w, ew).0;
    var port := EffectivePort(hp, ew);
    assert s1.forwards[|s1.forwards| - 1].hostPort == port;
    assert s1.forwards[|s1.forwards| - 1] in s1.forwards;
    assert port in Ports(s1.forwards);
    EnsureKeepsBuffer(s1, w2);
    ExposeDuplicateRefused(s1, cp, port, w2, ew2);
    assert EffectivePort(port, ew2) == port;
  }

  // ---------------------------------------------------------------- close_exposed_port

  const ClosePortNotInteger := "Error: Host port must be an integer."

  function CloseNotFound(hp: int): string
  {
    "Error: No active forwarding found on host port " + IntToString(hp) + "."
  }

  function ClosedReply(hp: int): string
  {
    "Port forwarding on host port " + IntToString(hp) + " stopped."
  }

  function CloseNext(s: Session, hostPort: Option<int>): (Session, string)
  {
    if hostPort.None? then (s, ClosePortNotInteger)
    else if hostPort.value !in Ports(s.forwards) then (s, CloseNotFound(hostPort.value))
    else (s.(forwards := RemovePort(s.forwards, hostPort.value)), ClosedReply(hostPort.value))
  }

  /** Closing an absent port is an error that changes nothing; closing a present one removes
      exactly that entry, and the next listing's cleanup cannot bring it back. */
  lemma CloseRemovesExactly(s: Session, hp: int, exited: set<ProcessId>)
    requires ValidSession(s)
    ensures var (s', r) := CloseNext(s, Some(hp));
      && ValidSession(s')
      && (hp !in Ports(s.forwards) ==> s' == s && r == CloseNotFound(hp))
      && (hp in Ports(s.forwards) ==> Ports(s'.forwards) == Ports(s.forwards) - {hp})
      && (forall f :: f in s'.forwards <==> f in s.forwards && f.hostPort != hp)
      && hp !in Ports(ListNext(s', exited).0.forwards)
  {
    RemovePortSpec(s.forwards, hp);
    var s' := CloseNext(s, Some(hp)).0;
    PruneDeadSpec(s'.forwards, exited);
  }

  /** After closing `hp`, every line of a non-empty listing reports a remaining entry, none
      of which has that host port. */
  lemma ListAfterClose(s: Session, hp: int, exited: set<ProcessId>)
    requires forall i :: 0 <= i < |s.forwards| ==> '\n' !in s.forwards[i].containerIp
    ensures var s' := CloseNext(s, Some(hp)).0;
      s'.forwards != [] ==>
        var lines := Split(ListNext(s', exited).1, '\n');
        && |lines| == |s'.forwards| + 1
        && forall k :: 1 <= k < |lines| ==>
             lines[k] == ForwardLine(s'.forwards[k - 1], exited) && s'.forwards[k - 1].hostPort != hp
  {
    var s' := CloseNext(s, Some(hp)).0;
    RemovePortMembers(s.forwards, hp);
    if s'.forwards != [] {
      forall i | 0 <= i < |s'.forwards|
        ensures '\n' !in s'.forwards[i].containerIp
        ensures s'.forwards[i].hostPort != hp
      {
        assert s'.forwards[i] in s'.forwards;
      }
      ListReplyLines(s', exited);
    }
  }

  /** The report loop of `list_exposed_ports`: one line per entry, in table order, and the
      ports of the dead entries collected in the same order. The loop is stated for any
      line format `render`; the listing passes `ForwardLine`. */
  method ScanForwards(fs: seq<Forward>, exited: set<ProcessId>, render: Forward -> string)
    returns (lines: seq<string>, dead: seq<int>)
    ensures |lines| == |fs|
    ensures forall k :: 0 <= k < |fs| ==> lines[k] == render(fs[k])
    ensures dead == DeadPorts(fs, exited)
  {
    lines, dead := [], [];
    var i := 0;
    while i < |fs|
      invariant 0 <= i <= |fs|
      invariant |lines| == i
      invariant forall k :: 0 <= k < i ==> lines[k] == render(fs[k])
      invariant dead == DeadPorts(fs[..i], exited)
    {
      var f := fs[i];
      DeadPortsSnoc(fs[..i], f, exited);
      assert fs[..i + 1] == fs[..i] + [f];
      if f.process in exited {
        dead := dead + [f.hostPort];
      }
      lines := lines + [render(f)];
      i := i + 1;
    }
    assert fs[..i] == fs;
  }

  lemma DeadPortsSnoc(fs: seq<Forward>, f: Forward, exited: set<ProcessId>)
    ensures DeadPorts(fs + [f], exited) == DeadPorts(fs, exited) + (if f.process in exited then [f.hostPort] else [])
  {
    assert (fs + [f])[..|fs|] == fs;
  }

  // ================================================================ the session object

  /** SHELL_SESSION, whose functions mutate it in place. */
  class ShellBroker {
    var process: Option<ProcessId>
    var masterFd: Option<Fd>
    var buffer: seq<byte>
    var containerName: string
    var forwards: seq<Forward>

    function State(): Session
      reads this
    {
      Session(process, masterFd, buffer, containerName, forwards)
    }

    predicate Valid()
      reads this
    {
      ValidSession(State())
    }

    constructor ()
      ensures Valid() && State() == InitialSession
    {
      process, masterFd, buffer := None, None, [];
      containerName, forwards := DefaultContainer, [];
    }

    /** `_read_available_output`: append every chunk until a poll stops the loop. */
    method ReadAvailableOutput(polls: seq<Poll>)
      modifies this`buffer
      ensures buffer == old(buffer) + (if masterFd.None? then [] else Drained(polls))
    {
      if masterFd.None? {
        return;
      }
      var i := 0;
      while i < |polls|
        invariant 0 <= i <= |polls|
        invariant buffer + Drained(polls[i..]) == old(buffer) + Drained(polls)
      {
        var p := polls[i];
        if Stops(p) {
          break;
        }
        assert polls[i..][1..] == polls[i + 1..];
        buffer := buffer + p.data;
        i := i + 1;
      }
    }

    /** `_ensure_session`. */
    method EnsureSession(w: HostWorld) returns (err: Option<string>)
      requires Valid()
      modifies this`process, this`masterFd, this`buffer, this`containerName
      ensures Valid()
      ensures (State(), err) == EnsureNext(old(State()), w)
    {
      if !w.enabled {
        return Some(DisabledError);
      }
      var name := ConfiguredName(w);
      containerName := name;
      if process.Some? {
        if process.value !in w.exited {
          return None;
        }
        masterFd := None;
        process := None;
      }
      match w.container {
        case NotRunning => return Some(NotRunningError(name));
        case CheckFailed => return Some(CheckFailedError);
        case Running =>
      }
      match w.spawn {
        case SpawnRaised(reason) =>
          return Some("Error starting shell session: " + reason);
        case Spawned(p, fd) =>
          process := Some(p);
          masterFd := Some(fd);
          ReadAvailableOutput(w.bannerPolls);
          return None;
      }
    }

    /** `send_shell_input`; `written` is what is handed to os.write, every write taken to be
        complete. An argument that is None or empty is passed as "". */
    method SendShellInput(text: string, key: string, w: HostWorld, echo: seq<Poll>) returns (reply: string, written: seq<byte>)
      requires Valid()
      modifies this`process, this`masterFd, this`buffer, this`containerName
      ensures Valid()
      ensures (State(), reply, written) == InputNext(old(State()), w, text, key, echo)
    {
      var err := EnsureSession(w);
      if err.Some? {
        return err.value, [];
      }
      var msg;
      msg, written := InputSteps(text, key);
      ReadAvailableOutput(echo);
      reply := if msg == [] then NoInputReply else Join(msg, ", ");
    }

    /** `get_shell_output`: the drained bytes, before UTF-8 decoding. */
    method GetShellOutput(w: HostWorld, polls: seq<Poll>) returns (out: Result<seq<byte>>)
      requires Valid()
      modifies this`process, this`masterFd, this`buffer, this`containerName
      ensures Valid()
      ensures (State(), out) == OutputNext(old(State()), w, polls)
    {
      var err := EnsureSession(w);
      if err.Some? {
        return Err(err.value);
      }
      ReadAvailableOutput(polls);
      out := Ok(buffer);
      buffer := [];
    }

    /** `restart_shell_session`; terminating an already dead process cannot fail here. */
    method RestartShellSession() returns (reply: string)
      requires Valid()
      modifies this`process, this`masterFd, this`buffer
      ensures Valid()
      ensures State() == RestartNext(old(State())) && reply == RestartReply
    {
      process, masterFd, buffer := None, None, [];
      reply := RestartReply;
    }

    /** `expose_container_port`. */
    method ExposeContainerPort(containerPort: Option<int>, hostPort: Option<int>, w: HostWorld, ew: ExposeWorld) returns (reply: string)
      requires Valid()
      modifies this
      ensures Valid()
      ensures (State(), reply) == ExposeNext(old(State()), containerPort, hostPort, w, ew)
    {
      if containerPort.None? || hostPort.None? {
        return PortsNotIntegers;
      }
      var err := EnsureSession(w);
      if err.Some? {
        return err.value;
      }
      if ew.containerIp.None? || ew.containerIp.value == "" {
        return NoIpError(containerName);
      }
      var hp := hostPort.value;
      if hp == 0 {
        hp := ew.freePort;
      }
      if hp in Ports(forwards) {
        return DuplicatePortError(hp);
      }
      match ew.relay {
        case RelayRaised(reason) =>
          return "Error starting port forwarder: " + reason;
        case RelayStarted(p, ready, exitedEarly) =>
          if !ready && exitedEarly {
            return RelayFailedError(hp);
          }
          ExposeAddsOne(old(State()), containerPort, hostPort, w, ew);
          forwards := forwards + [Forward(hp, p, containerPort.value, ew.containerIp.value)];
          return ExposedReply(containerPort.value, hp);
      }
    }

    /** `list_exposed_ports`: report every entry, then delete the dead ones. */
    method ListExposedPorts(exited: set<ProcessId>) returns (reply: string)
      requires Valid()
      modifies this`forwards
      ensures Valid()
      ensures (State(), reply) == ListNext(old(State()), exited)
    {
      if forwards == [] {
        return NoPortsReply;
      }
      var fs := forwards;
      var lines, toRemove := ScanForwards(fs, exited, f => ForwardLine(f, exited));
      assert lines == ForwardLines(fs, exited);
      reply := Join([ListHeader] + lines, "\n");
      CleanupRemovesDead(fs, exited);
      DeleteForwards(toRemove);
      ListReportsAndPrunes(old(State()), exited);
    }

    /** The cleanup loop of `list_exposed_ports`: `del` each collected host port in turn. */
    method DeleteForwards(toRemove: seq<int>)
      modifies this`forwards
      ensures forwards == RemovePorts(old(forwards), toRemove)
    {
      ghost var fs := forwards;
      var j := 0;
      while j < |toRemove|
        invariant 0 <= j <= |toRemove|
        invariant forwards == RemovePorts(fs, toRemove[..j])
      {
        assert toRemove[..j + 1][..j] == toRemove[..j];
        forwards := RemovePort(forwards, toRemove[j]);
        j := j + 1;
      }
      assert toRemove[..j] == toRemove;
    }

    /** `close_exposed_port`; terminating the relay never fails here. */
    method CloseExposedPort(hostPort: Option<int>) returns (reply: string)
      requires Valid()
      modifies this`forwards
      ensures Valid()
      ensures (State(), reply) == CloseNext(old(State()), hostPort)
    {
      if hostPort.None? {
        return ClosePortNotInteger;
      }
      if hostPort.value !in Ports(forwards) {
        return CloseNotFound(hostPort.value);
      }
      RemovePortSpec(forwards, hostPort.value);
      forwards := RemovePort(forwards, hostPort.value);
      return ClosedReply(hostPort.value);
    }
  }
}
