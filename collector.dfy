/**
 * The device collector of mistral.py: one SSH session per command, each
 * failure turned into an "Error: ..." text, and a connection test that
 * short-circuits a device that cannot be reached.
 */
module Collector {
  import opened Wrappers
  import opened OrderedDict

  /** Where and as whom to log in. */
  datatype Login = Login(ip: string, username: string, password: string)

  /** An entry of the inventory's `devices` list; `device_type` may be absent. */
  datatype Device = Device(name: string, ip: string, username: string, password: string, deviceType: Option<string>)

  function LoginOf(d: Device): Login {
    Login(d.ip, d.username, d.password)
  }

  /** How one `connect` + `exec_command` + `read().decode()` attempt ends. */
  datatype SshOutcome =
    | ConnectFailed(reason: string)
    | CommandFailed(reason: string)
    | Completed(stdout: string)

  /**
   * The network as the scripts see it: what a bare connection attempt raises
   * (None when it succeeds), and how a session that runs one command ends.
   */
  datatype Network = Network(probe: Login -> Option<string>, session: (Login, string) -> SshOutcome)

  const Commands: seq<string> := [
    "show vrf",
    "show vlan",
    "show memory",
    "show version",
    "show interface",
    "show logging"
  ]

  const UnableToConnect: string := "Unable to connect"

  lemma CommandsDistinct()
    ensures forall i, j :: 0 <= i < j < |Commands| ==> Commands[i] != Commands[j]
  {
    assert Commands[3][5] != Commands[5][5];
  }

  /** `f"Error: {str(e)}"`: the marker, then the failure's message unchanged. */
  function ErrorText(reason: string): (r: string)
    ensures |r| == 7 + |reason| && r[..7] == "Error: " && r[7..] == reason
  {
    "Error: " + reason
  }

  /** What `ssh_connect_and_run_command` returns: the output, or the error text; it never raises. */
  function CommandOutput(o: SshOutcome): (r: string)
    ensures o.Completed? ==> r == o.stdout
    ensures o.ConnectFailed? || o.CommandFailed? ==> r == ErrorText(o.reason) && r[..7] == "Error: "
  {
    match o
    case Completed(out) => out
    case ConnectFailed(reason) => ErrorText(reason)
    case CommandFailed(reason) => ErrorText(reason)
  }

  /** A `paramiko.SSHClient`: whom it is logged in to, and whether it was closed. */
  class SshClient {
    var session: Option<Login>
    var closed: bool

    constructor()
      ensures session.None? && !closed
    {
      session := None;
      closed := false;
    }

    /** A `connect` call that succeeded. */
    method Connect(login: Login)
      modifies this
      ensures session == Some(login) && closed == old(closed)
    {
      session := Some(login);
    }

    method Close()
      modifies this
      ensures session.None? && closed
    {
      session := None;
      closed := true;
    }
  }

  /** `ssh_connect_and_run_command`: the `finally` clause closes the client on every path. */
  method SshConnectAndRunCommand(net: Network, login: Login, command: string) returns (output: string, client: SshClient)
    ensures fresh(client) && client.closed && client.session.None?
    ensures output == CommandOutput(net.session(login, command))
  {
    client := new SshClient();
    var outcome := net.session(login, command);
    if outcome.ConnectFailed? {
      output := ErrorText(outcome.reason);
    } else {
      client.Connect(login);
      if outcome.CommandFailed? {
        output := ErrorText(outcome.reason);
      } else {
        output := outcome.stdout;
      }
    }
    client.Close();
  }

  /** `test_ssh_connection`: whether a connection can be opened; the client is closed either way. */
  method TestSshConnection(net: Network, login: Login) returns (ok: bool, client: SshClient)
    ensures fresh(client) && client.closed && client.session.None?
    ensures ok <==> net.probe(login).None?
  {
    client := new SshClient();
    var failure := net.probe(login);
    if failure.None? {
      client.Connect(login);
      ok := true;
    } else {
      ok := false;
    }
    client.Close();
  }

  /** The first `n` commands paired with their outputs, in list order. */
  function OutputsOf(net: Network, login: Login, n: nat): (r: Dict<string, string>)
    requires n <= |Commands|
    ensures |r| == n
    ensures forall k :: 0 <= k < n ==> r[k] == (Commands[k], CommandOutput(net.session(login, Commands[k])))
  {
    if n == 0 then [] else OutputsOf(net, login, n - 1) + [(Commands[n - 1], CommandOutput(net.session(login, Commands[n - 1])))]
  }

  /** Growing a prefix by one element. */
  lemma PrefixStep<T>(s: seq<T>, i: nat)
    requires i < |s|
    ensures s[..i + 1] == s[..i] + [s[i]]
  {
  }

  /** The command not yet run is not yet a key. */
  lemma NextCommandIsNew(net: Network, login: Login, i: nat)
    requires i < |Commands|
    ensures Commands[i] !in Keys(OutputsOf(net, login, i))
  {
    CommandsDistinct();
    var ks := Keys(OutputsOf(net, login, i));
    forall k | 0 <= k < |ks|
      ensures ks[k] != Commands[i]
    {
      assert ks[k] == Commands[k];
    }
  }

  /** `{cmd: "Unable to connect" for cmd in commands}`. */
  function UnreachableOutputs(): (r: Dict<string, string>)
    ensures |r| == |Commands|
    ensures forall k :: 0 <= k < |Commands| ==> r[k] == (Commands[k], UnableToConnect)
  {
    seq(|Commands|, k requires 0 <= k < |Commands| => (Commands[k], UnableToConnect))
  }

  /** What `collect_device_info(device)` returns: an entry for every command, in list order. */
  function DeviceOutputs(net: Network, device: Device): (r: Dict<string, string>)
    ensures Keys(r) == Commands
  {
    var login := LoginOf(device);
    if net.probe(login).Some? then UnreachableOutputs() else OutputsOf(net, login, |Commands|)
  }

  /**
   * `collect_device_info`: the connection test first, then one session per
   * command, each output stored under its command. `ran` lists the commands
   * that were sent to the device.
   */
  method CollectDeviceInfo(net: Network, device: Device) returns (outputs: Dict<string, string>, ghost ran: seq<string>)
    ensures outputs == DeviceOutputs(net, device)
    ensures net.probe(LoginOf(device)).Some? ==> ran == []
    ensures net.probe(LoginOf(device)).None? ==> ran == Commands
  {
    var login := LoginOf(device);
    var reachable, _ := TestSshConnection(net, login);
    if !reachable {
      return UnreachableOutputs(), [];
    }
    outputs, ran := RunCommands(net, login);
  }

  /** The loop of `collect_device_info`: one session per command, in list order. */
  method RunCommands(net: Network, login: Login) returns (outputs: Dict<string, string>, ghost ran: seq<string>)
    ensures outputs == OutputsOf(net, login, |Commands|)
    ensures ran == Commands
  {
    outputs := [];
    ran := [];
    var i := 0;
    while i < |Commands|
      invariant 0 <= i <= |Commands|
      invariant outputs == OutputsOf(net, login, i)
      invariant ran == Commands[..i]
    {
      var command := Commands[i];
      NextCommandIsNew(net, login, i);
      var output, _ := SshConnectAndRunCommand(net, login, command);
      outputs := Put(outputs, command, output);
      PrefixStep(Commands, i);
      ran := ran + [command];
      i := i + 1;
    }
  }

  /** Whatever happens, the result maps exactly the six commands, in list order, each once. */
  lemma DeviceOutputsKeys(net: Network, device: Device)
    ensures Keys(DeviceOutputs(net, device)) == Commands
    ensures DistinctKeys(DeviceOutputs(net, device))
  {
    CommandsDistinct();
  }

  /** An unreachable device reports "Unable to connect" for every command. */
  lemma UnreachableDeviceOutputs(net: Network, device: Device, command: string)
    requires net.probe(LoginOf(device)).Some? && command in Commands
    ensures Get(DeviceOutputs(net, device), command) == Some(UnableToConnect)
  {
    CommandsDistinct();
    DeviceOutputsKeys(net, device);
  }

  /** A reachable device reports, for each command, what its own session produced. */
  lemma ReachableDeviceOutputs(net: Network, device: Device, command: string)
    requires net.probe(LoginOf(device)).None? && command in Commands
    ensures Get(DeviceOutputs(net, device), command) == Some(CommandOutput(net.session(LoginOf(device), command)))
  {
    CommandsDistinct();
    DeviceOutputsKeys(net, device);
  }
}
