/** The server-side call of the Cisco UCM special agent: the command line
    built from the validated rule parameters and the host's configuration. */
module AgentCommand {
  import opened PyBase

  /** `params.ssl` after validation: certificate checking off, checked
      against the host name, or checked against a custom host name. */
  datatype Ssl = Deactivated | Hostname | CustomHostname(host: string)

  /** A password-store secret; its value is never seen by this code. */
  datatype Secret = Secret(id: string)

  /** The validated `Params`; `tcp_port` and `timeout` may be missing. */
  datatype Params = Params(user: string, secret: Secret, tcpPort: Option<int>, ssl: Ssl, timeout: Option<int>)

  /** The host's configuration: its name and the address of its primary
      IP configuration (`host_config.primary_ip_config.address`). */
  datatype HostConfig = HostConfig(name: string, primaryAddress: string)

  /** One command-line argument: plain text, or a secret inserted into a
      format string when the command is run (`secret.unsafe(format)`). */
  datatype Arg = Plain(text: string) | SecretArg(secret: Secret, format: string)

  datatype SpecialAgentCommand = SpecialAgentCommand(commandArguments: seq<Arg>)

  /** Python truthiness of an optional int: neither None nor 0. */
  predicate TimeoutGiven(timeout: Option<int>) {
    timeout.Some? && timeout.value != 0
  }

  /** The host the agent connects to, when there is one. */
  function HostOf(params: Params, hostConfig: HostConfig): string {
    match params.ssl
    case Deactivated => hostConfig.name
    case Hostname => hostConfig.name
    case CustomHostname(h) => h
  }

  // ----- reading the arguments back -----

  /** What the command line tells the special agent. */
  datatype Invocation = Invocation(
    port: Option<int>,
    user: string,
    secret: Secret,
    timeout: Option<int>,
    certCheck: bool,
    host: string)

  /** Reads `[-p PORT] -u USER SECRET [-t TIMEOUT] [--no-cert-check] HOST`
      in that order. */
  function DecodeArguments(args: seq<Arg>): Option<Invocation> {
    if |args| >= 2 && args[0] == Plain("-p") then
      if args[1].Plain? && ParseInt(args[1].text).Return? then
        DecodeFromUser(Some(ParseInt(args[1].text).value), args[2..])
      else None
    else DecodeFromUser(None, args)
  }

  function DecodeFromUser(port: Option<int>, args: seq<Arg>): Option<Invocation> {
    if |args| >= 3 && args[0] == Plain("-u") && args[1].Plain?
       && args[2].SecretArg? && args[2].format == "-s=%s" then
      DecodeOptions(port, args[1].text, args[2].secret, args[3..])
    else None
  }

  function DecodeOptions(port: Option<int>, user: string, secret: Secret, args: seq<Arg>): Option<Invocation> {
    if |args| >= 3 then
      if args[0] == Plain("-t") && args[1].Plain? && ParseInt(args[1].text).Return? then
        DecodeHost(Invocation(port, user, secret, Some(ParseInt(args[1].text).value), true, ""), args[2..])
      else None
    else DecodeHost(Invocation(port, user, secret, None, true, ""), args)
  }

  function DecodeHost(partial: Invocation, args: seq<Arg>): Option<Invocation> {
    if |args| == 2 && args[0] == Plain("--no-cert-check") && args[1].Plain? then
      Some(partial.(certCheck := false, host := args[1].text))
    else if |args| == 1 && args[0].Plain? then
      Some(partial.(host := args[0].text))
    else None
  }

  // ----- commands_function -----

  function PortArgs(tcpPort: Option<int>): seq<Arg> {
    if tcpPort.Some? then [Plain("-p"), Plain(IntToString(tcpPort.value))] else []
  }

  function CredentialArgs(user: string, secret: Secret): seq<Arg> {
    [Plain("-u"), Plain(user), SecretArg(secret, "-s=%s")]
  }

  function TimeoutArgs(timeout: Option<int>): seq<Arg> {
    if TimeoutGiven(timeout) then [Plain("-t"), Plain(IntToString(timeout.value))] else []
  }

  function CertArgs(ssl: Ssl): seq<Arg> {
    if ssl.Deactivated? then [Plain("--no-cert-check")] else []
  }

  /** The arguments `commands_function` writes for `params` and `host`. */
  function CommandLine(params: Params, host: string): seq<Arg> {
    PortArgs(params.tcpPort) + CredentialArgs(params.user, params.secret)
    + TimeoutArgs(params.timeout) + CertArgs(params.ssl) + [Plain(host)]
  }

  /** `commands_function`: exactly one command; with certificate checking
      off and an empty host name it raises NameError, because the fallback
      `primary_ip_config` is not defined. */
  method CommandsFunction(params: Params, hostConfig: HostConfig) returns (r: Try<seq<SpecialAgentCommand>>)
    ensures r.Raise? <==> params.ssl.Deactivated? && hostConfig.name == ""
    ensures r.Raise? ==> r.error == NameError("primary_ip_config")
    ensures r.Return? ==> r.value == [SpecialAgentCommand(CommandLine(params, HostOf(params, hostConfig)))]
  {
    var commandArguments: seq<Arg> := [];
    if params.tcpPort.Some? {
      commandArguments := commandArguments + [Plain("-p"), Plain(IntToString(params.tcpPort.value))];
    }
    commandArguments := commandArguments + [Plain("-u"), Plain(params.user)];
    commandArguments := commandArguments + [SecretArg(params.secret, "-s=%s")];
    if params.timeout.Some? && params.timeout.value != 0 {
      commandArguments := commandArguments + [Plain("-t"), Plain(IntToString(params.timeout.value))];
    }
    var host: string;
    match params.ssl {
      case Deactivated =>
        commandArguments := commandArguments + [Plain("--no-cert-check")];
        if hostConfig.name == "" {
          return Raise(NameError("primary_ip_config"));
        }
        host := hostConfig.name;
      case Hostname =>
        host := hostConfig.name;
      case CustomHostname(h) =>
        host := h;
    }
    commandArguments := commandArguments + [Plain(host)];
    assert host == HostOf(params, hostConfig);
    assert commandArguments == CommandLine(params, host);
    r := Return([SpecialAgentCommand(commandArguments)]);
  }

  /** Where each argument stands: the port pair first when there is a port,
      then `-u`, the user and the secret, then the timeout pair when the
      timeout is truthy, `--no-cert-check` when checking is off, and the host
      last. */
  lemma CommandLineLayout(params: Params, host: string)
    ensures var args := CommandLine(params, host);
      var o := if params.tcpPort.Some? then 2 else 0;
      var t := o + 3 + (if TimeoutGiven(params.timeout) then 2 else 0);
      && |args| == t + (if params.ssl.Deactivated? then 1 else 0) + 1
      && (params.tcpPort.Some? ==> args[..2] == [Plain("-p"), Plain(IntToString(params.tcpPort.value))])
      && (params.tcpPort.None? ==> args[0] == Plain("-u"))
      && args[o..o + 3] == [Plain("-u"), Plain(params.user), SecretArg(params.secret, "-s=%s")]
      && (TimeoutGiven(params.timeout) ==> args[o + 3..o + 5] == [Plain("-t"), Plain(IntToString(params.timeout.value))])
      && (params.ssl.Deactivated? <==> args[|args| - 2] == Plain("--no-cert-check") && |args| - 2 == t)
      && args[|args| - 1] == Plain(host)
  {
    var args := CommandLine(params, host);
    var o := if params.tcpPort.Some? then 2 else 0;
    var t := o + 3 + (if TimeoutGiven(params.timeout) then 2 else 0);
    assert args[..o] == PortArgs(params.tcpPort);
    assert args[o..o + 3] == CredentialArgs(params.user, params.secret);
    assert args[o + 3..t] == TimeoutArgs(params.timeout);
  }

  lemma DecodeHostArgs(partial: Invocation, ssl: Ssl, host: string)
    requires partial.certCheck
    ensures DecodeHost(partial, CertArgs(ssl) + [Plain(host)]) ==
      Some(partial.(certCheck := !ssl.Deactivated?, host := host))
  {
  }

  lemma DecodeOptionArgs(port: Option<int>, user: string, secret: Secret, timeout: Option<int>, ssl: Ssl, host: string)
    ensures DecodeOptions(port, user, secret, TimeoutArgs(timeout) + CertArgs(ssl) + [Plain(host)]) ==
      Some(Invocation(port, user, secret, if TimeoutGiven(timeout) then timeout else None, !ssl.Deactivated?, host))
  {
    var tail := CertArgs(ssl) + [Plain(host)];
    var args := TimeoutArgs(timeout) + tail;
    if TimeoutGiven(timeout) {
      IntRoundTrip(timeout.value);
      assert args[0] == Plain("-t") && args[1] == Plain(IntToString(timeout.value));
      assert args[2..] == tail;
      var partial := Invocation(port, user, secret, timeout, true, "");
      assert DecodeOptions(port, user, secret, args) == DecodeHost(partial, tail);
      DecodeHostArgs(partial, ssl, host);
    } else {
      assert args == tail && |tail| < 3;
      var partial := Invocation(port, user, secret, None, true, "");
      assert DecodeOptions(port, user, secret, args) == DecodeHost(partial, tail);
      DecodeHostArgs(partial, ssl, host);
    }
  }

  /** Reading the written arguments back gives the port, the user, the
      secret, the timeout when it is truthy, whether certificates are
      checked, and the host. */
  lemma CommandLineDecodes(params: Params, host: string)
    ensures DecodeArguments(CommandLine(params, host)) == Some(Invocation(
      params.tcpPort, params.user, params.secret,
      if TimeoutGiven(params.timeout) then params.timeout else None,
      !params.ssl.Deactivated?, host))
  {
    var options := TimeoutArgs(params.timeout) + CertArgs(params.ssl) + [Plain(host)];
    var fromUser := CredentialArgs(params.user, params.secret) + options;
    var args := CommandLine(params, host);
    assert args == PortArgs(params.tcpPort) + fromUser;
    assert fromUser[3..] == options;
    DecodeOptionArgs(params.tcpPort, params.user, params.secret, params.timeout, params.ssl, host);
    assert DecodeFromUser(params.tcpPort, fromUser) == DecodeOptions(params.tcpPort, params.user, params.secret, options);
    if params.tcpPort.Some? {
      IntRoundTrip(params.tcpPort.value);
      assert args[0] == Plain("-p") && args[1] == Plain(IntToString(params.tcpPort.value));
      assert args[2..] == fromUser;
    } else {
      assert args == fromUser;
      assert args[0] == Plain("-u");
    }
  }

  // ----- the host fallback as evidently intended -----

  /** The host with the fallback to the primary IP address that the
      `host_config.name or primary_ip_config.address` expression intends. */
  function IntendedHostOf(params: Params, hostConfig: HostConfig): string {
    match params.ssl
    case Deactivated => if hostConfig.name != "" then hostConfig.name else hostConfig.primaryAddress
    case Hostname => hostConfig.name
    case CustomHostname(h) => h
  }

  /** `commands_function` with the fallback reading the host's primary IP
      address: it never raises, and the agent is given the host name, or the
      primary address when the name is empty. */
  function CommandsFunctionFixed(params: Params, hostConfig: HostConfig): (commands: seq<SpecialAgentCommand>)
    ensures |commands| == 1
    ensures DecodeArguments(commands[0].commandArguments) == Some(Invocation(
      params.tcpPort, params.user, params.secret,
      if TimeoutGiven(params.timeout) then params.timeout else None,
      !params.ssl.Deactivated?,
      if params.ssl.Deactivated? && hostConfig.name == "" then hostConfig.primaryAddress else HostOf(params, hostConfig)))
  {
    CommandLineDecodes(params, IntendedHostOf(params, hostConfig));
    [SpecialAgentCommand(CommandLine(params, IntendedHostOf(params, hostConfig)))]
  }
}
