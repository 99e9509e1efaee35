/**
 * Command-line arguments (Configuration.java). The rules are positional:
 * the port is the second argument, the leader's host the fourth and its
 * port the fifth; the flags themselves are never checked, except that
 * "--replicaof" anywhere makes the server a follower. A missing argument
 * the code indexes without a guard, or a port that is not an `int`, throws
 * out of `parseCommandLineArguments`, which is `None` here.
 */
module Configuration {
  import opened Optional
  import opened Numerals

  const DefaultPort := 6379
  const ReplicaFlag := "--replicaof"

  /**
   * The parsed configuration; its fields are the accessors `port()`,
   * `role()`, `masterHost()` and `masterPort()`, which hand back what was
   * stored.
   */
  datatype Config = Config(port: int, role: string, masterHost: Option<string>, masterPort: Option<int>)

  /** `portToStartServer`: 6379 without arguments, otherwise `parseInt(args[1])`. */
  function PortToStartServer(args: seq<string>): (r: Option<int>)
    ensures |args| == 0 ==> r == Some(DefaultPort)
    ensures |args| == 1 ==> r.None?
    ensures |args| >= 2 ==> r == ParseInt(args[1])
  {
    if |args| == 0 then Some(DefaultPort)
    else if |args| < 2 then None
    else ParseInt(args[1])
  }

  /** `roleOfServer`. */
  function RoleOfServer(args: seq<string>): (r: string)
    ensures r == "slave" <==> ReplicaFlag in args
    ensures r == "master" <==> ReplicaFlag !in args
  {
    if ReplicaFlag in args then "slave" else "master"
  }

  /** `masterHost`: an index past the end is caught and gives empty. */
  function MasterHost(args: seq<string>): (r: Option<string>)
    ensures r.Some? <==> |args| >= 4
    ensures r.Some? ==> r.value == args[3]
  {
    if |args| >= 4 then Some(args[3]) else None
  }

  /**
   * `masterPort`: an index past the end is caught and gives empty, but a
   * fifth argument that is not an `int` throws (the outer `None`).
   */
  function MasterPort(args: seq<string>): (r: Option<Option<int>>)
    ensures |args| < 5 ==> r == Some(None)
    ensures |args| >= 5 ==> (r.Some? <==> ParseInt(args[4]).Some?)
    ensures |args| >= 5 && r.Some? ==> r.value == ParseInt(args[4])
  {
    if |args| < 5 then Some(None)
    else match ParseInt(args[4])
      case None => None
      case Some(n) => Some(Some(n))
  }

  /** `parseCommandLineArguments`. */
  function Parse(args: seq<string>): (r: Option<Config>)
    ensures r.Some? <==> PortToStartServer(args).Some? && MasterPort(args).Some?
    ensures r.Some? ==> r.value == Config(PortToStartServer(args).value, RoleOfServer(args), MasterHost(args), MasterPort(args).value)
  {
    var port := PortToStartServer(args);
    if port.None? then None
    else
      var role := RoleOfServer(args);
      var host := MasterHost(args);
      var masterPort := MasterPort(args);
      if masterPort.None? then None
      else Some(Config(port.value, role, host, masterPort.value))
  }

  /**
   * Which argument lists parse at all: none, or at least two whose second is
   * an `int` and whose fifth, if there is one, is an `int` too.
   */
  lemma ParsesIff(args: seq<string>)
    ensures Parse(args).Some? <==>
      && |args| != 1
      && (|args| >= 2 ==> ParseInt(args[1]).Some?)
      && (|args| >= 5 ==> ParseInt(args[4]).Some?)
  {
  }

  /** Without arguments: a leader on 6379 with no leader of its own. */
  lemma NoArguments()
    ensures Parse([]) == Some(Config(6379, "master", None, None))
  {
    assert ReplicaFlag !in [];
  }

  /** The rendering of an int is never the flag: it starts with a digit, or with "-" and then a digit. */
  lemma NumeralIsNotTheFlag(n: int)
    ensures IntToString(n) != ReplicaFlag
  {
    if n < 0 {
      var digits := NatToString(-n);
      assert IntToString(n)[1] == digits[0];
      assert IsDigit(digits[0]);
    } else {
      assert IsDigit(IntToString(n)[0]);
    }
  }

  /** "--port <p>": a leader on p. */
  lemma LeaderArguments(flag: string, port: int)
    requires flag != ReplicaFlag && IntMin <= port <= IntMax
    ensures Parse([flag, IntToString(port)]) == Some(Config(port, "master", None, None))
  {
    IntToStringParses(port, IntMin, IntMax);
    NumeralIsNotTheFlag(port);
    assert ReplicaFlag !in [flag, IntToString(port)];
  }

  /** "--port <p> --replicaof <host> <q>": a follower on p of the leader at host:q. */
  lemma FollowerArguments(flag: string, port: int, host: string, masterPort: int)
    requires IntMin <= port <= IntMax && IntMin <= masterPort <= IntMax
    ensures Parse([flag, IntToString(port), ReplicaFlag, host, IntToString(masterPort)]) ==
      Some(Config(port, "slave", Some(host), Some(masterPort)))
  {
    var args := [flag, IntToString(port), ReplicaFlag, host, IntToString(masterPort)];
    IntToStringParses(port, IntMin, IntMax);
    IntToStringParses(masterPort, IntMin, IntMax);
    assert args[2] == ReplicaFlag;
  }
}
