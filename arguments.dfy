/**
 * The positional command-line arguments of the EyeTracker and FaceTracker
 * programs: destination IP, destination port, sleep time in milliseconds.
 */
module Arguments {

  const DefaultIp: string := "127.0.0.1"
  const DefaultPort: int := 9000
  const DefaultSleepTime: int := 33

  /** The three locals `ip`, `port` and `sleepTime` after the switch. */
  datatype Config = Config(ip: string, port: int, sleepTime: int)

  /**
   * Reference definition, field by field: argv[1] is the IP, argv[2] the
   * port and argv[3] the sleep time, each when present; the defaults
   * otherwise. `argv[0]` is the program name.
   */
  function ArgsConfig(argv: seq<string>, atoi: string -> int): Config {
    Config(
      if |argv| >= 2 then argv[1] else DefaultIp,
      if |argv| >= 3 then atoi(argv[2]) else DefaultPort,
      if |argv| >= 4 then atoi(argv[3]) else DefaultSleepTime)
  }

  /**
   * The `switch (argc > 4 ? 4 : argc)` of `main`: case 4 falls through to
   * case 3, which falls through to case 2; anything else breaks.
   */
  method ParseArgs(argv: seq<string>, atoi: string -> int) returns (cfg: Config)
    ensures cfg == ArgsConfig(argv, atoi)
  {
    var ip, port, sleepTime := DefaultIp, DefaultPort, DefaultSleepTime;
    var argc := |argv|;
    var selector := if argc > 4 then 4 else argc;
    if selector == 4 {
      sleepTime := atoi(argv[3]);
    }
    if selector == 4 || selector == 3 {
      port := atoi(argv[2]);
    }
    if selector == 4 || selector == 3 || selector == 2 {
      ip := argv[1];
    }
    cfg := Config(ip, port, sleepTime);
  }

  /** With no argument after the program name the defaults stand. */
  lemma NoArgumentsDefaults(argv: seq<string>, atoi: string -> int)
    requires |argv| <= 1
    ensures ArgsConfig(argv, atoi) == Config("127.0.0.1", 9000, 33)
  {
  }

  /**
   * Fall-through: when the argument at position k is used, so is every
   * argument before it.
   */
  lemma FallThrough(argv: seq<string>, atoi: string -> int, k: nat)
    requires 1 <= k <= 3 && k < |argv|
    ensures ArgsConfig(argv, atoi).ip == argv[1]
    ensures k >= 2 ==> ArgsConfig(argv, atoi).port == atoi(argv[2])
    ensures k >= 3 ==> ArgsConfig(argv, atoi).sleepTime == atoi(argv[3])
  {
  }

  /**
   * Only argv[1..min(argc, 4)] is read: two argument vectors that agree there
   * (and on how many of those positions exist) give the same configuration,
   * whatever the program name and whatever follows the third argument.
   */
  lemma OnlyFirstThreeArgumentsRead(a: seq<string>, b: seq<string>, atoi: string -> int)
    requires Min(|a|, 4) == Min(|b|, 4)
    requires forall j :: 1 <= j < Min(|a|, 4) ==> a[j] == b[j]
    ensures ArgsConfig(a, atoi) == ArgsConfig(b, atoi)
  {
  }

  /** Arguments beyond the third are ignored. */
  lemma ExtraArgumentsIgnored(argv: seq<string>, atoi: string -> int)
    requires |argv| > 4
    ensures ArgsConfig(argv, atoi) == ArgsConfig(argv[..4], atoi)
  {
  }

  function Min(a: int, b: int): int {
    if a < b then a else b
  }
}
