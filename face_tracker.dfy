/**
 * FaceTracker/main.cpp: parses destination and period from the command
 * line, reads one scale factor per expression from `rate.txt` and one OSC
 * address per expression from `address.txt`, then every iteration with a
 * valid expression status sends one bundle with a message per expression.
 */
module FaceTracker {
  import opened Wrappers
  import opened OpenXr
  import opened Osc
  import opened Arguments

  /** `float rate[XR_FACE_EXPRESSION_COUNT_FB]` */
  type RateTable = s: seq<real> | |s| == ExpressionCount
    witness seq(ExpressionCount, _ => 0.0)

  /** `std::string address[XR_FACE_EXPRESSION_COUNT_FB]` */
  type AddressTable = s: seq<string> | |s| == ExpressionCount
    witness seq(ExpressionCount, _ => "")

  /** The channel mapping loaded at startup. */
  datatype Mapping = Mapping(rate: RateTable, address: AddressTable)

  /** The two startup failures, in the order they are checked. */
  datatype StartupError = RateFileShort | AddressFileShort

  /** `main`'s return value on a startup failure. */
  const StartupFailureStatus: int := -1

  /** How `main` ends on a startup failure: its return value and what it printed last. */
  datatype Exit = Exit(status: int, diagnostic: string)

  /** The text written to standard output before returning. */
  function Diagnostic(e: StartupError): string {
    match e
    case RateFileShort => "No enable.txt"
    case AddressFileShort => "No address.txt"
  }

  /**
   * Reference definition of the loader: the rate file is checked first; each
   * needs at least one line per expression; lines after the last needed one
   * play no part.
   */
  function ReadMapping(rateLines: seq<string>, addressLines: seq<string>, atof: string -> real)
    : Result<Mapping, StartupError>
  {
    if |rateLines| < ExpressionCount then Failure(RateFileShort)
    else if |addressLines| < ExpressionCount then Failure(AddressFileShort)
    else Success(Mapping(
      seq(ExpressionCount, i requires 0 <= i < ExpressionCount => atof(CStr(rateLines[i]))),
      addressLines[..ExpressionCount]))
  }

  /**
   * The two `for` loops that fill `rate` and `address` line by line with
   * `std::getline`, returning early when a file runs out of lines. A file
   * that cannot be opened is one with no lines.
   */
  method LoadMapping(rateLines: seq<string>, addressLines: seq<string>, atof: string -> real)
    returns (r: Result<Mapping, StartupError>)
    ensures r == ReadMapping(rateLines, addressLines, atof)
  {
    var rate := new real[ExpressionCount];
    for i := 0 to ExpressionCount
      invariant i <= |rateLines|
      invariant forall j :: 0 <= j < i ==> rate[j] == atof(CStr(rateLines[j]))
    {
      if i >= |rateLines| {
        return Failure(RateFileShort);
      }
      rate[i] := atof(CStr(rateLines[i]));
    }
    var address := new string[ExpressionCount];
    for i := 0 to ExpressionCount
      invariant i <= |addressLines|
      invariant forall j :: 0 <= j < i ==> address[j] == addressLines[j]
      invariant forall j :: 0 <= j < ExpressionCount ==> rate[j] == atof(CStr(rateLines[j]))
    {
      if i >= |addressLines| {
        return Failure(AddressFileShort);
      }
      address[i] := addressLines[i];
    }
    assert rate[..] == seq(ExpressionCount, i requires 0 <= i < ExpressionCount => atof(CStr(rateLines[i])));
    assert address[..] == addressLines[..ExpressionCount];
    r := Success(Mapping(rate[..], address[..]));
  }

  /**
   * What `std::string::c_str()` hands to a function taking a C string: the
   * part of the line before its first NUL character, which `std::getline`
   * keeps in the line.
   */
  function CStr(s: string): (r: string)
    ensures r <= s
    ensures '\0' !in r
    ensures |r| < |s| ==> s[|r|] == '\0'
  {
    if |s| == 0 || s[0] == '\0' then "" else [s[0]] + CStr(s[1..])
  }

  /** A line without NUL reaches the OSC address whole; one with a NUL is cut there. */
  lemma CStrCut(s: string, t: string)
    requires '\0' !in s
    ensures CStr(s) == s
    ensures CStr(s + ['\0'] + t) == s
  {
    var u := s + ['\0'] + t;
    assert u[|s|] == '\0';
    assert u[..|s|] == s;
  }

  /** `weights[i] * rate[i]`: the scaled value of one channel. */
  function Scaled(weight: real, rate: real): real {
    weight * rate
  }

  /**
   * The messages of one bundle: message i goes to `address[i].c_str()` with
   * `weights[i] * rate[i]`.
   */
  function Bundle(weights: WeightVector, m: Mapping): seq<Message> {
    seq(ExpressionCount, i requires 0 <= i < ExpressionCount => Message(CStr(m.address[i]), [Scaled(weights[i], m.rate[i])]))
  }

  /** Specification of one iteration of the `while (1)` loop. */
  function TickEffectOf(cfg: Config, m: Mapping, expr: FaceExpressionWeights): TickEffect {
    TickEffect(
      if expr.isValid then Some(Datagram(Endpoint(cfg.ip, cfg.port), Bundle(expr.weights, m))) else None,
      cfg.sleepTime)
  }

  /** One iteration: if the status is valid, stream and send one message per expression; then sleep. */
  method Tick(cfg: Config, m: Mapping, expr: FaceExpressionWeights) returns (effect: TickEffect)
    ensures effect == TickEffectOf(cfg, m, expr)
  {
    var sent: Option<Datagram> := None;
    if expr.isValid {
      var p := new PacketStream();
      p.BeginBundleImmediate();
      for i := 0 to ExpressionCount
        invariant p.phase == InBundle && !p.inMessage
        invariant p.elements == Bundle(expr.weights, m)[..i]
      {
        ghost var b := Bundle(expr.weights, m);
        p.BeginMessage(CStr(m.address[i]));
        p.PushFloat(Scaled(expr.weights[i], m.rate[i]));
        assert Message(p.address, p.args) == b[i];
        p.EndMessage();
        assert b[..i + 1] == b[..i] + [b[i]];
      }
      p.EndBundle();
      assert p.elements == Bundle(expr.weights, m);
      sent := Some(Datagram(Endpoint(cfg.ip, cfg.port), p.elements));
    }
    effect := TickEffect(sent, cfg.sleepTime);
  }

  /**
   * `main` with the endless loop cut to the given iterations: arguments, then
   * the two files, then on success one effect per iteration, in order. On
   * failure no iteration runs: `main` prints the diagnostic and returns -1.
   */
  method Run(argv: seq<string>, atoi: string -> int, atof: string -> real,
             rateLines: seq<string>, addressLines: seq<string>, inputs: seq<FaceExpressionWeights>)
    returns (r: Result<seq<TickEffect>, Exit>)
    ensures ReadMapping(rateLines, addressLines, atof).Failure? ==>
      r == Failure(Exit(-1, Diagnostic(ReadMapping(rateLines, addressLines, atof).error)))
    ensures ReadMapping(rateLines, addressLines, atof).Success? ==>
      && r.Success? && |r.value| == |inputs|
      && forall i :: 0 <= i < |inputs| ==>
           r.value[i] == TickEffectOf(ArgsConfig(argv, atoi), ReadMapping(rateLines, addressLines, atof).value, inputs[i])
  {
    var cfg := ParseArgs(argv, atoi);
    var loaded := LoadMapping(rateLines, addressLines, atof);
    if loaded.Failure? {
      return Failure(Exit(StartupFailureStatus, Diagnostic(loaded.error)));
    }
    var m := loaded.value;
    var effects: seq<TickEffect> := [];
    for i := 0 to |inputs|
      invariant |effects| == i
      invariant forall j :: 0 <= j < i ==> effects[j] == TickEffectOf(cfg, m, inputs[j])
    {
      var effect := Tick(cfg, m, inputs[i]);
      effects := effects + [effect];
    }
    r := Success(effects);
  }

  /**
   * Startup fails exactly when a file is short; the rate file is checked
   * first, so when both are short its error (with the text "No enable.txt")
   * is the one reported.
   */
  lemma StartupFailures(rateLines: seq<string>, addressLines: seq<string>, atof: string -> real)
    ensures ReadMapping(rateLines, addressLines, atof).Failure? <==>
      |rateLines| < ExpressionCount || |addressLines| < ExpressionCount
    ensures |rateLines| < ExpressionCount ==>
      ReadMapping(rateLines, addressLines, atof) == Failure(RateFileShort)
      && Diagnostic(RateFileShort) == "No enable.txt"
    ensures |rateLines| >= ExpressionCount && |addressLines| < ExpressionCount ==>
      ReadMapping(rateLines, addressLines, atof) == Failure(AddressFileShort)
      && Diagnostic(AddressFileShort) == "No address.txt"
  {
  }

  /** On success, rate[i] is atof of line i of the rate file up to its first NUL and address[i] is line i of the address file. */
  lemma MappingContents(rateLines: seq<string>, addressLines: seq<string>, atof: string -> real, i: nat)
    requires |rateLines| >= ExpressionCount && |addressLines| >= ExpressionCount
    requires i < ExpressionCount
    ensures ReadMapping(rateLines, addressLines, atof).Success?
    ensures ReadMapping(rateLines, addressLines, atof).value.rate[i] == atof(CStr(rateLines[i]))
    ensures ReadMapping(rateLines, addressLines, atof).value.address[i] == addressLines[i]
  {
  }

  /** Lines after the last needed one are ignored. */
  lemma ExtraLinesIgnored(rateLines: seq<string>, addressLines: seq<string>,
                          moreRates: seq<string>, moreAddresses: seq<string>, atof: string -> real)
    ensures ReadMapping(rateLines + moreRates, addressLines + moreAddresses, atof)
         == ReadMapping(rateLines, addressLines, atof)
    requires |rateLines| >= ExpressionCount && |addressLines| >= ExpressionCount
  {
    var a := ReadMapping(rateLines + moreRates, addressLines + moreAddresses, atof).value;
    var b := ReadMapping(rateLines, addressLines, atof).value;
    assert a.rate == b.rate by {
      forall i | 0 <= i < ExpressionCount ensures a.rate[i] == b.rate[i] {
        assert (rateLines + moreRates)[i] == rateLines[i];
      }
    }
    assert a.address == b.address by {
      forall i | 0 <= i < ExpressionCount ensures a.address[i] == b.address[i] {
        assert (addressLines + moreAddresses)[i] == addressLines[i];
      }
    }
  }

  /**
   * A valid status sends one bundle of exactly N messages in index order,
   * message i to address[i] up to its first NUL with the single argument
   * weights[i] * rate[i];
   * an invalid status sends nothing. The sleep happens either way.
   */
  lemma TickChannels(cfg: Config, m: Mapping, expr: FaceExpressionWeights)
    ensures TickEffectOf(cfg, m, expr).sent.Some? <==> expr.isValid
    ensures TickEffectOf(cfg, m, expr).sleepTime == cfg.sleepTime
    ensures expr.isValid ==>
      var d := TickEffectOf(cfg, m, expr).sent.value;
      && d.dest == Endpoint(cfg.ip, cfg.port)
      && |d.bundle| == ExpressionCount
      && forall i :: 0 <= i < ExpressionCount ==> d.bundle[i] == Message(CStr(m.address[i]), [expr.weights[i] * m.rate[i]])
  {
  }

  /** A rate of 0 silences its channel whatever the weight. */
  lemma ZeroRateSilences(cfg: Config, m: Mapping, expr: FaceExpressionWeights, i: nat)
    requires expr.isValid && i < ExpressionCount && m.rate[i] == 0.0
    ensures TickEffectOf(cfg, m, expr).sent.value.bundle[i].args == [0.0]
  {
  }

  /** No confidence thresholding: the confidences never influence what is sent. */
  lemma ConfidencesIgnored(cfg: Config, m: Mapping, expr: FaceExpressionWeights, confidences: ConfidenceVector)
    ensures TickEffectOf(cfg, m, FaceExpressionWeights(expr.weights, confidences, expr.isValid))
         == TickEffectOf(cfg, m, expr)
  {
  }
}
