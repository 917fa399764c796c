/**
 * EyeTracker/main.cpp: parses destination and period from the command line,
 * then every iteration sends one bundle with the averaged eyelid closure and
 * the four gaze angles, and sleeps.
 */
module EyeTracker {
  import opened Wrappers
  import opened OpenXr
  import opened Orientation
  import opened Osc
  import opened Arguments
  import opened EyeLocals

  /** The bundle built from the values of the locals. */
  function Bundle(v: LocalValues): seq<Message> {
    [ Message(EyesClosedAmountAddress, [(v.closedL + v.closedR) / 2.0]),
      Message(PitchYawAddress, [v.leftPitch, v.leftYaw, v.rightPitch, v.rightYaw]) ]
  }

  /** Specification of one iteration of the `while (1)` loop. */
  function TickEffectOf(cfg: Config, input: TickInput, trig: Trig): TickEffect {
    var values := ReadLocals(AssignedLocals(input.gazes, input.expr, trig), input.junk);
    TickEffect(Some(Datagram(Endpoint(cfg.ip, cfg.port), Bundle(values))), cfg.sleepTime)
  }

  /** One iteration: gate the locals, stream the bundle, send it, sleep. */
  method Tick(cfg: Config, input: TickInput, trig: Trig) returns (effect: TickEffect)
    ensures effect == TickEffectOf(cfg, input, trig)
  {
    var locals := AssignLocals(input.gazes, input.expr, trig);
    var v := ReadLocals(locals, input.junk);
    var p := new PacketStream();
    p.BeginBundleImmediate();
    p.BeginMessage(EyesClosedAmountAddress);
    p.PushFloat((v.closedL + v.closedR) / 2.0);
    assert p.args == Bundle(v)[0].args;
    p.EndMessage();
    p.BeginMessage(PitchYawAddress);
    p.PushFloat(v.leftPitch);
    p.PushFloat(v.leftYaw);
    p.PushFloat(v.rightPitch);
    p.PushFloat(v.rightYaw);
    assert p.args == Bundle(v)[1].args;
    p.EndMessage();
    p.EndBundle();
    assert p.elements == Bundle(v);
    effect := TickEffect(Some(Datagram(Endpoint(cfg.ip, cfg.port), p.elements)), cfg.sleepTime);
  }

  /**
   * `main` from the argument switch on, with the endless loop cut to the
   * given iterations: each iteration yields its own effect, in order.
   */
  method Run(argv: seq<string>, atoi: string -> int, trig: Trig, inputs: seq<TickInput>)
    returns (effects: seq<TickEffect>)
    ensures |effects| == |inputs|
    ensures forall i :: 0 <= i < |inputs| ==> effects[i] == TickEffectOf(ArgsConfig(argv, atoi), inputs[i], trig)
  {
    var cfg := ParseArgs(argv, atoi);
    effects := [];
    var i := 0;
    while i < |inputs|
      invariant 0 <= i <= |inputs|
      invariant |effects| == i
      invariant forall j :: 0 <= j < i ==> effects[j] == TickEffectOf(cfg, inputs[j], trig)
    {
      var effect := Tick(cfg, inputs[i], trig);
      effects := effects + [effect];
      i := i + 1;
    }
  }

  /**
   * Every iteration sends exactly one bundle to the configured endpoint,
   * whatever the validity flags: first EyesClosedAmount with one argument,
   * then LeftRightPitchYaw with four; then it sleeps for the configured time.
   */
  lemma OneBundleEveryTick(cfg: Config, input: TickInput, trig: Trig)
    ensures var e := TickEffectOf(cfg, input, trig);
      && e.sent.Some?
      && e.sent.value.dest == Endpoint(cfg.ip, cfg.port)
      && e.sleepTime == cfg.sleepTime
      && |e.sent.value.bundle| == 2
      && e.sent.value.bundle[0].address == "/tracking/eye/EyesClosedAmount"
      && |e.sent.value.bundle[0].args| == 1
      && e.sent.value.bundle[1].address == "/tracking/eye/LeftRightPitchYaw"
      && |e.sent.value.bundle[1].args| == 4
  {
  }

  /** A valid expression status makes the first argument the mean of the two eyelid weights. */
  lemma EyesClosedIsMean(cfg: Config, input: TickInput, trig: Trig)
    requires input.expr.isValid
    ensures TickEffectOf(cfg, input, trig).sent.value.bundle[0].args
         == [(input.expr.weights[EyesClosedL] + input.expr.weights[EyesClosedR]) / 2.0]
  {
  }

  /**
   * A valid left gaze makes the four arguments leftPitch, leftYaw, rightPitch,
   * rightYaw, each a negated `euler` component in degrees; the right gaze's
   * flag plays no part.
   */
  lemma PitchYawOrder(cfg: Config, input: TickInput, trig: Trig)
    requires input.gazes.left.isValid
    ensures var l := Euler(input.gazes.left.orientation, trig);
      var r := Euler(input.gazes.right.orientation, trig);
      TickEffectOf(cfg, input, trig).sent.value.bundle[1].args
        == [NegatedDegrees(l.x), NegatedDegrees(l.y), NegatedDegrees(r.x), NegatedDegrees(r.y)]
  {
  }

  /**
   * An invalid left gaze leaves the angle locals unassigned: the bundle
   * carries whatever they held, whatever the orientations were.
   */
  lemma InvalidGazeSendsIndeterminate(cfg: Config, input: TickInput, trig: Trig)
    requires !input.gazes.left.isValid
    ensures TickEffectOf(cfg, input, trig).sent.value.bundle[1].args
         == [input.junk.leftPitch, input.junk.leftYaw, input.junk.rightPitch, input.junk.rightYaw]
  {
  }

  /**
   * An invalid expression status leaves the eyelid locals unassigned; the
   * pitch-yaw message still reflects a valid gaze.
   */
  lemma InvalidExpressionKeepsGaze(cfg: Config, input: TickInput, trig: Trig, other: FaceExpressionWeights)
    requires !input.expr.isValid
    ensures TickEffectOf(cfg, input, trig).sent.value.bundle[0].args
         == [(input.junk.closedL + input.junk.closedR) / 2.0]
    ensures TickEffectOf(cfg, input, trig).sent.value.bundle[1]
         == TickEffectOf(cfg, TickInput(input.gazes, other, input.junk), trig).sent.value.bundle[1]
  {
  }

  /** Identity orientations with a valid left gaze put [0, 0, 0, 0] in LeftRightPitchYaw. */
  lemma IdentityGazeScenario(cfg: Config, expr: FaceExpressionWeights, junk: LocalValues, trig: Trig, rightValid: bool)
    requires trig.atan2(0.0, 1.0) == 0.0 && trig.asin(0.0) == 0.0
    ensures TickEffectOf(cfg, TickInput(IdentityGazes(rightValid), expr, junk), trig).sent.value.bundle[1].args
         == [0.0, 0.0, 0.0, 0.0]
  {
  }
}
