/**
 * src/main.cpp: a third eye-tracking program. No command-line
 * arguments: the destination is 127.0.0.1:9000 and the period 33 ms. Every
 * iteration sends the eyelid SUM and the four gaze angles.
 */
module Standalone {
  import opened Wrappers
  import opened OpenXr
  import opened Orientation
  import opened Osc
  import opened EyeLocals

  const Destination: Endpoint := Endpoint("127.0.0.1", 9000)
  const SleepTime: int := 33

  /** The bundle built from the values of the locals. */
  function Bundle(v: LocalValues): seq<Message> {
    [ Message(EyesClosedAmountAddress, [v.closedL + v.closedR]),
      Message(PitchYawAddress, [v.leftPitch, v.leftYaw, v.rightPitch, v.rightYaw]) ]
  }

  /** Specification of one iteration of the `while (1)` loop. */
  function TickEffectOf(input: TickInput, trig: Trig): TickEffect {
    var values := ReadLocals(AssignedLocals(input.gazes, input.expr, trig), input.junk);
    TickEffect(Some(Datagram(Destination, Bundle(values))), SleepTime)
  }

  /** One iteration: gate the locals, stream the bundle, send it, sleep 33 ms. */
  method Tick(input: TickInput, trig: Trig) returns (effect: TickEffect)
    ensures effect == TickEffectOf(input, trig)
  {
    var locals := AssignLocals(input.gazes, input.expr, trig);
    var v := ReadLocals(locals, input.junk);
    var p := new PacketStream();
    p.BeginBundleImmediate();
    p.BeginMessage(EyesClosedAmountAddress);
    p.PushFloat(v.closedL + v.closedR);
    assert p.args == Bundle(v)[0].args;
    p.EndMessage();
    p.BeginMessage(PitchYawAddress);
    p.PushFloat(v.leftPitch);
    p.PushFloat(v.leftYaw);
    p.PushFloat(v.rightPitch);
    p.PushFloat(v.rightYaw);
    assert p.args == Bundle(v)[1].args;
    p.EndMessage();
    p.EndBundle();
    assert p.elements == Bundle(v);
    effect := TickEffect(Some(Datagram(Destination, p.elements)), SleepTime);
  }

  /** `main` from the socket on, with the endless loop cut to the given iterations. */
  method Run(trig: Trig, inputs: seq<TickInput>) returns (effects: seq<TickEffect>)
    ensures |effects| == |inputs|
    ensures forall i :: 0 <= i < |inputs| ==> effects[i] == TickEffectOf(inputs[i], trig)
  {
    effects := [];
    var i := 0;
    while i < |inputs|
      invariant 0 <= i <= |inputs|
      invariant |effects| == i
      invariant forall j :: 0 <= j < i ==> effects[j] == TickEffectOf(inputs[j], trig)
    {
      var effect := Tick(inputs[i], trig);
      effects := effects + [effect];
      i := i + 1;
    }
  }

  /**
   * Every iteration sends the same two-message bundle (one argument, then
   * four) to 127.0.0.1:9000 and sleeps 33 ms, whatever the validity flags.
   */
  lemma FixedDestinationAndShape(input: TickInput, trig: Trig)
    ensures var e := TickEffectOf(input, trig);
      && e.sent.Some?
      && e.sent.value.dest == Endpoint("127.0.0.1", 9000)
      && e.sleepTime == 33
      && |e.sent.value.bundle| == 2
      && e.sent.value.bundle[0].address == "/tracking/eye/EyesClosedAmount"
      && |e.sent.value.bundle[0].args| == 1
      && e.sent.value.bundle[1].address == "/tracking/eye/LeftRightPitchYaw"
      && |e.sent.value.bundle[1].args| == 4
  {
  }

  /** A valid expression status makes the first argument the SUM of the two eyelid weights. */
  lemma EyesClosedIsSum(input: TickInput, trig: Trig)
    requires input.expr.isValid
    ensures TickEffectOf(input, trig).sent.value.bundle[0].args
         == [input.expr.weights[EyesClosedL] + input.expr.weights[EyesClosedR]]
  {
  }
}
