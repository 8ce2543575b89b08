/**
  The bloom pass of the frame loop: `amount` Gaussian-blur passes that
  alternate between two ping-pong framebuffers, and the composite that
  then samples the last blurred image (or, with bloom off, the unblurred
  bright image).
 */
module Bloom {

  /** A colour attachment: `colorBuffers[1]` (the bright part of the scene) or `pingpongColorbuffers[i]`. */
  datatype Buffer = BrightScene | PingPong(index: nat)

  /** One blur pass: the buffer it renders into, its `horizontal` uniform and the texture it samples. */
  datatype Pass = Pass(target: nat, horizontal: bool, source: Buffer)

  /** The number of blur passes per frame. */
  const BlurAmount: nat := 14

  /** `pingpongFBO[horizontal]`: pass `i` renders into buffer 1 when `i` is even, 0 when odd. */
  function TargetOf(i: nat): (b: nat)
    ensures b < 2
  {
    if i % 2 == 0 then 1 else 0
  }

  /** The first pass samples the scene; every later pass samples what the pass before it wrote. */
  function SourceOf(i: nat): Buffer {
    if i == 0 then BrightScene else PingPong(TargetOf(i - 1))
  }

  /** The index of a boolean, as C++ converts `bool` to `unsigned int`. */
  function Index(b: bool): (i: nat)
    ensures i < 2
  {
    if b then 1 else 0
  }

  /**
    The blur loop as written: `horizontal` and `first_iteration` start true;
    each pass renders into `pingpongFBO[horizontal]`, samples `colorBuffers[1]`
    on the first iteration and `pingpongColorbuffers[!horizontal]` after it,
    then flips `horizontal`.
   */
  method BlurPasses(amount: nat) returns (passes: seq<Pass>, horizontal: bool)
    ensures |passes| == amount
    ensures forall i :: 0 <= i < amount ==> passes[i] == Pass(TargetOf(i), i % 2 == 0, SourceOf(i))
    ensures horizontal <==> amount % 2 == 0
  {
    horizontal := true;
    var firstIteration := true;
    passes := [];
    var i := 0;
    while i < amount
      invariant 0 <= i <= amount
      invariant |passes| == i
      invariant horizontal <==> i % 2 == 0
      invariant firstIteration <==> i == 0
      invariant forall j :: 0 <= j < i ==> passes[j] == Pass(TargetOf(j), j % 2 == 0, SourceOf(j))
    {
      var source := if firstIteration then BrightScene else PingPong(Index(!horizontal));
      passes := passes + [Pass(Index(horizontal), horizontal, source)];
      horizontal := !horizontal;
      if firstIteration {
        firstIteration := false;
      }
      i := i + 1;
    }
  }

  /** The texture the composite samples for the bloom layer: `pingpongColorbuffers[!horizontal]`, or the scene with bloom off. */
  function CompositeSource(bloom: bool, horizontal: bool): Buffer {
    if bloom then PingPong(Index(!horizontal)) else BrightScene
  }

  /** No pass samples the buffer it renders into. */
  lemma PassNeverReadsItsTarget(i: nat)
    ensures SourceOf(i) != PingPong(TargetOf(i))
  {
  }

  /**
    After at least one pass, the composite samples exactly the buffer the
    last pass wrote; so it does for the program's 14 passes.
   */
  method BlurredComposite(amount: nat) returns (passes: seq<Pass>, composite: Buffer)
    requires 0 < amount
    ensures |passes| == amount
    ensures forall i :: 0 <= i < amount ==> passes[i] == Pass(TargetOf(i), i % 2 == 0, SourceOf(i))
    ensures composite == PingPong(passes[amount - 1].target)
  {
    var horizontal;
    passes, horizontal := BlurPasses(amount);
    composite := CompositeSource(true, horizontal);
  }

  /** With bloom off no pass runs and the composite samples the unblurred bright scene. */
  lemma BloomOffSamplesScene(horizontal: bool)
    ensures CompositeSource(false, horizontal) == BrightScene
  {
  }

  /** The program's own pass count ends with `horizontal` true, so the composite samples buffer 0. */
  method ProgramComposite() returns (composite: Buffer)
    ensures composite == PingPong(TargetOf(BlurAmount - 1)) && composite == PingPong(0)
  {
    var passes;
    passes, composite := BlurredComposite(BlurAmount);
  }
}
