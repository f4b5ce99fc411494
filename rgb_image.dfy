/**
 * The observation wrapper RGBImage: it keeps only each agent's top-down RGB
 * image, stacking the frames an agent's observation carries along the channel
 * axis, and declares the per-agent space those stacked images live in.
 */
module RgbImageWrapper {
  import opened Wrappers
  import opened NdImage

  type AgentId = string

  /** A stack count the wrapper accepts. */
  type Positive = n: int | n > 0 witness 1

  /** The RGB sensor of an agent's interface: the image size it is configured for. */
  datatype Rgb = Rgb(width: nat, height: nat)

  /** An agent's interface, reduced to what the wrapper reads: its RGB sensor, if enabled. */
  datatype AgentInterface = AgentInterface(rgb: Option<Rgb>)

  /** One sensor reading of an agent; the wrapper reads only its top-down RGB image data. */
  datatype Reading = Reading(topDownRgb: Image)

  /** What the environment gives for one agent: a single reading, or a frame-stacked sequence. */
  datatype AgentObs = Single(reading: Reading) | Stacked(readings: seq<Reading>)

  /** A box-constrained uint8 array of extent (width, height, depth) with values in [low, high]. */
  datatype BoxSpace = BoxSpace(low: int, high: int, width: nat, height: nat, depth: nat)

  /** The two assertions of construction. */
  datatype InitError =
    | MissingRgb(agent: AgentId)   // this agent's interface has no RGB sensor
    | NonPositiveStack(numStack: int)

  /** The assertion of each step, and the error `np.dstack` raises. */
  datatype ObservationError =
    | StackMismatch(expected: nat, actual: nat)   // configured stack count, frames present
    | ShapeMismatch

  predicate AllRgb(agentSpecs: map<AgentId, AgentInterface>)
  {
    forall a :: a in agentSpecs ==> agentSpecs[a].rgb.Some?
  }

  /** The observation space the wrapper declares for agents that all have an RGB sensor. */
  function DeclaredSpace(agentSpecs: map<AgentId, AgentInterface>, numStack: Positive): (space: map<AgentId, BoxSpace>)
    requires AllRgb(agentSpecs)
    ensures space.Keys == agentSpecs.Keys
    ensures forall a :: a in space ==>
              && space[a].low == 0 && space[a].high == 255
              && space[a].width == agentSpecs[a].rgb.value.width
              && space[a].height == agentSpecs[a].rgb.value.height
              && space[a].depth == 3 * numStack
  {
    map a | a in agentSpecs :: BoxSpace(0, 255, agentSpecs[a].rgb.value.width, agentSpecs[a].rgb.value.height, 3 * numStack)
  }

  /** An array lies in a box space: same extent and every value within the bounds. */
  predicate InSpace(space: BoxSpace, img: Image)
  {
    && img.width == space.width && img.height == space.height && img.depth == space.depth
    && forall i, j, k :: 0 <= i < img.width && 0 <= j < img.height && 0 <= k < img.depth ==>
         space.low <= img.px[i][j][k] <= space.high
  }

  /** The frames of an agent's observation; a single reading is a one-frame stack. */
  function Frames(o: AgentObs): (frames: seq<Reading>)
    ensures o.Single? ==> frames == [o.reading]
    ensures o.Stacked? ==> frames == o.readings
  {
    match o
    case Single(r) => [r]
    case Stacked(rs) => rs
  }

  /** Each frame's image cast to uint8, in frame order. */
  function CastImages(frames: seq<Reading>): (images: seq<Image>)
    ensures |images| == |frames|
    ensures forall n :: 0 <= n < |frames| ==> images[n] == AsUint8(frames[n].topDownRgb)
  {
    seq(|frames|, n requires 0 <= n < |frames| => AsUint8(frames[n].topDownRgb))
  }

  /**
   * What one step does to one agent's observation: refuse a frame count other
   * than numStack, otherwise stack the cast frames along the channel axis.
   */
  function StackAgent(numStack: Positive, o: AgentObs): (r: Result<Image, ObservationError>)
    ensures |Frames(o)| != numStack ==> r == Err(StackMismatch(numStack, |Frames(o)|))
    ensures r.Ok? <==> |Frames(o)| == numStack && SameExtent(CastImages(Frames(o)))
    ensures |Frames(o)| == numStack && !SameExtent(CastImages(Frames(o))) ==> r == Err(ShapeMismatch)
    // A corollary of the first clause, stated for callers: a shape error means the count matched.
    ensures r.Err? && r.error.ShapeMismatch? ==> |Frames(o)| == numStack
    ensures r.Ok? ==> forall n :: 0 <= n < |Frames(o)| ==>
              Frames(o)[n].topDownRgb.width == r.value.width && Frames(o)[n].topDownRgb.height == r.value.height
  {
    var frames := Frames(o);
    if |frames| != numStack then Err(StackMismatch(numStack, |frames|))
    else
      match DStack(CastImages(frames))
      case Ok(img) => Ok(img)
      case Err(ExtentMismatch) => Err(ShapeMismatch)
  }

  /** A single reading is processed exactly as a one-element sequence holding it. */
  lemma SingleIsOneFrameStack(numStack: Positive, r: Reading)
    ensures StackAgent(numStack, Single(r)) == StackAgent(numStack, Stacked([r]))
  {
  }

  /** Without frame stacking, a single reading yields its own image cast to uint8. */
  lemma SingleReadingUnstacked(r: Reading)
    ensures StackAgent(1, Single(r)) == Ok(AsUint8(r.topDownRgb))
  {
    assert CastImages([r]) == [AsUint8(r.topDownRgb)];
    DStackSingle(AsUint8(r.topDownRgb));
  }

  /** Every stacked value lies in 0..255. */
  lemma StackAgentInByteRange(numStack: Positive, o: AgentObs)
    requires StackAgent(numStack, o).Ok?
    ensures InByteRange(StackAgent(numStack, o).value)
  {
    var images := CastImages(Frames(o));
    forall n | 0 <= n < |images|
      ensures InByteRange(images[n])
    {
      AsUint8InRange(Frames(o)[n].topDownRgb);
    }
    DStackInRange(images);
  }

  /**
   * With three-channel frames, the stacked image has 3·numStack channels and
   * channels [3n, 3n + 3) of every pixel are frame n's, cast to uint8: the
   * frames keep the order they were given in.
   */
  lemma StackAgentRgbSlices(numStack: Positive, o: AgentObs)
    requires StackAgent(numStack, o).Ok?
    requires forall n :: 0 <= n < |Frames(o)| ==> Frames(o)[n].topDownRgb.depth == 3
    ensures StackAgent(numStack, o).value.depth == 3 * numStack
    ensures forall n, i, j ::
              0 <= n < numStack && 0 <= i < StackAgent(numStack, o).value.width && 0 <= j < StackAgent(numStack, o).value.height ==>
              StackAgent(numStack, o).value.px[i][j][3 * n .. 3 * n + 3] == AsUint8(Frames(o)[n].topDownRgb).px[i][j]
  {
    DStackRgbSlices(CastImages(Frames(o)));
  }

  /**
   * An agent whose frames all have the extent its RGB sensor is configured for,
   * with three channels, gets a stacked image inside its declared space. The
   * wrapper itself never checks this extent.
   */
  lemma StackAgentInDeclaredSpace(agentSpecs: map<AgentId, AgentInterface>, numStack: Positive, agent: AgentId, o: AgentObs)
    requires AllRgb(agentSpecs) && agent in agentSpecs
    requires StackAgent(numStack, o).Ok?
    requires forall n :: 0 <= n < |Frames(o)| ==>
               && Frames(o)[n].topDownRgb.width == agentSpecs[agent].rgb.value.width
               && Frames(o)[n].topDownRgb.height == agentSpecs[agent].rgb.value.height
               && Frames(o)[n].topDownRgb.depth == 3
    ensures InSpace(DeclaredSpace(agentSpecs, numStack)[agent], StackAgent(numStack, o).value)
  {
    StackAgentRgbSlices(numStack, o);
    StackAgentInByteRange(numStack, o);
  }

  class RGBImage {
    /** The number of frames every agent's observation must carry; never reassigned. */
    const numStack: Positive
    /** The declared per-agent observation space; never reassigned. */
    const observationSpace: map<AgentId, BoxSpace>

    constructor (agentSpecs: map<AgentId, AgentInterface>, numStack: Positive)
      requires AllRgb(agentSpecs)
      ensures this.numStack == numStack
      ensures observationSpace == DeclaredSpace(agentSpecs, numStack)
    {
      this.numStack := numStack;
      observationSpace := DeclaredSpace(agentSpecs, numStack);
    }

    /**
     * Construction: every agent's interface must have an RGB sensor (checked
     * first, agent by agent), then numStack must be positive.
     */
    static method Create(agentSpecs: map<AgentId, AgentInterface>, numStack: int) returns (r: Result<RGBImage, InitError>)
      ensures r.Ok? <==> AllRgb(agentSpecs) && numStack > 0
      ensures r.Err? && r.error.MissingRgb? ==> r.error.agent in agentSpecs && agentSpecs[r.error.agent].rgb.None?
      ensures !AllRgb(agentSpecs) ==> r.Err? && r.error.MissingRgb?
      ensures AllRgb(agentSpecs) && numStack <= 0 ==> r == Err(NonPositiveStack(numStack))
      ensures r.Ok? ==> r.value.numStack == numStack
      ensures r.Ok? ==> r.value.observationSpace == DeclaredSpace(agentSpecs, numStack)
    {
      var pending := agentSpecs.Keys;
      while pending != {}
        invariant pending <= agentSpecs.Keys
        invariant forall a :: a in agentSpecs && a !in pending ==> agentSpecs[a].rgb.Some?
        decreases pending
      {
        var agent :| agent in pending;
        if agentSpecs[agent].rgb.None? {
          return Err(MissingRgb(agent));
        }
        pending := pending - {agent};
      }
      if numStack <= 0 {
        return Err(NonPositiveStack(numStack));
      }
      var wrapper := new RGBImage(agentSpecs, numStack);
      return Ok(wrapper);
    }

    /**
     * One step: stack every agent's frames. Fails when some agent's frame
     * count differs from numStack (or its frames cannot be stacked); otherwise
     * maps exactly the agents of the observation to their stacked images.
     */
    method Observation(obs: map<AgentId, AgentObs>) returns (r: Result<map<AgentId, Image>, ObservationError>)
      ensures r.Ok? <==> forall a :: a in obs ==> StackAgent(numStack, obs[a]).Ok?
      ensures r.Ok? ==> r.value.Keys == obs.Keys
      ensures r.Ok? ==> forall a :: a in obs ==> StackAgent(numStack, obs[a]) == Ok(r.value[a])
      ensures r.Err? ==> exists a :: a in obs && StackAgent(numStack, obs[a]) == Err(r.error)
    {
      var wrapped: map<AgentId, Image> := map[];
      var pending := obs.Keys;
      while pending != {}
        invariant pending <= obs.Keys
        invariant wrapped.Keys == obs.Keys - pending
        invariant forall a :: a in wrapped ==> StackAgent(numStack, obs[a]) == Ok(wrapped[a])
        decreases pending
      {
        var agent :| agent in pending;
        var frames: seq<Reading>;
        match obs[agent] {
          case Stacked(rs) => frames := rs;
          case Single(reading) => frames := [reading];
        }
        assert frames == Frames(obs[agent]);
        var trueNumStack := |frames|;
        if numStack != trueNumStack {
          return Err(StackMismatch(numStack, trueNumStack));
        }
        var images: seq<Image> := [];
        for k := 0 to |frames|
          invariant |images| == k
          invariant forall n :: 0 <= n < k ==> images[n] == AsUint8(frames[n].topDownRgb)
        {
          images := images + [AsUint8(frames[k].topDownRgb)];
        }
        assert images == CastImages(frames);
        var stacked := DStack(images);
        if stacked.Err? {
          return Err(ShapeMismatch);
        }
        assert StackAgent(numStack, obs[agent]) == Ok(stacked.value);
        wrapped := wrapped[agent := stacked.value];
        pending := pending - {agent};
      }
      return Ok(wrapped);
    }
  }
}
