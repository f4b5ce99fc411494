# RGBImage observation wrapper, modelled in Dafny

SMARTS's `RGBImage` wrapper turns a multi-agent environment's observations
into images for a learning agent. Each agent's observation is reduced to its
top-down RGB image. When the environment stacks frames, the frames' images are
concatenated along the channel axis, oldest first. The result for each agent
is a uint8 array of extent (width, height, 3 · num_stack) when every frame is a
(width, height, 3) image; the wrapper does not check this. At construction the
wrapper checks that every agent's interface has an RGB sensor and that
`num_stack` is positive. It then declares the observation space: per agent, a
box of uint8 values in [0, 255] with that extent.

The project has three modules:

- `Wrappers` (`wrappers.dfy`): `Option` and `Result`, the latter standing for the
  assertions the wrapper raises.
- `NdImage` (`nd_image.dfy`): the NumPy operations the wrapper relies on, on
  rank-3 integer arrays (`Image`, a rectangular nested sequence read as
  `px[i][j][k]`). These are `astype(np.uint8)` (`ToUint8`, `AsUint8`) and
  `np.dstack` (`DStack`, which refuses arrays whose first two extents differ).
  Lemmas give the channel layout of a stack and the uint8 range of its values.
- `RgbImageWrapper` (`rgb_image.dfy`): the class `RGBImage`. `Create` runs the
  construction checks with a loop over the agent specs and then calls the
  constructor, which sets the two fields. `numStack` and `observationSpace` are
  `const`, so no method can change them after construction. `Observation` is
  the per-step transform, with the source's two nested loops. It is proved
  against `StackAgent`, a function giving what one step does to one agent's
  observation. Lemmas about `StackAgent` state the single-reading rule, the
  channel slices, the byte range and agreement with the declared space.

Agent specs and observations are Dafny maps. Python dicts iterate in insertion
order, but the model's loops take the agents in an unspecified order. So when
several agents fail, the model promises only that the error reported is the
error of one of them.

## Model

| member | source | states |
|---|---|---|
| `RgbImageWrapper.RGBImage.Create` | smarts/env/wrappers/rgb_image.py:40-72 | Construction succeeds exactly when every agent spec has an RGB sensor and num_stack > 0. A missing sensor is reported first, naming an agent without one. Otherwise a non-positive num_stack is reported. On success the wrapper holds num_stack and the declared space. |
| `RgbImageWrapper.RGBImage.constructor` | smarts/env/wrappers/rgb_image.py:56-72 | The stored stack count is the argument and the space is the declared one; both fields are immutable. |
| `RgbImageWrapper.DeclaredSpace` | smarts/env/wrappers/rgb_image.py:58-72 | One entry per agent-spec key, each with bounds [0, 255] and extent (rgb.width, rgb.height, 3·num_stack). |
| `RgbImageWrapper.RGBImage.Observation` | smarts/env/wrappers/rgb_image.py:74-99 | Succeeds iff every agent's observation can be stacked. On success the output keys are the observation's keys, not the agent specs', and each value is that agent's stacked image. On failure the error is that of some agent in the observation. |
| `RgbImageWrapper.Frames` | smarts/env/wrappers/rgb_image.py:77-81 | A single reading becomes a one-frame list; a stacked observation keeps its frames in order. |
| `RgbImageWrapper.CastImages` | smarts/env/wrappers/rgb_image.py:89-96 | One image per frame, in frame order, each the frame's top-down image cast to uint8. |
| `RgbImageWrapper.StackAgent` | smarts/env/wrappers/rgb_image.py:77-98 | A frame count other than num_stack fails with (num_stack, count); a matching count with cast frames of differing width or height fails with a shape error. It succeeds iff the count matches and the cast frames share width and height. A successful result has the frames' width and height. |
| `RgbImageWrapper.SingleIsOneFrameStack` | smarts/env/wrappers/rgb_image.py:77-81 | A non-sequence reading is processed exactly as a one-element sequence holding it. |
| `RgbImageWrapper.SingleReadingUnstacked` | smarts/env/wrappers/rgb_image.py:77-98 | With num_stack = 1, a single reading yields its own image cast to uint8. |
| `RgbImageWrapper.StackAgentInByteRange` | smarts/env/wrappers/rgb_image.py:96-98 | Every value of a stacked image lies in 0..255. |
| `RgbImageWrapper.StackAgentRgbSlices` | smarts/env/wrappers/rgb_image.py:89-98 | With three-channel frames, the stacked image has 3·num_stack channels, and channels [3n, 3n+3) of every pixel are frame n's (cast). Frames stay oldest to newest, as given. |
| `RgbImageWrapper.StackAgentInDeclaredSpace` | smarts/env/wrappers/rgb_image.py:34-37 | If an agent's frames have its sensor's width and height and three channels, its stacked image lies inside its declared space. The wrapper never checks this extent itself. |
| `NdImage.ToUint8` | smarts/env/wrappers/rgb_image.py:96 | The cast yields a value in 0..255, congruent to the input modulo 256, and equal to the input when it is already in 0..255. |
| `NdImage.AsUint8` | smarts/env/wrappers/rgb_image.py:96 | Same extent as the input; every element is ToUint8 of the input's element. |
| `NdImage.AsUint8InRange` | smarts/env/wrappers/rgb_image.py:96 | Every value of a cast image lies in 0..255. |
| `NdImage.AsUint8KeepsBytes` | smarts/env/wrappers/rgb_image.py:96 | Casting an image whose values are already in 0..255 leaves it unchanged. |
| `NdImage.Channels` | smarts/env/wrappers/rgb_image.py:98 | A pixel's stacked channel list is as long as the sum of the images' depths. |
| `NdImage.DStack` | smarts/env/wrappers/rgb_image.py:98 | Stacking succeeds iff all images share the first image's width and height. The result has that width and height, and depth equal to the sum of the images' depths. |
| `NdImage.ChannelsSlice` | smarts/env/wrappers/rgb_image.py:98 | Image n occupies channels [depth of images before n, that plus its own depth) of every pixel of the stack. |
| `NdImage.DepthOfRgb` | smarts/env/wrappers/rgb_image.py:34-37 | A list of three-channel images has total depth 3 times its length. |
| `NdImage.DStackRgbSlices` | smarts/env/wrappers/rgb_image.py:89-98 | Stacking three-channel images gives 3·count channels, and channels [3n, 3n+3) are image n's. |
| `NdImage.ChannelsInRange` | smarts/env/wrappers/rgb_image.py:96-98 | Stacking uint8-valued images gives channel values in 0..255. |
| `NdImage.DStackInRange` | smarts/env/wrappers/rgb_image.py:96-98 | A stack of uint8-valued images is uint8-valued. |
| `NdImage.DStackSingle` | smarts/env/wrappers/rgb_image.py:98 | Stacking one image gives that image back. |

## Left out

- The debug plotting block and its `print` (smarts/env/wrappers/rgb_image.py:101-116). They are blocking GUI output on every step and change nothing in the result. One failure path of that block is not modelled: `plt.imshow` rejects a channel slice with 0 or 2 channels (for example 1-channel frames with num_stack = 2), so the source then raises where `Observation` returns Ok.
- The commented-out colour replacement and second plotting block (lines 92-95, 118-123). They are not executed.
- `gym.ObservationWrapper` construction and the `gym.spaces.Dict`/`Box` objects. They are library code; the space is the record `BoxSpace(low, high, width, height, depth)` and the dict of spaces is a Dafny map.
- The wrapped environment: `Create` takes `env.agent_specs` directly, reduced to each interface's optional RGB sensor (width and height).
- `astype(np.uint8)` of floating-point data. Only integer images are modelled; for them the cast keeps the low eight bits.
- Python's `isinstance(agent_obs, Sequence)` test. A single reading and a sequence of readings are two variants of `AgentObs`.
- `np.dstack` on arrays of rank other than 3, which NumPy promotes to rank 3 when the rank is lower, and concatenates along axis 2 unchanged when it is higher. Frame images are modelled as rank-3 arrays of any extent. Nothing assumes they have the sensor's width and height or three channels, since the wrapper never checks that.
- The order of dict iteration. `Create` and `Observation` visit agents in an unspecified order. When several agents fail, the error reported may name a different agent than the Python code, which takes the first in insertion order.
- Python's `-O` flag, which strips `assert` statements. The model keeps both assertions as errors.
- examples/intersection/setup.py: a packaging manifest with no behaviour of its own.
