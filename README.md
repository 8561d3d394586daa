# TNM046 matrix and frame-rate utilities

A model of the utility library used by the TNM046 computer-graphics labs
(`Labs/Lab2/GLprimer/Utilities.cpp`). The library has three parts:

- **4x4 matrix product** (`mat4mult`). Matrices are `std::array<float, 16>`
  in column-major order: the entry in row r, column c is at index `4*c + r`.
  This is the layout OpenGL reads for an untransposed matrix uniform
  (section 2.11.4 of the OpenGL 3.3 Core Profile specification).
  `mat4.dfy` (module `Mat4`) has the method `Mat4Mult`. It keeps the
  library's three nested loops over a zero-initialised 16-entry array, and
  it is proved against `Product`, the product of the same numbers read as
  four columns. The identity laws, associativity and the action on vectors
  are proved about `Product`.
- **Rotations** (`mat4rotx`, `mat4roty`, `mat4rotz`). Each returns a literal
  array built from `cosf(angle)` and `sinf(angle)`. In `rotation.dfy`
  (module `Rotation`), each is a function of the two values `c` and `s`.
  - Each rotation's action on a vector is proved.
  - Two rotations about the same axis compose by the angle-sum formulas.
  - Rotating by the opposite angle undoes a rotation when `c*c + s*s == 1`.
  - `mat4rotz` as written stores 0 in its last entry; see Findings.
- **Frame-rate counter** (`displayFPS`). It is called once per frame and
  keeps three statics: the frames counted, the last rate and the time of
  the last measurement.
  - Once a second has passed since that time, the rate is measured again
    as frames / elapsed time.
  - The window title is rewritten whenever the count is zero.
  - Each call then counts its own frame and returns the rate.

  In `fps.dfy` (module `FrameRate`), class `FpsCounter` holds the statics
  as fields. Its method `Tick(t)` takes the clock reading and returns the
  rate and whether the title is rewritten. It is proved against the pure
  step function `Step`, and the properties of a call and of a run of calls
  are lemmas about `Step` and `Run`.

Numbers are `real`, so the algebra holds exactly where the library's
floats only approximate it.

## Model

| member | source | states |
|---|---|---|
| Mat4.Mat4Mult | Labs/Lab2/GLprimer/Utilities.cpp:55-67 | The returned array, read column-major, is the product of the two inputs read column-major. The loop invariants say entries not yet reached are still 0 and finished entries are never written again. |
| Mat4.DotComplete | Labs/Lab2/GLprimer/Utilities.cpp:60-62 | The inner loop's four accumulated terms `m1[4*k+j] * m2[4*i+k]` add up to row j, column i of the product. |
| Mat4.Columns | Labs/Lab2/GLprimer/Utilities.cpp:46-53 | Row r, column c of the matrix an array holds is array index `4*c + r`, the layout mat4print prints. |
| Mat4.FlattenAt | Labs/Lab2/GLprimer/Utilities.cpp:46-53 | Writing a matrix out puts row r, column c at index `4*c + r`. |
| Mat4.FlattenColumns | Labs/Lab2/GLprimer/Utilities.cpp:46-53 | Reading an array as a matrix and writing it back gives the same array. |
| Mat4.ColumnsFlatten | Labs/Lab2/GLprimer/Utilities.cpp:46-53 | Writing a matrix out and reading it back gives the same matrix. |
| Mat4.ColumnsInjective | Labs/Lab2/GLprimer/Utilities.cpp:46-53 | Two arrays that hold the same matrix are equal, so Mat4Mult's result is fully determined. |
| Mat4.LeftIdentity | Labs/Lab2/GLprimer/Utilities.hpp:33 | Identity times m is m. |
| Mat4.RightIdentity | Labs/Lab2/GLprimer/Utilities.hpp:33 | m times identity is m. |
| Mat4.ApplyProduct | Labs/Lab2/GLprimer/Utilities.cpp:55-67 | Applying a*b to a vector applies b first, then a. |
| Mat4.Associative | Labs/Lab2/GLprimer/Utilities.cpp:55-67 | (a*b)*c == a*(b*c), so a chain of transforms such as `V * (R_orbit * (T * R_spin))` in GLprimer.cpp may be grouped either way. |
| Mat4.AffineProduct | Labs/Lab2/GLprimer/Utilities.cpp:55-67 | The product of two matrices whose last row is (0, 0, 0, 1) has that last row too. |
| Rotation.RotXApply | Labs/Lab2/GLprimer/Utilities.cpp:69-76 | mat4rotx maps (x, y, z, w) to (x, c*y - s*z, s*y + c*z, w): the x axis and w are fixed and y turns towards z. |
| Rotation.RotYApply | Labs/Lab2/GLprimer/Utilities.cpp:78-85 | mat4roty maps (x, y, z, w) to (c*x + s*z, y, c*z - s*x, w): the y axis and w are fixed and z turns towards x. |
| Rotation.RotZApply | Labs/Lab2/GLprimer/Utilities.cpp:87-94 | mat4rotz as written maps (x, y, z, w) to (c*x - s*y, s*x + c*y, z, 0): x turns towards y, and w is always lost. |
| Rotation.RotZAffineApply | Labs/Lab2/GLprimer/Utilities.cpp:87-94 | With entry 15 set to 1, the z rotation maps (x, y, z, w) to (c*x - s*y, s*x + c*y, z, w). |
| Rotation.Affinity | Labs/Lab2/GLprimer/Utilities.cpp:69-94 | The x and y rotations and the corrected z rotation have last row (0, 0, 0, 1); mat4rotz as written does not. |
| Rotation.ZeroAngle | Labs/Lab2/GLprimer/Utilities.cpp:69-94 | At angle 0 (c = 1, s = 0) the x, y and corrected z rotations are the identity; mat4rotz as written is not. |
| Rotation.RotXCompose | Labs/Lab2/GLprimer/Utilities.cpp:69-76 | rotx(c1, s1) * rotx(c2, s2) is rotx of the summed angle, (c1*c2 - s1*s2, s1*c2 + c1*s2). |
| Rotation.RotYCompose | Labs/Lab2/GLprimer/Utilities.cpp:78-85 | roty(c1, s1) * roty(c2, s2) is roty of the summed angle. |
| Rotation.RotZAffineCompose | Labs/Lab2/GLprimer/Utilities.cpp:87-94 | Two corrected z rotations compose to the corrected z rotation of the summed angle. |
| Rotation.RotXInverse | Labs/Lab2/GLprimer/Utilities.cpp:69-76 | When c*c + s*s == 1, rotx(c, s) and rotx(c, -s) multiply to the identity in both orders. |
| Rotation.RotYInverse | Labs/Lab2/GLprimer/Utilities.cpp:78-85 | When c*c + s*s == 1, roty(c, s) and roty(c, -s) multiply to the identity in both orders. |
| Rotation.RotZAffineInverse | Labs/Lab2/GLprimer/Utilities.cpp:87-94 | When c*c + s*s == 1, the corrected z rotations of opposite angles multiply to the identity in both orders. |
| Rotation.RotZSingular | Labs/Lab2/GLprimer/Utilities.cpp:87-94 | For every c, s and every matrix m, neither m * rotz(c, s) nor rotz(c, s) * m is the identity: mat4rotz as written can never be undone. |
| FrameRate.FpsCounter.constructor | Labs/Lab2/GLprimer/Utilities.cpp:19-22 | The statics start as 0 frames, rate 0 and measurement time equal to the first clock reading. |
| FrameRate.FpsCounter.Tick | Labs/Lab2/GLprimer/Utilities.cpp:18-44 | One call at clock reading t. The new statics are `Step(old, t)`, the result is the new rate, and the title flag is `Retitles(old, t)`. |
| FrameRate.StepMeasures | Labs/Lab2/GLprimer/Utilities.cpp:27-31 | A call keeps the rate non-negative and leaves a count of at least 1. When a second has passed, the measurement time becomes t. The new rate times the elapsed time equals the frames counted, so the rate never exceeds that count. |
| FrameRate.MeasuredRate | Labs/Lab2/GLprimer/Utilities.cpp:27-30 | The frames already counted, then calls within the second, then a call at t at least a second later. The rate is their number divided by t minus the last measurement time, and t becomes the new measurement time. |
| FrameRate.RunWithinSecond | Labs/Lab2/GLprimer/Utilities.cpp:26-31 | Calls that all come less than a second after the last measurement only add one frame each; rate and measurement time are unchanged. |
| FrameRate.RunValid | Labs/Lab2/GLprimer/Utilities.cpp:27-31 | Any run of calls keeps the rate non-negative. |
| FrameRate.RunCounts | Labs/Lab2/GLprimer/Utilities.cpp:42 | After at least one call the count is at least 1. |
| FrameRate.FirstCallRetitles | Labs/Lab2/GLprimer/Utilities.cpp:34 | The first call always rewrites the title, whatever the clock reads. |
| FrameRate.RetitleOnlyOnMeasure | Labs/Lab2/GLprimer/Utilities.cpp:27-34 | Once a frame has been counted, a call rewrites the title exactly when it measures the rate again. |
| FrameRate.FrameTimeMs | Labs/Lab2/GLprimer/Utilities.cpp:37 | With a positive rate, the milliseconds per frame are positive and times the rate give 1000; otherwise they are 0. |

## Left out

- Floating point: the library computes in IEEE `float` and `double`. The model uses exact reals, so it does not capture rounding.
- `cosf` and `sinf`: the rotations take the cosine `c` and sine `s` as parameters. Facts that need a true angle assume `c*c + s*s == 1`.
- `mat4print` prints a matrix to the console. Only the layout it shows is used, as `Mat4.Columns`.
- `mat4indentity`, `mat4scale` and `mat4translate` are declared in `Utilities.hpp`, but their bodies are not part of this model. `Mat4.Identity` is the identity matrix, used only to state the lemmas.
- GLprimer.cpp (window setup, buffers, shaders, the render loop) is not part of this model.
- The GLFW calls in displayFPS are outside the model:
  - the clock `glfwGetTime` is the parameter of `Tick` and of the constructor;
  - the title text (`snprintf`) and `glfwSetWindowTitle` become the returned `retitle` flag;
  - only the milliseconds value shown in the title is modelled, as `FrameRate.FrameTimeMs`.
- FrameRate.FpsCounter.Tick: `frames` is an unbounded `nat`. The C `int` would overflow after 2^31 - 1 frames without a measurement, and the model does not capture that.
- FrameRate.FpsCounter.constructor: the statics are initialised on the first call, from a clock reading taken just before the call's own reading. The model writes this as constructing the counter with that first reading. The statics are shared by every caller, and the header warns against using them for more than one window; an `FpsCounter` object stands for that single shared set.
- Mat4.Mat4Mult: the inputs are values (`std::array` is copied or read through a const reference and never changed). The local `results` array is a Dafny `array<real>`.

## Findings

| source | as written | input that shows it | evidently intended | confidence | as-written member | corrected member |
|---|---|---|---|---|---|---|
| Labs/Lab2/GLprimer/Utilities.cpp:92 | The last entry of mat4rotz (row 3, column 3) is `0.0f`, so the matrix maps every point to w = 0 and has no inverse. | Angle 0: mat4rotz(0) is not the identity. It maps the point (1, 0, 0, 1) to (1, 0, 0, 0), a direction rather than a point. | The last entry is `1.0f`, as in mat4rotx and mat4roty. The z rotation then fixes w, and the opposite angle undoes it. | high; not executed | Rotation.RotZSingular | Rotation.RotZAffineInverse |
