# shaderun, modelled in Dafny

shaderun previews a Shadertoy-style fragment shader. It takes the path of a
GLSL file that defines `mainImage`, prepends a fixed preamble that declares
the Shadertoy uniforms and a `main` calling `mainImage`, compiles it with a
fixed pass-through vertex stage, and draws a full-screen quad every frame.
Each frame it uploads the time, the time since the last frame, the frame
number, the framebuffer size and the cursor position.

The model has four modules, one per piece of behaviour:

- `ShaderSource` (`shader_source.dfy`) holds the two GLSL texts of
  `shaderun.h`. Each text is a list of lines joined with newlines, plus a
  line-level reading of which uniforms a text declares: a line of the form
  `uniform <type> <name>;`. The module proves the preamble's layout. It
  declares exactly five uniforms, and `iKeyInput` is not one of them. It
  declares and calls `mainImage`. It ends in `}\n` and holds no NUL.
  Both texts start with `#version 460 core`. It also proves how the
  preamble's declarations combine with those of any user text placed
  after it.
- `Assembler` (`assembler.dfy`) models `gen_frag_src` on arrays of `char`.
  The file arrives as its contents. The model writes the NUL sentinel and
  copies the contents in, then allocates the exactly sized result buffer
  and runs `strlen`, `strcpy` and `strcat` as loops over arrays. A C
  string is the part of a buffer before its first NUL (`CString`). The
  result buffer is never overrun. It holds the preamble followed by the
  file up to the file's first NUL, then a NUL.
- `Startup` (`startup.dfy`) models `main` up to its render loop:
  - the usage check and the file-existence check;
  - the window size `init_win` chooses;
  - `compile_shader` and `create_prog`, whose outcome is a `Result`-like
    `Outcome`;
  - the six uniform-location lookups.

  The OpenGL and GLFW libraries are a `Driver` value passed in. It says
  which sources compile, what their info logs say, which pairs link and
  where a uniform lives.
- `RenderLoop` (`render_loop.dfy`) models the loop of `main` as a class
  `Runner`. The class holds the loop's variables (`f`, `prev_time`,
  `cur_time`, `dtime`, `w_width`, `w_height`) and the `mouse_vec` array.
  Each iteration appends its five `glUniform*` calls to a log. The log
  equals the specification function `RunLog`. Lemmas about `RunLog` state
  what each upload of iteration `k` holds, and that the time deltas
  telescope to the last clock reading.

Where the code and its surrounding description differ, the model follows
the code:
- `main` never reads the optional width and height arguments. It always
  passes 0 by 0, so the window is always full screen at the monitor's
  mode.
- A failed link is caught by `assert(success)`, which aborts the process.
  It does not exit with status 1 and prints no info log (`LinkAborted`,
  `TerminationOf`).
- The window is created before the shaders are compiled. A compile error
  therefore happens with a window open, and the process ends through
  `exit`.
- Only the existence of the file is checked (`access(..., F_OK)`), not
  whether it can be read.
- The compile error message (shaderun.c:73) prints only the info log and
  does not name the failing stage. The stage is recorded in the model's
  `CompileError` but never printed (`CompileDiagnostic`,
  `DiagnosticOmitsStage`).
- There is no reload, file watching or video capture in this code.

## Model

| member | source | states |
|---|---|---|
| ShaderSource.ParseDeclaration | shaderun.h:22-27 | reading back a declaration line `uniform <type> <name>;` with a one-word type gives that uniform back |
| ShaderSource.DeclarationsParse | shaderun.h:22-27 | a block of declaration lines declares exactly its uniforms, in order |
| ShaderSource.PreambleText | shaderun.h:19-36 | the preamble text splits into exactly its twelve listed lines, and the commented-out lines are absent |
| ShaderSource.PreambleDeclaresFiveUniforms | shaderun.h:19-36 | the uniforms the preamble text declares are exactly vec3 iResolution, float iTime, float iTimeDelta, float iFrame and vec4 iMouse, in that order; it does not declare iKeyInput |
| ShaderSource.PreambleCallsEntryPoint | shaderun.h:32-36 | the last five of the preamble's twelve lines are the `mainImage(out vec4, in vec2)` prototype and a `main` that passes `gl_FragCoord.xy` to it |
| ShaderSource.PreambleEndsWithNewline | shaderun.h:36 | the preamble ends with `}` and a newline, so appended user text starts on a fresh line |
| ShaderSource.PreambleHasNoNul | shaderun.h:19-36 | the preamble contains no NUL, so `strcpy` copies all of it |
| ShaderSource.VertexPassesPositionThrough | shaderun.h:12-17 | the vertex source is exactly the version line, the `aPos` input, and a `main` setting `gl_Position` to `vec4(aPos, 1.0)`; it declares no uniform |
| ShaderSource.BothStartWithVersion | shaderun.h:12-20 | both the preamble and the vertex source begin with `#version 460 core` and a newline |
| ShaderSource.PreambledUniforms | shaderun.h:19-36 | the lines of preamble + user text are the preamble's lines followed by the user text's lines; its declarations are the five preamble uniforms followed by the user's |
| ShaderSource.OnlyUserDeclares | shaderun.h:19-36 | for a name the preamble does not declare, preamble + user text declares it exactly when the user text does |
| Assembler.CString | shaderun.c:56-57 | the C string of a buffer is a NUL-free prefix of it, followed by a NUL unless it is the whole buffer |
| Assembler.CStringIs | shaderun.c:56-57 | a NUL-free prefix followed by a NUL, or by the buffer's end, is the buffer's C string (so the C string is unique) |
| Assembler.CStringShorter | shaderun.c:51 | a buffer holding a NUL is longer than its C string |
| Assembler.SentinelBound | shaderun.c:50-51 | with the sentinel NUL written at index `length`, the C string is at most `length` long and is the C string of the contents |
| Assembler.AssembledWholeFile | shaderun.c:55-57 | a file without NUL bytes is assembled as preamble followed by the whole file |
| Assembler.AssembledUpToNul | shaderun.c:51-57 | a file whose first NUL is at index k is assembled as preamble followed by its first k characters only |
| Assembler.AssembledHasNoNul | shaderun.c:55-57 | the assembled text contains no NUL |
| Assembler.StrLen | shaderun.c:55 | `strlen` returns the index of the first NUL, which is the length of the buffer's C string |
| Assembler.CopyString | shaderun.c:56-57 | the copy loop writes the source's C string and a NUL from the given index on; every other cell keeps its value |
| Assembler.StrCpy | shaderun.c:56 | `strcpy` into a buffer with room leaves the source's C string and a NUL at its front, and the rest unchanged |
| Assembler.StrCat | shaderun.c:57 | `strcat` into a buffer with room for both strings and a NUL writes the source's C string and a NUL where the destination's C string ended; the rest is unchanged |
| Assembler.PreambleLiteral | shaderun.h:19-36 | the `frag_preamble` literal is laid out as the preamble text followed by a NUL |
| Assembler.GenFragSrc | shaderun.c:43-61 | the result buffer is exactly `strlen(frag_preamble) + length + 1` long; every `strcpy`/`strcat` stays in bounds; it holds the preamble, the file up to its first NUL, and a NUL, and that is its C string |
| Startup.InfoLogText | shaderun.c:71-73 | the printed info log is a prefix of the driver's log, at most 511 characters long; it is the whole log when that fits, and exactly 511 characters otherwise |
| Startup.TerminationOf | shaderun.c:70-112 | the usage, missing-file and compile failures exit with status 1; a link failure aborts |
| Startup.DiagnosticOmitsStage | shaderun.c:70-74 | the compile error message is the same whichever stage failed; for a log without NUL it is "Shader Compilation Error: ", the log, and a newline |
| Startup.InitWin | shaderun.c:3-18 | the window is full screen at the monitor's mode exactly when width or height is 0; otherwise it is windowed at the given size |
| Startup.CompileShader | shaderun.c:63-78 | a shader of that stage comes back exactly when the source compiles; otherwise a compile error for that stage with the truncated info log |
| Startup.CreateProg | shaderun.c:80-97 | a program comes back exactly when both stages compile and link. A vertex failure is reported before the fragment stage is tried, a fragment failure next, and a link failure aborts |
| Startup.Launch | shaderun.c:99-126 | fewer than two arguments, or a missing file, fail with no window. Otherwise the window is full screen at the monitor's mode. Start-up succeeds exactly when the vertex source and the assembled fragment source compile and link, and the result is that program with its slots; each failing case gives its own failure |
| Startup.PresentSlotDeclared | shaderun.c:121-126 | with a driver that gives locations only to declared uniforms, any uniform present in the built program is one of the five preamble uniforms or is declared by the user's file up to its first NUL |
| Startup.DeclaredByUserProgram | shaderun.c:117-118 | a uniform the preamble does not declare is declared by some stage of the built program exactly when the user's file, up to its first NUL, declares it |
| Startup.KeyInputNeedsUserDeclaration | shaderun.c:126 | with a driver that gives locations only to declared uniforms, the iKeyInput slot is present only when the user's file declares iKeyInput |
| Startup.PreambleSlotsDeclared | shaderun.c:121-125 | the fragment stage always declares the five preamble uniforms, whatever the user's file holds |
| RenderLoop.Runner.constructor | shaderun.c:128-134 | before the loop the counter is 0, `prev_time` is 0, the log is empty, and the unwritten half of `mouse_vec` holds its stale values |
| RenderLoop.Runner.Step | shaderun.c:136-168 | one iteration takes the size from this frame, sets `dtime` to the time minus the previous reading and `prev_time` to the time, flips the cursor's y against this frame's height, and appends the iteration's five uploads in call order. The counter rises by exactly 1 and the state invariant is kept |
| RenderLoop.Runner.Run | shaderun.c:135-169 | running the loop over a sequence of frames keeps the invariant and consumes exactly those frames. Afterwards the size, `cur_time`, `dtime` and `mouse_vec[0..1]` hold the last frame's values, or are unchanged when no frame ran |
| RenderLoop.RenderSession | shaderun.c:128-172 | the uploads of a whole session are `RunLog` of its frames; the loop runs once per frame and the process exits with status 0 |
| RenderLoop.RunLogLength | shaderun.c:148-157 | every iteration makes exactly five uploads |
| RenderLoop.RunLogFrame | shaderun.c:135-169 | the uploads of iteration k are at positions 5k to 5k+4. They depend only on k, that iteration's readings and the previous clock reading |
| RenderLoop.TimeUpload | shaderun.c:144-148 | iTime in iteration k is that iteration's clock reading |
| RenderLoop.ResolutionUpload | shaderun.c:138-149 | iResolution in iteration k is that iteration's framebuffer width and height, with z = 1 |
| RenderLoop.DeltaUpload | shaderun.c:144-150 | iTimeDelta in iteration k is its clock reading minus that of iteration k-1, or minus 0 for the first iteration |
| RenderLoop.FrameCounterUpload | shaderun.c:128-168 | iFrame in iteration k is k: the counter starts at 0 and rises by one per iteration |
| RenderLoop.MouseUpload | shaderun.c:154-157 | iMouse in iteration k is (cursor x, this iteration's height minus cursor y), followed by the two never-written components |
| RenderLoop.DeltaTelescope | shaderun.c:129-150 | the iTimeDelta values of all iterations add up to the last clock reading, because the clock and `prev_time` both start at 0 |
| RenderLoop.NonNegativeDeltas | shaderun.c:144-150 | a clock that starts at or after 0 and never runs backwards gives no negative iTimeDelta |

## Left out

- GLFW and GLEW calls are not modelled: `glfwInit`, window and context
  creation, `glewInit`, buffer swapping, event polling, `glfwTerminate`,
  and the asserts guarding `init_win`. The monitor's video mode is an
  input (`VideoMode`). The close request is the end of the frame sequence.
- `setup_quad` (shaderun.c:20-41) is not modelled. It only makes OpenGL
  calls that create the quad's buffers.
- OpenGL internals are not modelled: shader and program objects, compile
  and link status, info logs and uniform locations. They come from the
  `Driver` input. Deleting the shaders after linking, `glClear`,
  `glViewport`, `glUseProgram`, the texture binding, the hard-coded vertex
  array 1 and the draw call are left out. A location of -1, which OpenGL
  silently ignores, is logged like any other location.
- File I/O in `gen_frag_src` is not modelled. The file's contents are an
  input. A short `fread`, an `fopen` that fails after `access` succeeded
  (a NULL `FILE*`), and `malloc` returning NULL are not modelled.
- Freeing `frag_src` and the assembled buffer (shaderun.c:59,119) is not
  modelled: memory is not tracked.
- Startup.Launch: `argv[0]` being NULL when `argc` is 0 is not modelled,
  and neither is the text of the usage and `perror` messages. The
  existence check is an input.
- Startup.KeyInputNeedsUserDeclaration is stated under a driver assumption
  (`HonestLocations`), because the uniform locations come from OpenGL.
  OpenGL may also drop declared but unused uniforms. The model claims
  nothing about that.
- Declaration of a uniform is read line by line. It is not a GLSL parser.
  A line that reads exactly `uniform <type> <name>;` counts as a
  declaration even inside a `/* ... */` block comment, which GLSL ignores.
  A declaration with leading whitespace, extra spaces, a trailing comment,
  several per line, or split over lines does not count. The lemmas about
  `Declares` (Startup.PresentSlotDeclared,
  Startup.KeyInputNeedsUserDeclaration) inherit this reading.
- Time, sizes and cursor positions are exact reals and unbounded integers.
  The model leaves out the `double` clock, the `(float)` casts of each
  upload, and overflow of the `int` frame counter.
- `mouse_vec[2]` and `mouse_vec[3]` are never written in the source.
  `glUniform4fv` therefore uploads uninitialised values. The model makes
  them a parameter (`stale`) that stays the same for the whole run.
- Building with `NDEBUG` is not modelled. It removes the calls inside the
  asserts of shaderun.c:4 and shaderun.c:16 as well as the link check, so
  GLFW is never initialised and `init_win` fails before any shader is
  compiled.
- The `read_shader` prototype (shaderun.h:40) has no definition and is not
  modelled.
- Hot reload, file watching, signals and video capture are not modelled.
  They are not part of this code. `<sys/inotify.h>` is included but never
  used.
