/** Start-up of shaderun (shaderun.c:3-18, 63-126): the argument and file
    checks of `main`, the window size chosen by `init_win`, the two-stage
    compile and link of `compile_shader` and `create_prog`, and the uniform
    slots looked up once the program exists.

    Whatever the OpenGL and GLFW libraries decide is an input here: a
    `Driver` says which sources compile, what their info logs hold, which
    pairs link and where a uniform lives in a program; a `VideoMode` is the
    primary monitor's size. */
module Startup {
  import opened ShaderSource
  import opened Assembler

  datatype Stage = Vertex | Fragment

  /** Why the program stops before its render loop. */
  datatype Failure =
    | Usage                                  // fewer than two arguments
    | MissingFile                            // the fragment path does not exist
    | CompileError(stage: Stage, log: string) // a stage failed to compile
    | LinkAborted                            // the link status assertion fails

  datatype Outcome<T> = Ok(value: T) | Fail(failure: Failure)

  /** How the process ends. */
  datatype Termination = Exited(status: int) | Aborted

  datatype Shader = Shader(stage: Stage, source: string)
  datatype Program = Program(vertex: Shader, fragment: Shader)

  datatype Driver = Driver(
    compiles: (Stage, string) -> bool,
    infoLog: (Stage, string) -> string,
    links: (Shader, Shader) -> bool,
    location: (Program, string) -> int)

  datatype VideoMode = VideoMode(width: int, height: int)
  datatype Window = Window(width: int, height: int, fullscreen: bool)

  /** The uniform locations `main` looks up, in its order; -1 is "absent". */
  datatype Slots = Slots(resolution: int, time: int, timeDelta: int,
                         frame: int, mouse: int, keyInput: int)

  /** What the program holds once start-up succeeded. */
  datatype Session = Session(window: Window, program: Program, slots: Slots)

  /** Size of the `infoLog` buffer handed to `glGetShaderInfoLog`. */
  const InfoLogSize := 512

  /** The part of a compiler log that fits the buffer with its NUL. */
  function InfoLogText(log: string): (s: string)
    ensures s <= log
    ensures |s| <= InfoLogSize - 1
    ensures |log| <= InfoLogSize - 1 ==> s == log
    ensures |log| >= InfoLogSize ==> |s| == InfoLogSize - 1
  {
    if |log| < InfoLogSize then log else log[..InfoLogSize - 1]
  }

  /** The failure `compile_shader` reports for a source that does not compile. */
  function CompileFailure(d: Driver, stage: Stage, source: string): Failure {
    CompileError(stage, InfoLogText(d.infoLog(stage, source)))
  }

  /** The text before the log in the message `compile_shader` prints. */
  const CompileErrorPrefix: string := "Shader Compilation" + " Error: "

  /** What `compile_shader` writes to standard error for a compile error:
      the prefix, the log as a C string, and a newline. */
  function CompileDiagnostic(f: Failure): string
    requires f.CompileError?
  {
    CompileErrorPrefix + CString(f.log) + "\n"
  }

  /** The printed diagnostic does not depend on the failing stage, and a
      log without NUL is printed whole. */
  lemma DiagnosticOmitsStage(f: Failure)
    requires f.CompileError?
    ensures CompileDiagnostic(f) == CompileDiagnostic(CompileError(Vertex, f.log))
    ensures CompileDiagnostic(f) == CompileDiagnostic(CompileError(Fragment, f.log))
    ensures NUL !in f.log ==> CompileDiagnostic(f) == CompileErrorPrefix + f.log + "\n"
  {
    if NUL !in f.log {
      CStringIs(f.log, f.log);
    }
  }

  predicate Links(d: Driver, vertexSource: string, fragmentSource: string) {
    d.links(Shader(Vertex, vertexSource), Shader(Fragment, fragmentSource))
  }

  /** A program links from both stages exactly when each compiles and the
      pair links. */
  predicate Builds(d: Driver, vertexSource: string, fragmentSource: string) {
    d.compiles(Vertex, vertexSource) && d.compiles(Fragment, fragmentSource)
    && Links(d, vertexSource, fragmentSource)
  }

  /** How a failure ends the process: `exit(EXIT_FAILURE)` for the checks
      and a compile error, `abort` through the failed `assert` for a link. */
  function TerminationOf(f: Failure): (t: Termination)
    ensures t.Aborted? <==> f == LinkAborted
    ensures t.Exited? ==> t.status == 1
  {
    if f.LinkAborted? then Aborted else Exited(1)
  }

  /** `init_win`: a zero width or height asks for the monitor's mode in full
      screen; any other size opens a window of that size. */
  method InitWin(width: int, height: int, mode: VideoMode) returns (win: Window)
    ensures win.fullscreen <==> width == 0 || height == 0
    ensures win.fullscreen ==> win.width == mode.width && win.height == mode.height
    ensures !win.fullscreen ==> win.width == width && win.height == height
  {
    if width == 0 || height == 0 {
      win := Window(mode.width, mode.height, true);
    } else {
      win := Window(width, height, false);
    }
  }

  /** `compile_shader`: a shader of the stage when the source compiles, else
      the truncated info log. */
  method CompileShader(d: Driver, stage: Stage, source: string) returns (r: Outcome<Shader>)
    ensures r.Ok? <==> d.compiles(stage, source)
    ensures r.Ok? ==> r.value == Shader(stage, source)
    ensures r.Fail? ==> r.failure == CompileFailure(d, stage, source)
  {
    if !d.compiles(stage, source) {
      return Fail(CompileFailure(d, stage, source));
    }
    r := Ok(Shader(stage, source));
  }

  /** `create_prog`: the vertex stage is compiled first, so its error wins;
      the fragment stage next; a failed link aborts.  A program comes back
      exactly when both stages compiled and linked. */
  method CreateProg(d: Driver, vertexSource: string, fragmentSource: string)
    returns (r: Outcome<Program>)
    ensures r.Ok? <==> Builds(d, vertexSource, fragmentSource)
    ensures r.Ok? ==> r.value == Program(Shader(Vertex, vertexSource), Shader(Fragment, fragmentSource))
    ensures !d.compiles(Vertex, vertexSource) ==>
              r == Fail(CompileFailure(d, Vertex, vertexSource))
    ensures d.compiles(Vertex, vertexSource) && !d.compiles(Fragment, fragmentSource) ==>
              r == Fail(CompileFailure(d, Fragment, fragmentSource))
    ensures (d.compiles(Vertex, vertexSource) && d.compiles(Fragment, fragmentSource)
             && !Links(d, vertexSource, fragmentSource)) ==> r == Fail(LinkAborted)
  {
    var vertex := CompileShader(d, Vertex, vertexSource);
    if vertex.Fail? {
      return Fail(vertex.failure);
    }
    var fragment := CompileShader(d, Fragment, fragmentSource);
    if fragment.Fail? {
      return Fail(fragment.failure);
    }
    if !d.links(vertex.value, fragment.value) {
      return Fail(LinkAborted);
    }
    r := Ok(Program(vertex.value, fragment.value));
  }

  /** The six `glGetUniformLocation` lookups of `main`. */
  function ResolveSlots(d: Driver, p: Program): (s: Slots)
    ensures s.resolution == d.location(p, "iResolution")
    ensures s.time == d.location(p, "iTime") && s.timeDelta == d.location(p, "iTimeDelta")
    ensures s.frame == d.location(p, "iFrame") && s.mouse == d.location(p, "iMouse")
    ensures s.keyInput == d.location(p, "iKeyInput")
  {
    Slots(d.location(p, "iResolution"), d.location(p, "iTime"),
          d.location(p, "iTimeDelta"), d.location(p, "iFrame"),
          d.location(p, "iMouse"), d.location(p, "iKeyInput"))
  }

  /** The program `main` builds from a fragment file with these contents. */
  function UserProgram(contents: seq<char>): Program {
    Program(Shader(Vertex, VertexSource()), Shader(Fragment, AssembledSource(contents)))
  }

  /** `main` up to its render loop.  The usage and file checks stop the
      program before any window exists; past them the window is always the
      full-screen monitor mode, because `main` passes 0 by 0 to `init_win`;
      then the program comes up exactly when both stages compile and link. */
  method Launch(argc: int, fileExists: bool, contents: seq<char>, mode: VideoMode, d: Driver)
    returns (r: Outcome<Session>, window: Option<Window>)
    ensures argc < 2 ==> r == Fail(Usage) && window == None
    ensures argc >= 2 && !fileExists ==> r == Fail(MissingFile) && window == None
    ensures argc >= 2 && fileExists ==> window == Some(Window(mode.width, mode.height, true))
    ensures r.Ok? <==> argc >= 2 && fileExists && Builds(d, VertexSource(), AssembledSource(contents))
    ensures r.Ok? ==> r.value == Session(window.value, UserProgram(contents),
                                         ResolveSlots(d, UserProgram(contents)))
    ensures argc >= 2 && fileExists && !d.compiles(Vertex, VertexSource()) ==>
              r == Fail(CompileFailure(d, Vertex, VertexSource()))
    ensures (argc >= 2 && fileExists && d.compiles(Vertex, VertexSource())
             && !d.compiles(Fragment, AssembledSource(contents))) ==>
              r == Fail(CompileFailure(d, Fragment, AssembledSource(contents)))
    ensures (argc >= 2 && fileExists && d.compiles(Vertex, VertexSource())
             && d.compiles(Fragment, AssembledSource(contents))
             && !Links(d, VertexSource(), AssembledSource(contents))) ==> r == Fail(LinkAborted)
  {
    if argc < 2 {
      return Fail(Usage), None;
    }
    if !fileExists {
      return Fail(MissingFile), None;
    }
    var width, height := 0, 0;
    var win := InitWin(width, height, mode);
    window := Some(win);

    var full := GenFragSrc(contents);
    // glShaderSource with a NULL length array reads the buffer as a C string
    var fragmentSource := CString(full[..]);
    var prog := CreateProg(d, VertexSource(), fragmentSource);
    if prog.Fail? {
      return Fail(prog.failure), window;
    }
    r := Ok(Session(win, prog.value, ResolveSlots(d, prog.value)));
  }

  /** A driver that gives a location only to a uniform some stage of the
      program declares, as `glGetUniformLocation` returns -1 otherwise. */
  ghost predicate HonestLocations(d: Driver) {
    forall p: Program, name: string :: d.location(p, name) >= 0 ==>
      Declares(p.vertex.source, name) || Declares(p.fragment.source, name)
  }

  /** A uniform the preamble does not declare is declared by the user's
      program exactly when the user's file (up to its first NUL) declares
      it: the vertex source declares nothing. */
  lemma DeclaredByUserProgram(contents: seq<char>, name: string)
    requires name !in Names(PreambleUniforms)
    ensures Declares(UserProgram(contents).vertex.source, name)
            || Declares(UserProgram(contents).fragment.source, name)
            <==> Declares(CString(contents), name)
  {
    VertexPassesPositionThrough();
    assert Names(DeclaredUniforms(VertexSource())) == [];
    OnlyUserDeclares(CString(contents), name);
  }

  /** With an honest driver, any uniform present in the user's program is
      one of the preamble's five or is declared by the user's file (up to
      its first NUL). */
  lemma PresentSlotDeclared(d: Driver, contents: seq<char>, name: string)
    requires HonestLocations(d)
    requires d.location(UserProgram(contents), name) >= 0
    ensures name in Names(PreambleUniforms) || Declares(CString(contents), name)
  {
    SlotNeedsDeclaration(d, UserProgram(contents), name);
    if name !in Names(PreambleUniforms) {
      DeclaredByUserProgram(contents, name);
    }
  }

  /** Neither the vertex source nor the preamble declares `iKeyInput`, so
      its slot is present only when the user's own file declares it (up to
      its first NUL). */
  lemma KeyInputNeedsUserDeclaration(d: Driver, contents: seq<char>)
    requires HonestLocations(d)
    ensures ResolveSlots(d, UserProgram(contents)).keyInput >= 0 ==>
              Declares(CString(contents), "iKeyInput")
  {
    if d.location(UserProgram(contents), "iKeyInput") >= 0 {
      PreambleNames();
      PresentSlotDeclared(d, contents, "iKeyInput");
    }
  }

  /** An honest driver's present slot names a uniform some stage declares. */
  lemma SlotNeedsDeclaration(d: Driver, p: Program, name: string)
    requires HonestLocations(d) && d.location(p, name) >= 0
    ensures Declares(p.vertex.source, name) || Declares(p.fragment.source, name)
  {
  }

  /** The slots the preamble declares are never blamed on the user: a file
      that declares nothing still has every preamble uniform declared. */
  lemma PreambleSlotsDeclared(contents: seq<char>, name: string)
    requires name in Names(PreambleUniforms)
    ensures Declares(UserProgram(contents).fragment.source, name)
  {
    PreambledUniforms(CString(contents));
    NamesAppend(PreambleUniforms, DeclaredUniforms(CString(contents)));
  }
}
