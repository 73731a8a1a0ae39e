/** The two GLSL texts that shaderun.h defines: the fixed vertex stage
    (`vrtx_src`) and the fragment preamble (`frag_preamble`) that is put in
    front of every user shader.

    Each text is kept as the list of its lines and rendered with JoinLines,
    which puts a newline after every line, exactly as the adjacent C string
    literals "...\n" of the header do.  The lines the header comments out
    (`iChannelTime`, `iDate`, `iSampleRate`, `iChannelResolution`,
    `iChannel0`) are not part of the C string and are not listed here.

    A uniform counts as declared by a text when one of its lines reads
    `uniform <type> <name>;`, which is how both texts write their
    declarations; this is a line-level reading of GLSL, not a GLSL parser. */
module ShaderSource {

  datatype Option<T> = None | Some(value: T)

  /** A GLSL uniform declaration `uniform <type> <name>;`. */
  datatype Uniform = Uniform(glslType: string, name: string)

  /** A line of text: neither a newline nor a NUL character inside it. */
  predicate IsLine(l: string) {
    forall i :: 0 <= i < |l| ==> l[i] != '\n' && l[i] != '\0'
  }

  predicate AllLines(ls: seq<string>) {
    forall i :: 0 <= i < |ls| ==> IsLine(ls[i])
  }

  /** Every line followed by a newline. */
  function JoinLines(ls: seq<string>): string {
    if ls == [] then [] else ls[0] + "\n" + JoinLines(ls[1..])
  }

  /** Position of the first `c` in `s`, or |s| when there is none. */
  function IndexOf(s: string, c: char): (i: nat)
    ensures i <= |s|
    ensures i < |s| ==> s[i] == c
    ensures forall j :: 0 <= j < i ==> s[j] != c
  {
    if s == [] then 0
    else if s[0] == c then 0
    else 1 + IndexOf(s[1..], c)
  }

  /** The lines of a text; a last line without a newline is still a line. */
  function SplitLines(s: string): seq<string>
    decreases |s|
  {
    if s == [] then []
    else
      var i := IndexOf(s, '\n');
      if i == |s| then [s] else [s[..i]] + SplitLines(s[i + 1..])
  }

  /** The line that declares `u`. */
  function DeclarationLine(u: Uniform): string {
    "uniform " + u.glslType + " " + u.name + ";"
  }

  function DeclarationLines(us: seq<Uniform>): (ls: seq<string>)
    ensures |ls| == |us|
    ensures forall i :: 0 <= i < |us| ==> ls[i] == DeclarationLine(us[i])
  {
    if us == [] then [] else [DeclarationLine(us[0])] + DeclarationLines(us[1..])
  }

  /** A type name is one word. */
  predicate IsTypeName(t: string) {
    |t| > 0 && ' ' !in t
  }

  /** The declaration a line makes, if it has the shape `uniform <type> <name>;`. */
  function ParseUniform(line: string): (u: Option<Uniform>)
    ensures u.Some? ==> line == DeclarationLine(u.value) && IsTypeName(u.value.glslType)
  {
    if |line| > 9 && line[..8] == "uniform " && line[|line| - 1] == ';' then
      var decl := line[8..|line| - 1];
      var i := IndexOf(decl, ' ');
      if 0 < i < |decl| then
        assert decl == decl[..i] + " " + decl[i + 1..];
        Some(Uniform(decl[..i], decl[i + 1..]))
      else None
    else None
  }

  /** The uniform declarations among some lines, in order. */
  function UniformsIn(ls: seq<string>): seq<Uniform> {
    if ls == [] then []
    else
      match ParseUniform(ls[0])
      case Some(u) => [u] + UniformsIn(ls[1..])
      case None => UniformsIn(ls[1..])
  }

  /** The uniforms a GLSL text declares, one declaration per line. */
  function DeclaredUniforms(src: string): seq<Uniform> {
    UniformsIn(SplitLines(src))
  }

  function Names(us: seq<Uniform>): seq<string> {
    if us == [] then [] else [us[0].name] + Names(us[1..])
  }

  /** True when `src` declares a uniform called `name`. */
  predicate Declares(src: string, name: string) {
    name in Names(DeclaredUniforms(src))
  }

  // Lines longer than about twenty characters are written as a few literal
  // pieces: facts about a literal cost the solver more than linearly in its
  // length, and each piece is checked on its own below.

  const VersionLine: string := "#version 460 core"

  const VersionDirective: string := VersionLine + "\n"

  /** The lines of `vrtx_src`. */
  const VertexLines: seq<string> := [
    VersionLine,
    "layout(location = 0)" + " in vec3 aPos;",
    "void main() {",
    "    gl_Position" + " = vec4(aPos, 1.0);",
    "}"
  ]

  function VertexSource(): string {
    JoinLines(VertexLines)
  }

  /** The lines of `frag_preamble`; lines 2-6 are `uniform vec3 iResolution;`,
      `uniform float iTime;`, `uniform float iTimeDelta;`, `uniform float iFrame;`
      and `uniform vec4 iMouse;`. */
  const PreambleLines: seq<string> := [
    VersionLine,
    "out vec4 fragColor;",
    DeclarationLine(Uniform("vec3", "iResolution")),
    DeclarationLine(Uniform("float", "iTime")),
    DeclarationLine(Uniform("float", "iTimeDelta")),
    DeclarationLine(Uniform("float", "iFrame")),
    DeclarationLine(Uniform("vec4", "iMouse")),
    "void mainImage(" + "out vec4 fragColor, " + "in vec2 fragCoord);",
    "void main() {",
    "    vec2 fragCoord" + " = gl_FragCoord.xy;",
    "    mainImage(" + "fragColor, fragCoord);",
    "}"
  ]

  function FragPreamble(): string {
    JoinLines(PreambleLines)
  }

  /** The five uniforms of the preamble, in declaration order. */
  const PreambleUniforms: seq<Uniform> := [
    Uniform("vec3", "iResolution"),
    Uniform("float", "iTime"),
    Uniform("float", "iTimeDelta"),
    Uniform("float", "iFrame"),
    Uniform("vec4", "iMouse")
  ]

  // ---------------------------------------------------------------------
  // Lines, joining and splitting

  /** A line followed by a newline is split off as the first line. */
  lemma SplitFirstLine(l: string, rest: string)
    requires IsLine(l)
    ensures SplitLines(l + "\n" + rest) == [l] + SplitLines(rest)
  {
    var s := l + "\n" + rest;
    var i := IndexOf(s, '\n');
    assert s[|l|] == '\n';
    assert s[..|l|] == l;
    assert s[|l| + 1..] == rest;
  }

  /** Splitting undoes joining, and a text appended after joined lines starts
      on a line of its own. */
  lemma {:induction false} SplitAfterJoin(ls: seq<string>, rest: string)
    requires AllLines(ls)
    ensures SplitLines(JoinLines(ls) + rest) == ls + SplitLines(rest)
  {
    if ls != [] {
      var tail := JoinLines(ls[1..]) + rest;
      calc {
        SplitLines(JoinLines(ls) + rest);
        { assert JoinLines(ls) + rest == ls[0] + "\n" + tail; }
        SplitLines(ls[0] + "\n" + tail);
        { assert IsLine(ls[0]); SplitFirstLine(ls[0], tail); }
        [ls[0]] + SplitLines(tail);
        { SplitAfterJoin(ls[1..], rest); }
        [ls[0]] + (ls[1..] + SplitLines(rest));
        { assert [ls[0]] + ls[1..] == ls; }
        ls + SplitLines(rest);
      }
    } else {
      assert JoinLines(ls) + rest == rest;
    }
  }

  /** Joined lines hold no NUL character, and end in a newline. */
  lemma {:induction false} JoinedLinesHaveNoNul(ls: seq<string>)
    requires AllLines(ls)
    ensures '\0' !in JoinLines(ls)
    ensures ls != [] ==> JoinLines(ls)[|JoinLines(ls)| - 1] == '\n'
  {
    if ls != [] {
      JoinedLinesHaveNoNul(ls[1..]);
      var s := JoinLines(ls);
      assert s == ls[0] + "\n" + JoinLines(ls[1..]);
      assert IsLine(ls[0]);
    }
  }

  /** The last line joined is followed by the final newline of the text. */
  lemma {:induction false} JoinLinesLast(ls: seq<string>)
    requires ls != []
    ensures |JoinLines(ls)| >= |ls[|ls| - 1]| + 1
    ensures JoinLines(ls)[|JoinLines(ls)| - |ls[|ls| - 1]| - 1..] == ls[|ls| - 1] + "\n"
  {
    if |ls| > 1 {
      JoinLinesLast(ls[1..]);
      assert ls[1..][|ls[1..]| - 1] == ls[|ls| - 1];
    }
  }

  /** The first line joined, with its newline, starts the text. */
  lemma JoinLinesFirst(ls: seq<string>)
    requires ls != []
    ensures ls[0] + "\n" <= JoinLines(ls)
  {}

  // ---------------------------------------------------------------------
  // Declarations

  /** Parsing a declaration line gives back the uniform it declares. */
  lemma ParseDeclaration(u: Uniform)
    requires IsTypeName(u.glslType)
    ensures ParseUniform(DeclarationLine(u)) == Some(u)
  {
    var t, n := u.glslType, u.name;
    var line := DeclarationLine(u);
    assert line[..8] == "uniform ";
    assert line[|line| - 1] == ';';
    var decl := line[8..|line| - 1];
    assert decl == t + " " + n;
    var i := IndexOf(decl, ' ');
    assert i == |t| by {
      assert decl[|t|] == ' ';
      assert forall j :: 0 <= j < |t| ==> decl[j] == t[j];
    }
    assert decl[..|t|] == t;
    assert decl[|t| + 1..] == n;
  }

  /** Declaration lines declare exactly their uniforms, in order. */
  lemma {:induction false} DeclarationsParse(us: seq<Uniform>)
    requires forall i :: 0 <= i < |us| ==> IsTypeName(us[i].glslType)
    ensures UniformsIn(DeclarationLines(us)) == us
  {
    if us != [] {
      var ls := DeclarationLines(us);
      ParseDeclaration(us[0]);
      assert ls[1..] == DeclarationLines(us[1..]);
      DeclarationsParse(us[1..]);
    }
  }

  /** A line that does not start with `u` declares nothing. */
  lemma NotDeclaration(l: string)
    requires |l| > 0 && l[0] != 'u'
    ensures ParseUniform(l) == None
  {
    if |l| > 9 {
      assert l[..8][0] == l[0];
    }
  }

  /** Lines that do not start with `u` declare nothing. */
  lemma {:induction false} NoDeclarations(ls: seq<string>)
    requires forall i :: 0 <= i < |ls| ==> |ls[i]| > 0 && ls[i][0] != 'u'
    ensures UniformsIn(ls) == []
  {
    if ls != [] {
      NotDeclaration(ls[0]);
      NoDeclarations(ls[1..]);
    }
  }

  lemma {:induction false} UniformsInAppend(a: seq<string>, b: seq<string>)
    ensures UniformsIn(a + b) == UniformsIn(a) + UniformsIn(b)
  {
    if a == [] {
      assert a + b == b;
    } else {
      assert (a + b)[0] == a[0];
      assert (a + b)[1..] == a[1..] + b;
      UniformsInAppend(a[1..], b);
    }
  }

  lemma {:induction false} NamesAppend(a: seq<Uniform>, b: seq<Uniform>)
    ensures Names(a + b) == Names(a) + Names(b)
  {
    if a == [] {
      assert a + b == b;
    } else {
      assert (a + b)[1..] == a[1..] + b;
      NamesAppend(a[1..], b);
    }
  }


  lemma LinesConcat(a: string, b: string)
    requires IsLine(a) && IsLine(b)
    ensures IsLine(a + b)
  {}

  lemma DeclarationIsLine(u: Uniform)
    requires IsLine(u.glslType) && IsLine(u.name)
    ensures IsLine(DeclarationLine(u))
  {
    assert IsLine("uniform ") && IsLine(" ") && IsLine(";");
  }

  // ---------------------------------------------------------------------
  // The two texts, a few literal pieces at a time.

  /** Lines 0-1 of the preamble: the version directive and the colour output. */
  lemma PreambleHeader()
    ensures PreambleLines[0] == VersionLine
    ensures IsLine(PreambleLines[0]) && IsLine(PreambleLines[1])
    ensures PreambleLines[0][0] == '#' && PreambleLines[1][0] == 'o'
  {
    assert IsLine(VersionLine);
    assert IsLine("out vec4 fragColor;");
  }

  /** The preamble's uniforms have one-word types and names free of line breaks. */
  lemma PreambleUniformsWellFormed()
    ensures forall i :: 0 <= i < |PreambleUniforms| ==> IsTypeName(PreambleUniforms[i].glslType)
    ensures forall i :: 0 <= i < |PreambleUniforms| ==> IsLine(PreambleUniforms[i].glslType)
    ensures forall i :: 0 <= i < |PreambleUniforms| ==> IsLine(PreambleUniforms[i].name)
  {
    assert IsLine("vec3") && IsLine("float") && IsLine("vec4");
    assert ' ' !in "vec3" && ' ' !in "float" && ' ' !in "vec4";
    assert IsLine("iResolution") && IsLine("iTime") && IsLine("iTimeDelta");
    assert IsLine("iFrame") && IsLine("iMouse");
  }

  /** Lines 2-6 of the preamble: the five uniform declarations. */
  lemma PreambleDeclarations()
    ensures PreambleLines[2..7] == DeclarationLines(PreambleUniforms)
    ensures forall i :: 2 <= i < 7 ==> IsLine(PreambleLines[i])
  {
    var ds := DeclarationLines(PreambleUniforms);
    assert ds[0] == PreambleLines[2] && ds[1] == PreambleLines[3] && ds[2] == PreambleLines[4];
    assert ds[3] == PreambleLines[5] && ds[4] == PreambleLines[6];
    PreambleUniformsWellFormed();
    forall i | 0 <= i < 5
      ensures IsLine(ds[i])
    {
      DeclarationIsLine(PreambleUniforms[i]);
    }
  }

  /** Line 7 of the preamble: the prototype of the user's entry point. */
  lemma PreamblePrototype()
    ensures IsLine(PreambleLines[7]) && PreambleLines[7][0] == 'v'
  {
    assert IsLine("void mainImage(");
    assert IsLine("out vec4 fragColor, ");
    assert IsLine("in vec2 fragCoord);");
    LinesConcat("void mainImage(", "out vec4 fragColor, ");
    LinesConcat("void mainImage(" + "out vec4 fragColor, ", "in vec2 fragCoord);");
  }

  /** Lines 8-11 of the preamble: `main`, which hands the fragment position to the entry point. */
  lemma PreambleMain()
    ensures forall i :: 8 <= i < 12 ==> IsLine(PreambleLines[i])
    ensures PreambleLines[8][0] == 'v' && PreambleLines[9][0] == ' '
    ensures PreambleLines[10][0] == ' ' && PreambleLines[11][0] == '}'
  {
    assert IsLine("void main() {") && IsLine("}");
    assert IsLine("    vec2 fragCoord") && IsLine(" = gl_FragCoord.xy;");
    LinesConcat("    vec2 fragCoord", " = gl_FragCoord.xy;");
    assert IsLine("    mainImage(") && IsLine("fragColor, fragCoord);");
    LinesConcat("    mainImage(", "fragColor, fragCoord);");
  }

  lemma PreambleIsLines()
    ensures AllLines(PreambleLines)
  {
    PreambleHeader();
    PreambleDeclarations();
    PreamblePrototype();
    PreambleMain();
  }

  /** The vertex stage: its lines hold no newline or NUL, and none starts with `u`. */
  lemma VertexIsLines()
    ensures AllLines(VertexLines)
    ensures forall i :: 0 <= i < |VertexLines| ==> |VertexLines[i]| > 0 && VertexLines[i][0] != 'u'
  {
    assert IsLine(VersionLine) && IsLine("void main() {") && IsLine("}");
    assert IsLine("layout(location = 0)") && IsLine(" in vec3 aPos;");
    LinesConcat("layout(location = 0)", " in vec3 aPos;");
    assert IsLine("    gl_Position") && IsLine(" = vec4(aPos, 1.0);");
    LinesConcat("    gl_Position", " = vec4(aPos, 1.0);");
  }

  // ---------------------------------------------------------------------
  // Properties of the two texts

  /** Split back into lines, the preamble text gives exactly its lines. */
  lemma PreambleText()
    ensures SplitLines(FragPreamble()) == PreambleLines
  {
    PreambleIsLines();
    SplitAfterJoin(PreambleLines, []);
    assert JoinLines(PreambleLines) + [] == JoinLines(PreambleLines);
    assert PreambleLines + [] == PreambleLines;
  }

  lemma PreambleOuterLinesDeclareNothing()
    ensures UniformsIn(PreambleLines[..2]) == []
    ensures UniformsIn(PreambleLines[7..]) == []
  {
    PreambleHeader();
    NoDeclarations(PreambleLines[..2]);
    PreamblePrototype();
    PreambleMain();
    NoDeclarations(PreambleLines[7..]);
  }

  lemma PreambleDeclarationLinesDeclare()
    ensures UniformsIn(PreambleLines[2..7]) == PreambleUniforms
  {
    PreambleDeclarations();
    PreambleUniformsWellFormed();
    DeclarationsParse(PreambleUniforms);
  }

  /** Of the preamble's lines, exactly lines 2-6 declare uniforms. */
  lemma PreambleLinesDeclare()
    ensures UniformsIn(PreambleLines) == PreambleUniforms
  {
    var ls := PreambleLines;
    PreambleOuterLinesDeclareNothing();
    PreambleDeclarationLinesDeclare();
    assert ls == ls[..2] + ls[2..7] + ls[7..];
    UniformsInAppend(ls[..2] + ls[2..7], ls[7..]);
    UniformsInAppend(ls[..2], ls[2..7]);
  }

  lemma PreambleNames()
    ensures Names(PreambleUniforms) == ["iResolution", "iTime", "iTimeDelta", "iFrame", "iMouse"]
    ensures "iKeyInput" !in Names(PreambleUniforms)
  {
    assert "iKeyInput" != "iResolution" && "iKeyInput" != "iTime" && "iKeyInput" != "iTimeDelta";
    assert "iKeyInput" != "iFrame" && "iKeyInput" != "iMouse";
  }

  /** The preamble declares exactly the five uniforms `iResolution` (vec3),
      `iTime`, `iTimeDelta`, `iFrame` (float) and `iMouse` (vec4), in that
      order; in particular none of the commented-out ones and not
      `iKeyInput`. */
  lemma PreambleDeclaresFiveUniforms()
    ensures DeclaredUniforms(FragPreamble()) == PreambleUniforms
    ensures Names(DeclaredUniforms(FragPreamble())) == ["iResolution", "iTime", "iTimeDelta", "iFrame", "iMouse"]
    ensures !Declares(FragPreamble(), "iKeyInput")
  {
    PreambleText();
    PreambleLinesDeclare();
    PreambleNames();
  }

  /** The preamble's last five lines declare the entry point
      `mainImage(out vec4, in vec2)` and define `main`, which calls it with
      `gl_FragCoord.xy`. */
  lemma PreambleCallsEntryPoint()
    ensures |SplitLines(FragPreamble())| == 12
    ensures SplitLines(FragPreamble())[7..] == [
      "void mainImage(" + "out vec4 fragColor, " + "in vec2 fragCoord);",
      "void main() {",
      "    vec2 fragCoord" + " = gl_FragCoord.xy;",
      "    mainImage(" + "fragColor, fragCoord);",
      "}"]
  {
    PreambleText();
  }

  /** The preamble ends with "}\n", so whatever follows it starts on a new line. */
  lemma PreambleEndsWithNewline()
    ensures |FragPreamble()| >= 2
    ensures FragPreamble()[|FragPreamble()| - 2..] == "}\n"
  {
    JoinLinesLast(PreambleLines);
  }

  /** The preamble holds no NUL character, so a C string holding it is the whole text. */
  lemma PreambleHasNoNul()
    ensures '\0' !in FragPreamble()
  {
    PreambleIsLines();
    JoinedLinesHaveNoNul(PreambleLines);
  }

  /** The vertex stage takes `aPos` from attribute 0 and passes it through
      unchanged with w = 1.0; it declares no uniform. */
  lemma VertexPassesPositionThrough()
    ensures SplitLines(VertexSource()) == [
      "#version 460 core",
      "layout(location = 0)" + " in vec3 aPos;",
      "void main() {",
      "    gl_Position" + " = vec4(aPos, 1.0);",
      "}"]
    ensures DeclaredUniforms(VertexSource()) == []
  {
    VertexIsLines();
    SplitAfterJoin(VertexLines, []);
    assert JoinLines(VertexLines) + [] == JoinLines(VertexLines);
    assert VertexLines + [] == VertexLines;
    NoDeclarations(VertexLines);
  }

  /** Both texts begin with the directive `#version 460 core`. */
  lemma BothStartWithVersion()
    ensures VersionDirective <= FragPreamble()
    ensures VersionDirective <= VertexSource()
  {
    JoinLinesFirst(PreambleLines);
    JoinLinesFirst(VertexLines);
  }

  /** The uniforms a user shader sees declared are the preamble's five
      followed by those of its own text, which starts on a fresh line. */
  lemma {:induction false} PreambledUniforms(user: string)
    ensures SplitLines(FragPreamble() + user) == PreambleLines + SplitLines(user)
    ensures DeclaredUniforms(FragPreamble() + user) == PreambleUniforms + DeclaredUniforms(user)
  {
    PreambleIsLines();
    SplitAfterJoin(PreambleLines, user);
    UniformsInAppend(PreambleLines, SplitLines(user));
    PreambleLinesDeclare();
  }

  /** A uniform other than the preamble's five, such as `iKeyInput`, is
      declared in the assembled text exactly when the user's text declares it. */
  lemma {:induction false} OnlyUserDeclares(user: string, name: string)
    requires name !in Names(PreambleUniforms)
    ensures Declares(FragPreamble() + user, name) <==> Declares(user, name)
  {
    PreambledUniforms(user);
    NamesAppend(PreambleUniforms, DeclaredUniforms(user));
  }
}
