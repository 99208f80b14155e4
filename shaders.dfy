/** The shader stage both renderers share: the vertex and fragment sources
    are read from `assets/shaders/quad.vert` and `assets/shaders/quad.frag`
    into the transient arena, compiled, and linked into one program. What
    the files hold and what the compiler says are parameters. */
module ShaderSetup {
  import opened Common
  import opened BumpArena
  import opened FileIo

  /** The two files, the two compile statuses, and the names
      `glCreateProgram` and `glGenVertexArrays` return. */
  datatype ShaderOutcome = ShaderOutcome(
    vertFile: FileOnDisk, fragFile: FileOnDisk, vertCompiles: bool, fragCompiles: bool, program: nat, vao: nat)

  /** `ReadFile` reports sizes in an `i32`; the model keeps files below that. */
  predicate SourcesBounded(s: ShaderOutcome)
  {
    |s.vertFile.bytes| < 0x7FFF_FFFF && |s.fragFile.bytes| < 0x7FFF_FFFF
  }

  /** Both sources reach the arena, the vertex one first. */
  predicate ShadersRead(used: nat, capacity: nat, s: ShaderOutcome)
  {
    ReadFits(used, capacity, s.vertFile) && ReadFits(UsedAfterRead(used, capacity, s.vertFile), capacity, s.fragFile)
  }

  /** The arena's `used` after both reads. */
  function ShadersUsed(used: nat, capacity: nat, s: ShaderOutcome): nat
  {
    UsedAfterRead(UsedAfterRead(used, capacity, s.vertFile), capacity, s.fragFile)
  }

  /** The whole stage succeeds: both sources read and both compile. */
  predicate ShadersBuild(used: nat, capacity: nat, s: ShaderOutcome)
  {
    ShadersRead(used, capacity, s) && s.vertCompiles && s.fragCompiles
  }

  /** Reading both sources never moves `used` backwards or past the end, and
      when both are read the arena has taken two aligned pieces holding the
      files and their terminators. */
  lemma ShadersUsedBounds(used: nat, capacity: nat, s: ShaderOutcome)
    requires used <= capacity
    ensures used <= ShadersUsed(used, capacity, s) <= capacity
    ensures ShadersRead(used, capacity, s) ==>
      ShadersUsed(used, capacity, s) == used + AlignUp(|s.vertFile.bytes| + 1) + AlignUp(|s.fragFile.bytes| + 1)
  {
  }

  /** Two openable, non-empty sources are read into a fresh 50 MiB arena
      whenever their sizes, each rounded up with its terminator, sum to at
      most 50 MiB; an unopenable or empty source is never read. */
  lemma FreshArenaReads(s: ShaderOutcome)
    ensures ShadersRead(0, MB(50), s) <==>
      && s.vertFile.opens && |s.vertFile.bytes| > 0 && s.fragFile.opens && |s.fragFile.bytes| > 0
      && AlignUp(|s.vertFile.bytes| + 1) + AlignUp(|s.fragFile.bytes| + 1) <= MB(50)
  {
  }

  /** The two shader reads of `RendererCreateContext` (lines 242 to 245 of
      `opengl_linux.cpp`, 300 to 303 of `opengl_win32.cpp`): both files are
      read into the arena, sharing one size counter, and the result is
      whether neither read yielded null. */
  method ReadShaders(ba: BumpAllocator, s: ShaderOutcome) returns (bothRead: bool)
    requires ba.Valid()
    requires SourcesBounded(s)
    modifies ba`used, ba`contents
    ensures ba.Valid()
    ensures bothRead <==> ShadersRead(old(ba.used), ba.capacity, s)
    ensures ba.used == ShadersUsed(old(ba.used), ba.capacity, s)
  {
    var fileSize := 0;
    var vertShader, fragShader;
    vertShader, fileSize := ReadFile(s.vertFile, ba, fileSize);
    fragShader, fileSize := ReadFile(s.fragFile, ba, fileSize);
    bothRead := vertShader != NULL && fragShader != NULL;
  }
}
