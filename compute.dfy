/** The compute-shader side of nebulatracer.cpp: the `programs` table as the
    state of one GL context, program loading, and the two dispatch paths.
    Every GL call that returns something the model needs (the program handle,
    compile and link status, the mapped output buffer, HashLink's allocation)
    is a parameter. */
module Compute {
  import opened Basics
  import opened ProgramTable

  /** What the source writes to standard error. */
  datatype Diagnostic = CompileFailed | LinkFailed | MapFailed

  datatype LoadedProgram = LoadedProgram(program: uint32, log: seq<Diagnostic>)

  /** `loadComputeShader`: `created` is what `CreateProgram` returned,
      `compiled`/`linked` the status queries. The program is returned whatever
      the statuses; a failure is only logged, compile before link. */
  function LoadComputeShader(created: uint32, compiled: bool, linked: bool): (r: LoadedProgram)
    ensures r.program == created
    ensures CompileFailed in r.log <==> !compiled
    ensures LinkFailed in r.log <==> !linked
    ensures MapFailed !in r.log
    ensures !compiled && !linked ==> r.log == [CompileFailed, LinkFailed]
  {
    LoadedProgram(created, (if compiled then [] else [CompileFailed]) + (if linked then [] else [LinkFailed]))
  }

  /** The GPU side of a dispatch: given the bound program, the host's input
      buffer and `sizeInBytesIn` as passed (the upload by `BufferData` is GL's
      business), the group counts and `sizeInBytesOut`, the contents of the
      output buffer that `MapBuffer` exposes, or `None` when it returns null. */
  type Dispatcher = (uint32, seq<byte>, int, int, int, int, int) -> Option<seq<byte>>

  /** `hl_alloc_bytes(sizeOut)` then, when mapping succeeded, `memcpy` of all
      `sizeOut` bytes of the mapped output buffer over it. `buffer` is the fresh
      allocation as HashLink gave it. The mapped buffer was created with
      `sizeOut` bytes, so it is exactly as long as the allocation. */
  function ReadBack(mapped: Option<seq<byte>>, buffer: seq<byte>): (r: seq<byte>)
    requires mapped.Some? ==> |mapped.value| == |buffer|
    ensures |r| == |buffer|
    ensures mapped.None? ==> r == buffer
    ensures mapped.Some? ==> forall k :: 0 <= k < |buffer| ==> r[k] == mapped.value[k]
  {
    match mapped
    case None => buffer
    case Some(bytes) => bytes
  }

  class ComputeContext {
    /** `programs`: compiled programs by id. */
    var programs: Table
    /** The program the context has bound with `UseProgram` (0: none). */
    var current: uint32

    constructor ()
      ensures programs == map[] && current == 0
    {
      programs := map[];
      current := 0;
    }

    /** `create_compute_shader`: loads a program and stores it under
        `|programs| + 1`, overwriting a live program if that key is taken. */
    method CreateComputeShader(created: uint32, compiled: bool, linked: bool) returns (log: seq<Diagnostic>)
      modifies this
      ensures programs == AfterCreate(old(programs), created)
      ensures current == old(current)
      ensures log == LoadComputeShader(created, compiled, linked).log
    {
      var loaded := LoadComputeShader(created, compiled, linked);
      programs := programs[|programs| + 1 := loaded.program];
      log := loaded.log;
    }

    /** `set_compute_shader`: binds `programs[id]`; an absent id is
        default-inserted with 0, so 0 (no program) is bound. */
    method SetComputeShader(id: int)
      modifies this
      ensures current == Subscript(old(programs), id).0
      ensures programs == Subscript(old(programs), id).1
    {
      var read := Subscript(programs, id);
      programs := read.1;
      current := read.0;
    }

    /** `remove_compute_shader`: deletes `programs[id]` (0 when absent, which
        the read default-inserts) and erases the key. Returns the handle passed
        to `DeleteProgram`. */
    method RemoveComputeShader(id: int) returns (deleted: uint32)
      modifies this
      ensures deleted == Subscript(old(programs), id).0
      ensures programs == AfterRemove(old(programs), id)
      ensures current == old(current)
    {
      var read := Subscript(programs, id);
      programs := read.1;
      deleted := read.0;
      programs := programs - {id};
    }

    /** `run_compute_shader`: hands the input to the GPU, reads
        `programs[id]` (default-inserting an absent id) but does not bind it,
        so the dispatch runs the program already bound, and returns a buffer
        of exactly `sizeInBytesOut` bytes whether or not mapping succeeded. */
    method RunComputeShader(id: int, dataIn: seq<byte>, groupsX: int, groupsY: int, groupsZ: int,
                            sizeInBytesIn: int, sizeInBytesOut: int, gpu: Dispatcher, buffer: seq<byte>)
      returns (dataOut: seq<byte>, log: seq<Diagnostic>)
      requires |buffer| == sizeInBytesOut
      requires var mapped := gpu(current, dataIn, sizeInBytesIn, groupsX, groupsY, groupsZ, sizeInBytesOut);
               mapped.Some? ==> |mapped.value| == sizeInBytesOut
      modifies this
      ensures programs == Subscript(old(programs), id).1
      ensures current == old(current)
      ensures |dataOut| == sizeInBytesOut
      ensures dataOut == ReadBack(gpu(old(current), dataIn, sizeInBytesIn, groupsX, groupsY, groupsZ, sizeInBytesOut), buffer)
      ensures log == if gpu(old(current), dataIn, sizeInBytesIn, groupsX, groupsY, groupsZ, sizeInBytesOut).None?
                     then [MapFailed] else []
    {
      var read := Subscript(programs, id);
      programs := read.1;
      var mapped := gpu(current, dataIn, sizeInBytesIn, groupsX, groupsY, groupsZ, sizeInBytesOut);
      dataOut := ReadBack(mapped, buffer);
      log := if mapped.None? then [MapFailed] else [];
    }

    /** `run_compute_shader_from_src`: loads a program, binds it and
        dispatches, then deletes it; the table is untouched and the output has
        exactly `sizeInBytesOut` bytes. `UseProgram` refuses a program whose
        link failed, so the earlier binding stays and that program runs. A
        bound program stays bound after `DeleteProgram`. */
    method RunComputeShaderFromSrc(created: uint32, compiled: bool, linked: bool, dataIn: seq<byte>,
                                   groupsX: int, groupsY: int, groupsZ: int,
                                   sizeInBytesIn: int, sizeInBytesOut: int, gpu: Dispatcher, buffer: seq<byte>)
      returns (dataOut: seq<byte>, log: seq<Diagnostic>)
      requires |buffer| == sizeInBytesOut
      requires var mapped := gpu(if linked then created else current, dataIn, sizeInBytesIn,
                                 groupsX, groupsY, groupsZ, sizeInBytesOut);
               mapped.Some? ==> |mapped.value| == sizeInBytesOut
      modifies this
      ensures programs == old(programs)
      ensures current == if linked then created else old(current)
      ensures |dataOut| == sizeInBytesOut
      ensures dataOut == ReadBack(gpu(current, dataIn, sizeInBytesIn, groupsX, groupsY, groupsZ, sizeInBytesOut), buffer)
      ensures log == LoadComputeShader(created, compiled, linked).log
                     + (if gpu(current, dataIn, sizeInBytesIn, groupsX, groupsY, groupsZ, sizeInBytesOut).None?
                        then [MapFailed] else [])
    {
      var loaded := LoadComputeShader(created, compiled, linked);
      if linked {
        current := loaded.program;
      }
      var mapped := gpu(current, dataIn, sizeInBytesIn, groupsX, groupsY, groupsZ, sizeInBytesOut);
      dataOut := ReadBack(mapped, buffer);
      log := loaded.log + if mapped.None? then [MapFailed] else [];
    }
  }
}
