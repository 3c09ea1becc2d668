/** The shader program wrapper and the part of the OpenGL context it drives: which
    program is current, where each uniform lives, and the uniform values. */
module Shaders {
  import opened Glam
  import opened Results

  /** Rust's `i32`, the type of `set_int`'s value. */
  type I32 = x: int | -0x8000_0000 <= x < 0x8000_0000

  /** A column-major 4x4 matrix, as `Mat4::as_ref` lays it out. */
  type Mat4 = m: seq<real> | |m| == 16 witness seq(16, _ => 0.0)

  /** A uniform's value, by the `glUniform*` call that wrote it. */
  datatype Value =
    | IntVal(i: int)
    | FloatVal(f: real)
    | Vec2Val(x: real, y: real)
    | Vec3Val(v: Vec3)
    | Mat4Val(m: Mat4)

  /** What `glGetUniformfv` returns in the first three floats for a stored value. */
  function AsVec3(v: Value): Vec3 {
    match v
    case IntVal(i) => Vec3(i as real, 0.0, 0.0)
    case FloatVal(f) => Vec3(f, 0.0, 0.0)
    case Vec2Val(x, y) => Vec3(x, y, 0.0)
    case Vec3Val(u) => u
    case Mat4Val(m) => Vec3(m[0], m[1], m[2])
  }

  const UniformNotFound := "Uniform ID was returned as -1"

  /** The OpenGL context, restricted to the state the core reads and writes. Uniform
      values are kept by (program, name); OpenGL keeps them by location, and a linked
      program gives each active uniform name a location of its own. */
  class Gl {
    /** `glGetUniformLocation` for every (program, name) that has a location. */
    const locations: map<(nat, string), int>
    /** The program installed by `glUseProgram` (0: none). */
    var currentProgram: nat
    var uniforms: map<(nat, string), Value>
    /** The 2D texture bound on each texture unit: unit -> texture name. */
    var textureUnits: map<nat, nat>
    /** The unit `glActiveTexture` selected, which `glBindTexture` binds on. */
    var activeUnit: nat

    constructor(locations: map<(nat, string), int>)
      ensures this.locations == locations
      ensures currentProgram == 0 && uniforms == map[] && textureUnits == map[] && activeUnit == 0
    {
      this.locations := locations;
      currentProgram := 0;
      uniforms := map[];
      textureUnits := map[];
      activeUnit := 0;
    }

    /** `glGetUniformLocation`: -1 for a name the program does not have. */
    function UniformLocation(program: nat, name: string): int {
      if (program, name) in locations then locations[(program, name)] else -1
    }
  }

  /** One uniform upload: a name and the value written under it. */
  datatype Write = Write(name: string, value: Value)

  /** An entry of a uniform store holds a value. */
  predicate Holds(store: map<(nat, string), Value>, key: (nat, string), v: Value) {
    key in store && store[key] == v
  }

  /** The uniform store after performing the writes in order for one program. */
  function Upload(store: map<(nat, string), Value>, program: nat, writes: seq<Write>): map<(nat, string), Value>
    decreases |writes|
  {
    if writes == [] then store
    else
      var last := writes[|writes| - 1];
      Upload(store, program, writes[..|writes| - 1])[(program, last.name) := last.value]
  }

  /** No two writes name the same uniform. */
  predicate NamesDistinct(writes: seq<Write>) {
    forall i, j :: 0 <= i < j < |writes| ==> writes[i].name != writes[j].name
  }

  /** Every name written has a location in the program. */
  predicate AllActive(gl: Gl, program: nat, writes: seq<Write>) {
    forall w :: w in writes ==> gl.UniformLocation(program, w.name) != -1
  }

  /** Uploading one more write extends the upload of the prefix by one entry. */
  lemma UploadPrefix(store: map<(nat, string), Value>, program: nat, writes: seq<Write>, k: nat)
    requires k < |writes|
    ensures Upload(store, program, writes[..0]) == store
    ensures Upload(store, program, writes[..k + 1]) ==
            Upload(store, program, writes[..k])[(program, writes[k].name) := writes[k].value]
  {
    assert writes[..0] == [];
    assert writes[..k + 1][..k] == writes[..k];
  }

  /** A write that no later write overrides is what the store holds afterwards. */
  lemma {:induction false} UploadLands(store: map<(nat, string), Value>, program: nat, writes: seq<Write>, i: nat)
    requires i < |writes|
    requires forall j :: i < j < |writes| ==> writes[j].name != writes[i].name
    ensures (program, writes[i].name) in Upload(store, program, writes)
    ensures Upload(store, program, writes)[(program, writes[i].name)] == writes[i].value
    decreases |writes|
  {
    if i < |writes| - 1 {
      UploadLands(store, program, writes[..|writes| - 1], i);
    }
  }

  /** Entries of other programs, and of names not written, are untouched. */
  lemma {:induction false} UploadFrame(store: map<(nat, string), Value>, program: nat, writes: seq<Write>, key: (nat, string))
    requires key.0 != program || forall j :: 0 <= j < |writes| ==> writes[j].name != key.1
    ensures key in Upload(store, program, writes) <==> key in store
    ensures key in store ==> Upload(store, program, writes)[key] == store[key]
    decreases |writes|
  {
    if writes != [] {
      UploadFrame(store, program, writes[..|writes| - 1], key);
    }
  }

  /** A record upload of four writes, spelled out as four map updates. */
  lemma UploadFour(store: map<(nat, string), Value>, program: nat, ws: seq<Write>)
    requires |ws| == 4
    ensures Upload(store, program, ws) ==
      store[(program, ws[0].name) := ws[0].value][(program, ws[1].name) := ws[1].value]
           [(program, ws[2].name) := ws[2].value][(program, ws[3].name) := ws[3].value]
  {
    UploadPrefix(store, program, ws, 0);
    UploadPrefix(store, program, ws, 1);
    UploadPrefix(store, program, ws, 2);
    UploadPrefix(store, program, ws, 3);
    assert ws[..4] == ws;
  }

  /** A record upload of three writes, spelled out as three map updates. */
  lemma UploadThree(store: map<(nat, string), Value>, program: nat, ws: seq<Write>)
    requires |ws| == 3
    ensures Upload(store, program, ws) ==
      store[(program, ws[0].name) := ws[0].value][(program, ws[1].name) := ws[1].value]
           [(program, ws[2].name) := ws[2].value]
  {
    UploadPrefix(store, program, ws, 0);
    UploadPrefix(store, program, ws, 1);
    UploadPrefix(store, program, ws, 2);
    assert ws[..3] == ws;
  }

  /** Uploading two runs of writes one after the other is uploading their
      concatenation. */
  lemma {:induction false} UploadAppend(store: map<(nat, string), Value>, program: nat, a: seq<Write>, b: seq<Write>)
    ensures Upload(store, program, a + b) == Upload(Upload(store, program, a), program, b)
    decreases |b|
  {
    if b == [] {
      assert a + b == a;
    } else {
      assert (a + b)[..|a + b| - 1] == a + b[..|b| - 1];
      UploadAppend(store, program, a, b[..|b| - 1]);
    }
  }

  /** A concatenation of runs is active exactly when each run is. */
  lemma AllActiveAppend(gl: Gl, program: nat, a: seq<Write>, b: seq<Write>)
    ensures AllActive(gl, program, a + b) <==> AllActive(gl, program, a) && AllActive(gl, program, b)
  {
  }

  /** With distinct names, every write lands. */
  lemma UploadAllLand(store: map<(nat, string), Value>, program: nat, writes: seq<Write>)
    requires NamesDistinct(writes)
    ensures forall i :: 0 <= i < |writes| ==>
      (program, writes[i].name) in Upload(store, program, writes) &&
      Upload(store, program, writes)[(program, writes[i].name)] == writes[i].value
  {
    forall i | 0 <= i < |writes|
      ensures (program, writes[i].name) in Upload(store, program, writes)
      ensures Upload(store, program, writes)[(program, writes[i].name)] == writes[i].value
    {
      UploadLands(store, program, writes, i);
    }
  }

  /** A linked shader program, identified by its OpenGL name. */
  datatype Shader = Shader(programId: nat) {

    /** `get_id`: the program name the shader was linked as. */
    function GetId(): nat {
      programId
    }

    /** `get_uniform_id`: an error exactly when OpenGL reports location -1. */
    function GetUniformId(gl: Gl, name: string): (r: Result<int>)
      ensures r.Err? <==> gl.UniformLocation(programId, name) == -1
      ensures r.Ok? ==> r.value == gl.UniformLocation(programId, name)
      ensures r.Err? ==> r.error == UniformNotFound
    {
      var id := gl.UniformLocation(programId, name);
      if id == -1 then Err(UniformNotFound) else Ok(id)
    }

    /** `enable`: make the program `get_id` reports current. */
    method Enable(gl: Gl)
      modifies gl`currentProgram
      ensures gl.currentProgram == GetId()
    {
      gl.currentProgram := programId;
    }

    /** The shape shared by every `set_*`: on a lookup error nothing happens; on
        success the program is made current and the value is stored under the name. */
    method SetValue(gl: Gl, name: string, v: Value) returns (r: Result<()>)
      modifies gl`currentProgram, gl`uniforms
      ensures r.Err? <==> gl.UniformLocation(programId, name) == -1
      ensures r.Err? ==> r.error == UniformNotFound
      ensures r.Err? ==> gl.currentProgram == old(gl.currentProgram) && gl.uniforms == old(gl.uniforms)
      ensures r.Ok? ==> gl.currentProgram == programId
      ensures r.Ok? ==> gl.uniforms == old(gl.uniforms)[(programId, name) := v]
    {
      match GetUniformId(gl, name) {
        case Ok(id) =>
          Enable(gl);
          gl.uniforms := gl.uniforms[(programId, name) := v];
          r := Ok(());
        case Err(err) =>
          r := Err(err);
      }
    }

    /** `set_bool`: the boolean is written as the integer 1 or 0. */
    method SetBool(gl: Gl, name: string, val: bool) returns (r: Result<()>)
      modifies gl`currentProgram, gl`uniforms
      ensures r.Err? <==> gl.UniformLocation(programId, name) == -1
      ensures r.Err? ==> r.error == UniformNotFound
      ensures r.Err? ==> gl.currentProgram == old(gl.currentProgram) && gl.uniforms == old(gl.uniforms)
      ensures r.Ok? ==> gl.currentProgram == programId
      ensures r.Ok? ==> gl.uniforms == old(gl.uniforms)[(programId, name) := IntVal(if val then 1 else 0)]
    {
      r := SetValue(gl, name, IntVal(if val then 1 else 0));
    }

    method SetInt(gl: Gl, name: string, val: I32) returns (r: Result<()>)
      modifies gl`currentProgram, gl`uniforms
      ensures r.Err? <==> gl.UniformLocation(programId, name) == -1
      ensures r.Err? ==> r.error == UniformNotFound
      ensures r.Err? ==> gl.currentProgram == old(gl.currentProgram) && gl.uniforms == old(gl.uniforms)
      ensures r.Ok? ==> gl.currentProgram == programId
      ensures r.Ok? ==> gl.uniforms == old(gl.uniforms)[(programId, name) := IntVal(val)]
    {
      r := SetValue(gl, name, IntVal(val));
    }

    method SetFloat(gl: Gl, name: string, val: real) returns (r: Result<()>)
      modifies gl`currentProgram, gl`uniforms
      ensures r.Err? <==> gl.UniformLocation(programId, name) == -1
      ensures r.Err? ==> r.error == UniformNotFound
      ensures r.Err? ==> gl.currentProgram == old(gl.currentProgram) && gl.uniforms == old(gl.uniforms)
      ensures r.Ok? ==> gl.currentProgram == programId
      ensures r.Ok? ==> gl.uniforms == old(gl.uniforms)[(programId, name) := FloatVal(val)]
    {
      r := SetValue(gl, name, FloatVal(val));
    }

    method SetVec2(gl: Gl, name: string, val: (real, real)) returns (r: Result<()>)
      modifies gl`currentProgram, gl`uniforms
      ensures r.Err? <==> gl.UniformLocation(programId, name) == -1
      ensures r.Err? ==> r.error == UniformNotFound
      ensures r.Err? ==> gl.currentProgram == old(gl.currentProgram) && gl.uniforms == old(gl.uniforms)
      ensures r.Ok? ==> gl.currentProgram == programId
      ensures r.Ok? ==> gl.uniforms == old(gl.uniforms)[(programId, name) := Vec2Val(val.0, val.1)]
    {
      r := SetValue(gl, name, Vec2Val(val.0, val.1));
    }

    method SetVec3(gl: Gl, name: string, val: Vec3) returns (r: Result<()>)
      modifies gl`currentProgram, gl`uniforms
      ensures r.Err? <==> gl.UniformLocation(programId, name) == -1
      ensures r.Err? ==> r.error == UniformNotFound
      ensures r.Err? ==> gl.currentProgram == old(gl.currentProgram) && gl.uniforms == old(gl.uniforms)
      ensures r.Ok? ==> gl.currentProgram == programId
      ensures r.Ok? ==> gl.uniforms == old(gl.uniforms)[(programId, name) := Vec3Val(val)]
    {
      r := SetValue(gl, name, Vec3Val(val));
    }

    method SetMat4(gl: Gl, name: string, val: Mat4) returns (r: Result<()>)
      modifies gl`currentProgram, gl`uniforms
      ensures r.Err? <==> gl.UniformLocation(programId, name) == -1
      ensures r.Err? ==> r.error == UniformNotFound
      ensures r.Err? ==> gl.currentProgram == old(gl.currentProgram) && gl.uniforms == old(gl.uniforms)
      ensures r.Ok? ==> gl.currentProgram == programId
      ensures r.Ok? ==> gl.uniforms == old(gl.uniforms)[(programId, name) := Mat4Val(val)]
    {
      r := SetValue(gl, name, Mat4Val(val));
    }

    /** `get_vec3`: after a lookup, make the program current and read the first
        three floats of the uniform (zeros for one never written). */
    method GetVec3(gl: Gl, name: string) returns (r: Result<Vec3>)
      modifies gl`currentProgram
      ensures r.Err? <==> gl.UniformLocation(programId, name) == -1
      ensures r.Err? ==> r.error == UniformNotFound
      ensures r.Err? ==> gl.currentProgram == old(gl.currentProgram)
      ensures r.Ok? ==> gl.currentProgram == programId
      ensures r.Ok? ==> r.value == (if (programId, name) in gl.uniforms then AsVec3(gl.uniforms[(programId, name)]) else Zero)
    {
      match GetUniformId(gl, name) {
        case Ok(id) =>
          Enable(gl);
          var key := (programId, name);
          r := Ok(if key in gl.uniforms then AsVec3(gl.uniforms[key]) else Zero);
        case Err(err) =>
          r := Err(err);
      }
    }

    /** `get_uniform`: a handle on the uniform's location; a missing name aborts. */
    function GetUniform(gl: Gl, name: string): (r: Result<Uniform>)
      ensures r.Err? <==> gl.UniformLocation(programId, name) == -1
      ensures r.Ok? ==> r.value.shaderId == programId && r.value.uniformId == gl.UniformLocation(programId, name)
    {
      match GetUniformId(gl, name)
      case Ok(id) => Ok(Uniform(programId, id))
      case Err(err) => Err(err)
    }
  }

  /** The handle `get_uniform` returns. */
  datatype Uniform = Uniform(shaderId: nat, uniformId: int)

  /** `set_vec3` followed by `get_vec3` on the same name reads back the vector. */
  method SetThenGetVec3(shader: Shader, gl: Gl, name: string, v: Vec3) returns (read: Result<Vec3>)
    modifies gl`currentProgram, gl`uniforms
    ensures gl.UniformLocation(shader.programId, name) != -1 ==> read == Ok(v)
    ensures gl.UniformLocation(shader.programId, name) == -1 ==> read.Err?
  {
    var w := shader.SetVec3(gl, name, v);
    read := shader.GetVec3(gl, name);
  }
}
