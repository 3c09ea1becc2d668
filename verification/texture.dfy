/** The texture manager: a table from texture names to the OpenGL texture objects
    created for them, used to bind a texture to a texture unit by name. */
module Textures {
  import opened Results
  import opened Shaders

  const TextureNotFound := "called `Option::unwrap()` on a `None` value"

  class TextureManager {
    var textureNameMap: map<string, nat>

    /** `new`: no textures yet. */
    constructor()
      ensures textureNameMap == map[]
    {
      textureNameMap := map[];
    }

    /** `get_texture`: the texture object created under `name`, if any. */
    function GetTexture(name: string): (t: Option<nat>)
      reads this
      ensures t.Some? <==> name in textureNameMap
      ensures t.Some? ==> t.value == textureNameMap[name]
    {
      if name in textureNameMap then Some(textureNameMap[name]) else None
    }

    /** `create_texture`: the new texture object `texture` is bound on the active
        unit while its image is uploaded; then the sampler uniform `name` is pointed
        at texture unit `index` (a missing uniform aborts), and `name -> texture` is
        recorded, replacing any earlier texture of that name. */
    method CreateTexture(gl: Gl, name: string, program: Shader, index: I32, texture: nat) returns (r: Result<()>)
      modifies this, gl`currentProgram, gl`uniforms, gl`textureUnits
      ensures gl.textureUnits == old(gl.textureUnits)[gl.activeUnit := texture]
      ensures r.Err? <==> gl.UniformLocation(program.programId, name) == -1
      ensures r.Err? ==> r.error == UniformNotFound && textureNameMap == old(textureNameMap)
      ensures r.Err? ==> gl.uniforms == old(gl.uniforms) && gl.currentProgram == old(gl.currentProgram)
      ensures r.Ok? ==> gl.currentProgram == program.programId
      ensures r.Ok? ==> gl.uniforms == old(gl.uniforms)[(program.programId, name) := IntVal(index)]
      ensures r.Ok? ==> GetTexture(name) == Some(texture)
      ensures r.Ok? ==> forall other :: other != name ==> GetTexture(other) == old(GetTexture(other))
      ensures r.Ok? ==> textureNameMap.Keys == old(textureNameMap.Keys) + {name}
    {
      gl.textureUnits := gl.textureUnits[gl.activeUnit := texture];
      r := program.SetInt(gl, name, index);
      if r.Err? {
        return;
      }
      textureNameMap := textureNameMap[name := texture];
    }

    /** `bind_texture`: bind the texture created under `name` to `unit`; a name
        never created aborts. */
    method BindTexture(gl: Gl, name: string, unit: nat) returns (r: Result<()>)
      modifies gl`textureUnits
      ensures r.Err? <==> GetTexture(name) == None
      ensures r.Err? ==> r.error == TextureNotFound && gl.textureUnits == old(gl.textureUnits)
      ensures r.Ok? ==> gl.textureUnits == old(gl.textureUnits)[unit := textureNameMap[name]]
    {
      var texture := GetTexture(name);
      match texture {
        case None =>
          r := Err(TextureNotFound);
        case Some(t) =>
          gl.textureUnits := gl.textureUnits[unit := t];
          r := Ok(());
      }
    }
  }

  /** Creating a texture and then binding it by name binds the new texture object. */
  method CreateThenBind(manager: TextureManager, gl: Gl, name: string, program: Shader, index: I32, texture: nat, unit: nat)
    returns (r: Result<()>)
    modifies manager, gl`currentProgram, gl`uniforms, gl`textureUnits
    ensures r.Ok? ==> unit in gl.textureUnits && gl.textureUnits[unit] == texture
    ensures r.Err? <==> gl.UniformLocation(program.programId, name) == -1
  {
    r := manager.CreateTexture(gl, name, program, index, texture);
    if r.Err? {
      return;
    }
    r := manager.BindTexture(gl, name, unit);
  }
}
