/** The direction light (a light at infinity): a record of a direction and three
    colour strengths, re-uploaded to the `dirLight.*` uniforms when it changes. */
module DirectionLights {
  import opened Glam
  import opened Results
  import opened Shaders

  const DirectionDefault := Vec3(0.0, 0.0, -1.0)
  const AmbientDefault := Vec3(0.2, 0.2, 0.2)
  const DiffuseDefault := Vec3(0.5, 0.5, 0.5)
  const SpecularDefault := Vec3(1.0, 1.0, 1.0)

  /** The writes `new` makes: the default record uploaded, in `sync_state`'s order. */
  function DefaultWrites(): seq<Write> {
    [ Write("dirLight.direction", Vec3Val(DirectionDefault)),
      Write("dirLight.ambient", Vec3Val(AmbientDefault)),
      Write("dirLight.diffuse", Vec3Val(DiffuseDefault)),
      Write("dirLight.specular", Vec3Val(SpecularDefault)) ]
  }

  class DirectionLightAttributes {
    const boundShader: Shader
    var direction: Vec3
    var ambient: Vec3
    var diffuse: Vec3
    var specular: Vec3

    /** Every field but the direction (the colours) is as it was. */
    twostate predicate OnlyDirectionChanged()
      reads this
    {
      ambient == old(ambient) && diffuse == old(diffuse) && specular == old(specular)
    }

    /** The record with its default values, before anything is uploaded. */
    constructor(boundShader: Shader)
      ensures this.boundShader == boundShader && direction == DirectionDefault
      ensures ambient == AmbientDefault && diffuse == DiffuseDefault && specular == SpecularDefault
    {
      this.boundShader := boundShader;
      direction := DirectionDefault;
      ambient := AmbientDefault;
      diffuse := DiffuseDefault;
      specular := SpecularDefault;
    }

    /** The four uniform writes of `sync_state`, in order. */
    function Writes(): seq<Write>
      reads this
    {
      [ Write("dirLight.direction", Vec3Val(direction)),
        Write("dirLight.ambient", Vec3Val(ambient)),
        Write("dirLight.diffuse", Vec3Val(diffuse)),
        Write("dirLight.specular", Vec3Val(specular)) ]
    }

    /** `new`: build the default record and upload it; a missing uniform aborts. */
    static method New(gl: Gl, boundShader: Shader) returns (r: Result<DirectionLightAttributes>)
      modifies gl`currentProgram, gl`uniforms
      ensures r.Ok? ==> fresh(r.value) && r.value.boundShader == boundShader
      ensures r.Ok? ==> r.value.direction == DirectionDefault && r.value.ambient == AmbientDefault
      ensures r.Ok? ==> r.value.diffuse == DiffuseDefault && r.value.specular == SpecularDefault
      ensures r.Ok? ==> gl.currentProgram == boundShader.programId
      ensures r.Ok? ==> gl.uniforms == Upload(old(gl.uniforms), boundShader.programId, r.value.Writes())
      ensures r.Ok? <==> AllActive(gl, boundShader.programId, DefaultWrites())
      ensures r.Ok? ==> gl.uniforms == Upload(old(gl.uniforms), boundShader.programId, DefaultWrites())
      ensures r.Err? ==> r.error == UniformNotFound
    {
      var attrs := new DirectionLightAttributes(boundShader);
      assert attrs.Writes() == DefaultWrites();
      var synced := attrs.SyncState(gl);
      if synced.Err? {
        return Err(synced.error);
      }
      r := Ok(attrs);
    }

    /** `set_dir`: change the direction only, then upload the whole record. No
        other member writes the colours, so they keep their construction values. */
    method SetDir(gl: Gl, dir: Vec3) returns (r: Result<()>)
      modifies this`direction, gl`currentProgram, gl`uniforms
      ensures direction == dir && OnlyDirectionChanged()
      ensures r.Ok? <==> AllActive(gl, boundShader.programId, Writes())
      ensures r.Ok? ==> gl.currentProgram == boundShader.programId
      ensures r.Ok? ==> gl.uniforms == Upload(old(gl.uniforms), boundShader.programId, Writes())
      ensures r.Err? ==> r.error == UniformNotFound
    {
      direction := dir;
      r := SyncState(gl);
    }

    /** `sync_state`: four writes in a fixed order; the first missing name aborts. */
    method SyncState(gl: Gl) returns (r: Result<()>)
      modifies gl`currentProgram, gl`uniforms
      ensures r.Ok? ==> AllActive(gl, boundShader.programId, Writes())
      ensures r.Err? ==> !AllActive(gl, boundShader.programId, Writes())
      ensures r.Ok? ==> gl.currentProgram == boundShader.programId
      ensures r.Ok? ==> gl.uniforms == Upload(old(gl.uniforms), boundShader.programId, Writes())
      ensures r.Err? ==> r.error == UniformNotFound
    {
      ghost var ws := Writes();
      ghost var p := boundShader.programId;
      UploadFour(gl.uniforms, p, ws);
      r := boundShader.SetVec3(gl, "dirLight.direction", direction);
      if r.Err? { assert ws[0] in ws; return; }
      r := boundShader.SetVec3(gl, "dirLight.ambient", ambient);
      if r.Err? { assert ws[1] in ws; return; }
      r := boundShader.SetVec3(gl, "dirLight.diffuse", diffuse);
      if r.Err? { assert ws[2] in ws; return; }
      r := boundShader.SetVec3(gl, "dirLight.specular", specular);
      if r.Err? { assert ws[3] in ws; return; }
      assert AllActive(gl, p, ws) by {
        forall w | w in ws
          ensures gl.UniformLocation(p, w.name) != -1
        {
        }
      }
    }
  }

  /** After a sync the four `dirLight.*` uniforms hold the record. */
  lemma {:induction false} SyncLands(attrs: DirectionLightAttributes, store: map<(nat, string), Value>)
    ensures var p := attrs.boundShader.programId;
      var u := Upload(store, p, attrs.Writes());
      Holds(u, (p, "dirLight.direction"), Vec3Val(attrs.direction)) &&
      Holds(u, (p, "dirLight.ambient"), Vec3Val(attrs.ambient)) &&
      Holds(u, (p, "dirLight.diffuse"), Vec3Val(attrs.diffuse)) &&
      Holds(u, (p, "dirLight.specular"), Vec3Val(attrs.specular))
  {
    var ws := attrs.Writes();
    assert NamesDistinct(ws);
    UploadAllLand(store, attrs.boundShader.programId, ws);
    assert ws[0].name == "dirLight.direction";
    assert ws[1].name == "dirLight.ambient";
    assert ws[2].name == "dirLight.diffuse";
    assert ws[3].name == "dirLight.specular";
  }

  /** The direction light as a `Light`: just its record. */
  class DirectionLight {
    const attrs: DirectionLightAttributes

    constructor Assemble(attrs: DirectionLightAttributes)
      ensures this.attrs == attrs
    {
      this.attrs := attrs;
    }

    /** `DirectionLight::new`: a freshly uploaded default record. */
    static method New(gl: Gl, litObjectShader: Shader) returns (r: Result<DirectionLight>)
      modifies gl`currentProgram, gl`uniforms
      ensures r.Ok? ==> fresh(r.value) && fresh(r.value.attrs) && r.value.attrs.boundShader == litObjectShader
      ensures r.Ok? ==> r.value.Dir() == DirectionDefault && r.value.attrs.ambient == AmbientDefault
      ensures r.Ok? ==> r.value.attrs.diffuse == DiffuseDefault && r.value.attrs.specular == SpecularDefault
      ensures r.Ok? ==> gl.currentProgram == litObjectShader.programId
      ensures r.Ok? ==> gl.uniforms == Upload(old(gl.uniforms), litObjectShader.programId, r.value.attrs.Writes())
      ensures r.Ok? <==> AllActive(gl, litObjectShader.programId, DefaultWrites())
      ensures r.Err? ==> r.error == UniformNotFound
    {
      var attrs := DirectionLightAttributes.New(gl, litObjectShader);
      if attrs.Err? {
        return Err(attrs.error);
      }
      var light := new DirectionLight.Assemble(attrs.value);
      r := Ok(light);
    }

    /** `pos`: a light at infinity has no position, and none is uploaded. */
    function Pos(): (p: Vec3)
      reads attrs
      ensures p == Zero
      ensures forall w :: w in attrs.Writes() ==> w.name != "dirLight.position"
    {
      Zero
    }

    /** `dir`: the direction the light's record uploads. */
    function Dir(): (d: Vec3)
      reads attrs
      ensures Write("dirLight.direction", Vec3Val(d)) in attrs.Writes()
    {
      attrs.direction
    }
  }
}
