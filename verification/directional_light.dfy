/** The older directional light object: a direction synced, with three constant
    colour strengths, to the `light.*` uniforms of the lit-object shader. */
module DirectionalLights {
  import opened Glam
  import opened Results
  import opened Shaders

  const AmbientStrength := Vec3(0.2, 0.2, 0.2)
  const DiffuseStrength := Vec3(0.5, 0.5, 0.5)
  const SpecularStrength := Vec3(1.0, 1.0, 1.0)

  datatype DirectionalLight = DirectionalLight(direction: Vec3) {

    /** The four uniform writes of `sync`, in order. */
    function Writes(): seq<Write> {
      [ Write("light.direction", Vec3Val(direction)),
        Write("light.ambient", Vec3Val(AmbientStrength)),
        Write("light.diffuse", Vec3Val(DiffuseStrength)),
        Write("light.specular", Vec3Val(SpecularStrength)) ]
    }

    /** `sync`: four writes in a fixed order; the first missing name aborts. The
        light itself is a value and is not changed. */
    method Sync(gl: Gl, shader: Shader) returns (r: Result<()>)
      modifies gl`currentProgram, gl`uniforms
      ensures r.Ok? ==> AllActive(gl, shader.programId, Writes())
      ensures r.Err? ==> !AllActive(gl, shader.programId, Writes())
      ensures r.Ok? ==> gl.currentProgram == shader.programId
      ensures r.Ok? ==> gl.uniforms == Upload(old(gl.uniforms), shader.programId, Writes())
      ensures r.Err? ==> r.error == UniformNotFound
    {
      ghost var ws := Writes();
      ghost var p := shader.programId;
      UploadFour(gl.uniforms, p, ws);
      r := shader.SetVec3(gl, "light.direction", direction);
      if r.Err? { assert ws[0] in ws; return; }
      r := shader.SetVec3(gl, "light.ambient", AmbientStrength);
      if r.Err? { assert ws[1] in ws; return; }
      r := shader.SetVec3(gl, "light.diffuse", DiffuseStrength);
      if r.Err? { assert ws[2] in ws; return; }
      r := shader.SetVec3(gl, "light.specular", SpecularStrength);
      if r.Err? { assert ws[3] in ws; return; }
      assert AllActive(gl, p, ws) by {
        forall w | w in ws
          ensures gl.UniformLocation(p, w.name) != -1
        {
        }
      }
    }
  }

  /** `Default`: a light slanting down and away from the viewer. (`new(dir)` is the
      datatype's own constructor.) */
  const Default := DirectionalLight(Vec3(-0.2, -1.0, -0.3))

  /** After a sync, `light.direction` holds the light's direction and the colour
      uniforms hold the three constants. */
  lemma {:induction false} SyncLands(l: DirectionalLight, p: nat, store: map<(nat, string), Value>)
    ensures var u := Upload(store, p, l.Writes());
      Holds(u, (p, "light.direction"), Vec3Val(l.direction)) &&
      Holds(u, (p, "light.ambient"), Vec3Val(AmbientStrength)) &&
      Holds(u, (p, "light.diffuse"), Vec3Val(DiffuseStrength)) &&
      Holds(u, (p, "light.specular"), Vec3Val(SpecularStrength))
  {
    var ws := l.Writes();
    assert NamesDistinct(ws);
    UploadAllLand(store, p, ws);
    assert ws[0].name == "light.direction";
    assert ws[1].name == "light.ambient";
    assert ws[2].name == "light.diffuse";
    assert ws[3].name == "light.specular";
  }
}
