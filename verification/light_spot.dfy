/** The spot light: an attribute record re-uploaded, whole, to the `spotLight.*`
    uniforms after every change, with its cutoff angles sent as cosines. */
module SpotLights {
  import opened Glam
  import opened Results
  import opened Shaders

  const PositionDefault := Vec3(0.0, 2.0, 0.0)
  const DirectionDefault := Vec3(0.0, 0.0, -1.0)
  const InnerCutoffDefault := 12.5
  const OuterCutoffDefault := 14.5
  const AmbientDefault := Vec3(0.0, 0.0, 0.0)
  const DiffuseDefault := Vec3(0.5, 0.5, 0.5)
  const SpecularDefault := Vec3(1.0, 1.0, 1.0)
  const ConstantDefault := 1.0
  const LinearDefault := 0.09
  const QuadraticDefault := 0.032

  /** The writes `new` makes: the default record uploaded, in `sync_state`'s order. */
  function DefaultWrites(math: MathLib): seq<Write> {
    [ Write("spotLight.position", Vec3Val(PositionDefault)),
      Write("spotLight.direction", Vec3Val(DirectionDefault)),
      Write("spotLight.innerCutOff", CutoffUniform(math, InnerCutoffDefault)),
      Write("spotLight.outerCutOff", CutoffUniform(math, OuterCutoffDefault)),
      Write("spotLight.ambient", Vec3Val(AmbientDefault)),
      Write("spotLight.diffuse", Vec3Val(DiffuseDefault)),
      Write("spotLight.specular", Vec3Val(SpecularDefault)),
      Write("spotLight.constant", FloatVal(ConstantDefault)),
      Write("spotLight.linear", FloatVal(LinearDefault)),
      Write("spotLight.quadratic", FloatVal(QuadraticDefault)) ]
  }

  /** What the shader receives for a cutoff angle in degrees: its cosine. */
  function CutoffUniform(math: MathLib, degrees: real): Value {
    FloatVal(math.cos(math.toRadians(degrees)))
  }

  class SpotLightAttributes {
    const math: MathLib
    const boundShader: Shader
    var position: Vec3
    var direction: Vec3
    var innerCutoff: real
    var outerCutoff: real
    var ambient: Vec3
    var diffuse: Vec3
    var specular: Vec3
    var constant: real
    var linear: real
    var quadratic: real

    /** The cutoffs, colours and attenuation are as they were. */
    twostate predicate KeepsCutoffsAndColours()
      reads this
    {
      && innerCutoff == old(innerCutoff) && outerCutoff == old(outerCutoff)
      && ambient == old(ambient) && diffuse == old(diffuse) && specular == old(specular)
      && constant == old(constant) && linear == old(linear) && quadratic == old(quadratic)
    }

    /** Every field but the position is as it was. */
    twostate predicate OnlyPositionChanged()
      reads this
    {
      direction == old(direction) && KeepsCutoffsAndColours()
    }

    /** Every field but the direction is as it was. */
    twostate predicate OnlyDirectionChanged()
      reads this
    {
      position == old(position) && KeepsCutoffsAndColours()
    }

    /** The record with its default values, before anything is uploaded. */
    constructor(math: MathLib, boundShader: Shader)
      ensures this.math == math && this.boundShader == boundShader
      ensures position == PositionDefault && direction == DirectionDefault
      ensures innerCutoff == InnerCutoffDefault && outerCutoff == OuterCutoffDefault
      ensures ambient == AmbientDefault && diffuse == DiffuseDefault && specular == SpecularDefault
      ensures constant == ConstantDefault && linear == LinearDefault && quadratic == QuadraticDefault
    {
      this.math := math;
      this.boundShader := boundShader;
      position := PositionDefault;
      direction := DirectionDefault;
      innerCutoff := InnerCutoffDefault;
      outerCutoff := OuterCutoffDefault;
      ambient := AmbientDefault;
      diffuse := DiffuseDefault;
      specular := SpecularDefault;
      constant := ConstantDefault;
      linear := LinearDefault;
      quadratic := QuadraticDefault;
    }

    /** The first four writes of `sync_state`: where the cone is and how wide. */
    function PlacementWrites(): seq<Write>
      reads this
    {
      [ Write("spotLight.position", Vec3Val(position)),
        Write("spotLight.direction", Vec3Val(direction)),
        Write("spotLight.innerCutOff", CutoffUniform(math, innerCutoff)),
        Write("spotLight.outerCutOff", CutoffUniform(math, outerCutoff)) ]
    }

    /** The next three: the strength of each kind of lighting. */
    function ColourWrites(): seq<Write>
      reads this
    {
      [ Write("spotLight.ambient", Vec3Val(ambient)),
        Write("spotLight.diffuse", Vec3Val(diffuse)),
        Write("spotLight.specular", Vec3Val(specular)) ]
    }

    /** The last three: the attenuation coefficients. */
    function AttenuationWrites(): seq<Write>
      reads this
    {
      [ Write("spotLight.constant", FloatVal(constant)),
        Write("spotLight.linear", FloatVal(linear)),
        Write("spotLight.quadratic", FloatVal(quadratic)) ]
    }

    /** The ten uniform writes of `sync_state`, in order. */
    function Writes(): (ws: seq<Write>)
      reads this
    {
      PlacementWrites() + ColourWrites() + AttenuationWrites()
    }

    /** `new`: build the default record and upload it; a missing uniform aborts. */
    static method New(gl: Gl, math: MathLib, boundShader: Shader) returns (r: Result<SpotLightAttributes>)
      modifies gl`currentProgram, gl`uniforms
      ensures r.Ok? ==> fresh(r.value) && r.value.math == math && r.value.boundShader == boundShader
      ensures r.Ok? ==> r.value.position == PositionDefault && r.value.direction == DirectionDefault
      ensures r.Ok? ==> r.value.innerCutoff == InnerCutoffDefault && r.value.outerCutoff == OuterCutoffDefault
      ensures r.Ok? ==> r.value.ambient == AmbientDefault && r.value.diffuse == DiffuseDefault
      ensures r.Ok? ==> r.value.specular == SpecularDefault && r.value.constant == ConstantDefault
      ensures r.Ok? ==> r.value.linear == LinearDefault && r.value.quadratic == QuadraticDefault
      ensures r.Ok? ==> gl.currentProgram == boundShader.programId
      ensures r.Ok? ==> gl.uniforms == Upload(old(gl.uniforms), boundShader.programId, r.value.Writes())
      ensures r.Ok? <==> AllActive(gl, boundShader.programId, DefaultWrites(math))
      ensures r.Ok? ==> gl.uniforms == Upload(old(gl.uniforms), boundShader.programId, DefaultWrites(math))
      ensures r.Err? ==> r.error == UniformNotFound
    {
      var attrs := new SpotLightAttributes(math, boundShader);
      assert attrs.Writes() == DefaultWrites(math);
      var synced := attrs.SyncState(gl);
      if synced.Err? {
        return Err(synced.error);
      }
      r := Ok(attrs);
    }

    /** `set_pos`: change the position only, then upload the whole record. */
    method SetPos(gl: Gl, pos: Vec3) returns (r: Result<()>)
      modifies this`position, gl`currentProgram, gl`uniforms
      ensures position == pos && OnlyPositionChanged()
      ensures r.Ok? <==> AllActive(gl, boundShader.programId, Writes())
      ensures r.Ok? ==> gl.currentProgram == boundShader.programId
      ensures r.Ok? ==> gl.uniforms == Upload(old(gl.uniforms), boundShader.programId, Writes())
      ensures r.Err? ==> r.error == UniformNotFound
    {
      position := pos;
      r := SyncState(gl);
    }

    /** `set_dir`: change the direction only, then upload the whole record. */
    method SetDir(gl: Gl, dir: Vec3) returns (r: Result<()>)
      modifies this`direction, gl`currentProgram, gl`uniforms
      ensures direction == dir && OnlyDirectionChanged()
      ensures r.Ok? <==> AllActive(gl, boundShader.programId, Writes())
      ensures r.Ok? ==> gl.currentProgram == boundShader.programId
      ensures r.Ok? ==> gl.uniforms == Upload(old(gl.uniforms), boundShader.programId, Writes())
      ensures r.Err? ==> r.error == UniformNotFound
    {
      direction := dir;
      r := SyncState(gl);
    }

    /** `sync_state`: ten writes in a fixed order; the first missing name aborts. */
    method SyncState(gl: Gl) returns (r: Result<()>)
      modifies gl`currentProgram, gl`uniforms
      ensures r.Ok? ==> AllActive(gl, boundShader.programId, Writes())
      ensures r.Err? ==> !AllActive(gl, boundShader.programId, Writes())
      ensures r.Ok? ==> gl.currentProgram == boundShader.programId
      ensures r.Ok? ==> gl.uniforms == Upload(old(gl.uniforms), boundShader.programId, Writes())
      ensures r.Err? ==> r.error == UniformNotFound
    {
      ghost var p := boundShader.programId;
      ghost var a, b, c := PlacementWrites(), ColourWrites(), AttenuationWrites();
      AllActiveAppend(gl, p, a, b);
      AllActiveAppend(gl, p, a + b, c);
      r := SyncPlacement(gl);
      if r.Err? { return; }
      ghost var afterA := gl.uniforms;
      r := SyncColours(gl);
      if r.Err? { return; }
      ghost var afterB := gl.uniforms;
      r := SyncAttenuation(gl);
      if r.Err? { return; }
      UploadAppend(old(gl.uniforms), p, a, b);
      UploadAppend(old(gl.uniforms), p, a + b, c);
    }

    /** The placement writes of `sync_state`, cutoffs sent as cosines. */
    method SyncPlacement(gl: Gl) returns (r: Result<()>)
      modifies gl`currentProgram, gl`uniforms
      ensures r.Ok? ==> AllActive(gl, boundShader.programId, PlacementWrites())
      ensures r.Err? ==> !AllActive(gl, boundShader.programId, PlacementWrites())
      ensures r.Ok? ==> gl.currentProgram == boundShader.programId
      ensures r.Ok? ==> gl.uniforms == Upload(old(gl.uniforms), boundShader.programId, PlacementWrites())
      ensures r.Err? ==> r.error == UniformNotFound
    {
      ghost var ws := PlacementWrites();
      ghost var p := boundShader.programId;
      UploadFour(gl.uniforms, p, ws);
      r := boundShader.SetVec3(gl, "spotLight.position", position);
      if r.Err? { assert ws[0] in ws; return; }
      r := boundShader.SetVec3(gl, "spotLight.direction", direction);
      if r.Err? { assert ws[1] in ws; return; }
      r := boundShader.SetFloat(gl, "spotLight.innerCutOff", math.cos(math.toRadians(innerCutoff)));
      if r.Err? { assert ws[2] in ws; return; }
      r := boundShader.SetFloat(gl, "spotLight.outerCutOff", math.cos(math.toRadians(outerCutoff)));
      if r.Err? { assert ws[3] in ws; return; }
      assert AllActive(gl, p, ws) by {
        forall w | w in ws
          ensures gl.UniformLocation(p, w.name) != -1
        {
        }
      }
    }

    /** The colour writes of `sync_state`. */
    method SyncColours(gl: Gl) returns (r: Result<()>)
      modifies gl`currentProgram, gl`uniforms
      ensures r.Ok? ==> AllActive(gl, boundShader.programId, ColourWrites())
      ensures r.Err? ==> !AllActive(gl, boundShader.programId, ColourWrites())
      ensures r.Ok? ==> gl.currentProgram == boundShader.programId
      ensures r.Ok? ==> gl.uniforms == Upload(old(gl.uniforms), boundShader.programId, ColourWrites())
      ensures r.Err? ==> r.error == UniformNotFound
    {
      ghost var ws := ColourWrites();
      ghost var p := boundShader.programId;
      UploadThree(gl.uniforms, p, ws);
      r := boundShader.SetVec3(gl, "spotLight.ambient", ambient);
      if r.Err? { assert ws[0] in ws; return; }
      r := boundShader.SetVec3(gl, "spotLight.diffuse", diffuse);
      if r.Err? { assert ws[1] in ws; return; }
      r := boundShader.SetVec3(gl, "spotLight.specular", specular);
      if r.Err? { assert ws[2] in ws; return; }
      assert AllActive(gl, p, ws) by {
        forall w | w in ws
          ensures gl.UniformLocation(p, w.name) != -1
        {
        }
      }
    }

    /** The attenuation writes of `sync_state`. */
    method SyncAttenuation(gl: Gl) returns (r: Result<()>)
      modifies gl`currentProgram, gl`uniforms
      ensures r.Ok? ==> AllActive(gl, boundShader.programId, AttenuationWrites())
      ensures r.Err? ==> !AllActive(gl, boundShader.programId, AttenuationWrites())
      ensures r.Ok? ==> gl.currentProgram == boundShader.programId
      ensures r.Ok? ==> gl.uniforms == Upload(old(gl.uniforms), boundShader.programId, AttenuationWrites())
      ensures r.Err? ==> r.error == UniformNotFound
    {
      ghost var ws := AttenuationWrites();
      ghost var p := boundShader.programId;
      UploadThree(gl.uniforms, p, ws);
      r := boundShader.SetFloat(gl, "spotLight.constant", constant);
      if r.Err? { assert ws[0] in ws; return; }
      r := boundShader.SetFloat(gl, "spotLight.linear", linear);
      if r.Err? { assert ws[1] in ws; return; }
      r := boundShader.SetFloat(gl, "spotLight.quadratic", quadratic);
      if r.Err? { assert ws[2] in ws; return; }
      assert AllActive(gl, p, ws) by {
        forall w | w in ws
          ensures gl.UniformLocation(p, w.name) != -1
        {
        }
      }
    }
  }

  /** The ten uniform names of a sync are pairwise different. */
  lemma WriteNamesDistinct(attrs: SpotLightAttributes)
    ensures NamesDistinct(attrs.Writes())
  {
  }

  /** After a sync every `spotLight.*` uniform holds its field; in particular the
      cutoffs hold the cosines of the angles, not the angles. */
  lemma {:induction false} SyncLands(attrs: SpotLightAttributes, store: map<(nat, string), Value>)
    ensures var p := attrs.boundShader.programId;
      var u := Upload(store, p, attrs.Writes());
      Holds(u, (p, "spotLight.position"), Vec3Val(attrs.position)) &&
      Holds(u, (p, "spotLight.direction"), Vec3Val(attrs.direction)) &&
      Holds(u, (p, "spotLight.innerCutOff"), FloatVal(attrs.math.cos(attrs.math.toRadians(attrs.innerCutoff)))) &&
      Holds(u, (p, "spotLight.outerCutOff"), FloatVal(attrs.math.cos(attrs.math.toRadians(attrs.outerCutoff)))) &&
      Holds(u, (p, "spotLight.ambient"), Vec3Val(attrs.ambient)) &&
      Holds(u, (p, "spotLight.diffuse"), Vec3Val(attrs.diffuse)) &&
      Holds(u, (p, "spotLight.specular"), Vec3Val(attrs.specular)) &&
      Holds(u, (p, "spotLight.constant"), FloatVal(attrs.constant)) &&
      Holds(u, (p, "spotLight.linear"), FloatVal(attrs.linear)) &&
      Holds(u, (p, "spotLight.quadratic"), FloatVal(attrs.quadratic))
  {
    var ws := attrs.Writes();
    WriteNamesDistinct(attrs);
    UploadAllLand(store, attrs.boundShader.programId, ws);
    assert ws[0].name == "spotLight.position";
    assert ws[1].name == "spotLight.direction";
    assert ws[2].name == "spotLight.innerCutOff";
    assert ws[3].name == "spotLight.outerCutOff";
    assert ws[4].name == "spotLight.ambient";
    assert ws[5].name == "spotLight.diffuse";
    assert ws[6].name == "spotLight.specular";
    assert ws[7].name == "spotLight.constant";
    assert ws[8].name == "spotLight.linear";
    assert ws[9].name == "spotLight.quadratic";
  }

  /** Every name a sync writes carries the `spotLight.` prefix. */
  lemma WritesArePrefixed(attrs: SpotLightAttributes)
    ensures forall w :: w in attrs.Writes() ==> "spotLight." <= w.name
  {
  }

  /** The spot light as a `Light`: just its record. */
  class SpotLight {
    const attrs: SpotLightAttributes

    constructor Assemble(attrs: SpotLightAttributes)
      ensures this.attrs == attrs
    {
      this.attrs := attrs;
    }

    /** `SpotLight::new`: a freshly uploaded default record. */
    static method New(gl: Gl, math: MathLib, litObjectShader: Shader) returns (r: Result<SpotLight>)
      modifies gl`currentProgram, gl`uniforms
      ensures r.Ok? ==> fresh(r.value) && fresh(r.value.attrs)
      ensures r.Ok? ==> r.value.attrs.math == math && r.value.attrs.boundShader == litObjectShader
      ensures r.Ok? ==> r.value.Pos() == PositionDefault && r.value.Dir() == DirectionDefault
      ensures r.Ok? ==> r.value.attrs.innerCutoff == InnerCutoffDefault && r.value.attrs.outerCutoff == OuterCutoffDefault
      ensures r.Ok? ==> r.value.attrs.ambient == AmbientDefault && r.value.attrs.diffuse == DiffuseDefault
      ensures r.Ok? ==> r.value.attrs.specular == SpecularDefault && r.value.attrs.constant == ConstantDefault
      ensures r.Ok? ==> r.value.attrs.linear == LinearDefault && r.value.attrs.quadratic == QuadraticDefault
      ensures r.Ok? ==> gl.currentProgram == litObjectShader.programId
      ensures r.Ok? ==> gl.uniforms == Upload(old(gl.uniforms), litObjectShader.programId, r.value.attrs.Writes())
      ensures r.Ok? <==> AllActive(gl, litObjectShader.programId, DefaultWrites(math))
      ensures r.Err? ==> r.error == UniformNotFound
    {
      var attrs := SpotLightAttributes.New(gl, math, litObjectShader);
      if attrs.Err? {
        return Err(attrs.error);
      }
      var light := new SpotLight.Assemble(attrs.value);
      r := Ok(light);
    }

    /** `pos`: the position the light's record uploads. */
    function Pos(): (p: Vec3)
      reads attrs
      ensures Write("spotLight.position", Vec3Val(p)) in attrs.Writes()
    {
      attrs.position
    }

    /** `dir`: the direction the light's record uploads. */
    function Dir(): (d: Vec3)
      reads attrs
      ensures Write("spotLight.direction", Vec3Val(d)) in attrs.Writes()
    {
      attrs.direction
    }
  }
}
