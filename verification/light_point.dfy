/** Point lights: an attribute record that is re-uploaded, whole, to the
    `pointLights[<index>].*` uniforms of the lit-object shader after every change. */
module PointLights {
  import opened Glam
  import opened Results
  import opened Shaders

  /** Rust's `u8`: the slot of the light in the shader's `pointLights` array. */
  type U8 = n: nat | n < 256

  const PositionDefault := Vec3(0.0, 2.0, 0.0)
  const AmbientDefault := Vec3(0.0, 0.0, 0.0)
  const DiffuseDefault := Vec3(0.5, 0.5, 0.5)
  const SpecularDefault := Vec3(1.0, 1.0, 1.0)
  const ConstantDefault := 1.0
  const LinearDefault := 0.09
  const QuadraticDefault := 0.032

  /** The writes `new` makes: the default record uploaded to slot `index`. */
  function DefaultWrites(index: U8): seq<Write> {
    [ Write(PointName(index, "position"), Vec3Val(PositionDefault)),
      Write(PointName(index, "ambient"), Vec3Val(AmbientDefault)),
      Write(PointName(index, "diffuse"), Vec3Val(DiffuseDefault)),
      Write(PointName(index, "specular"), Vec3Val(SpecularDefault)),
      Write(PointName(index, "constant"), FloatVal(ConstantDefault)),
      Write(PointName(index, "linear"), FloatVal(LinearDefault)),
      Write(PointName(index, "quadratic"), FloatVal(QuadraticDefault)) ]
  }

  // ----- the decimal rendering of `{index}` in `format!` -----

  predicate IsDigit(c: char) {
    '0' <= c <= '9'
  }

  predicate AllDigits(s: string) {
    forall i :: 0 <= i < |s| ==> IsDigit(s[i])
  }

  function Digit(d: nat): (c: char)
    requires d < 10
    ensures IsDigit(c)
  {
    ('0' as int + d) as char
  }

  function DigitValue(c: char): nat
    requires IsDigit(c)
  {
    c as int - '0' as int
  }

  /** Decimal digits of n, most significant first, without leading zeros. */
  function Decimal(n: nat): (s: string)
    ensures 1 <= |s| && AllDigits(s)
    ensures s[0] == '0' <==> n == 0
    decreases n
  {
    if n < 10 then [Digit(n)] else Decimal(n / 10) + [Digit(n % 10)]
  }

  function ParseDecimal(s: string): nat
    requires AllDigits(s)
    decreases |s|
  {
    if s == [] then 0 else 10 * ParseDecimal(s[..|s| - 1]) + DigitValue(s[|s| - 1])
  }

  /** Reading the digits back gives the number: the rendering loses nothing. */
  lemma {:induction false} ParseDecimalOfDecimal(n: nat)
    ensures ParseDecimal(Decimal(n)) == n
    decreases n
  {
    var s := Decimal(n);
    if n >= 10 {
      assert s[..|s| - 1] == Decimal(n / 10);
      ParseDecimalOfDecimal(n / 10);
    }
  }

  /** The number of leading digits. */
  function DigitRun(s: string): nat
    decreases |s|
  {
    if s != [] && IsDigit(s[0]) then 1 + DigitRun(s[1..]) else 0
  }

  lemma {:induction false} DigitRunOf(d: string, rest: string)
    requires AllDigits(d)
    requires rest != [] && !IsDigit(rest[0])
    ensures DigitRun(d + rest) == |d|
    decreases |d|
  {
    if d != [] {
      assert (d + rest)[1..] == d[1..] + rest;
      DigitRunOf(d[1..], rest);
    } else {
      assert d + rest == rest;
    }
  }

  /** A run of digits followed by a non-digit splits back into the two at the end
      of the digit run. */
  lemma SplitAtDigitRun(d: string, rest: string)
    requires AllDigits(d)
    requires rest != [] && !IsDigit(rest[0])
    ensures DigitRun(d + rest) == |d|
    ensures (d + rest)[..|d|] == d && (d + rest)[|d|..] == rest
  {
    DigitRunOf(d, rest);
  }

  /** Equal strings with a common prefix agree after it. */
  lemma StripPrefix(p: string, x: string, y: string)
    requires p + x == p + y
    ensures x == y
  {
    assert x == (p + x)[|p|..];
    assert y == (p + y)[|p|..];
  }

  // ----- uniform names -----

  const ArrayName := "pointLights["

  function PointPrefix(index: U8): string {
    ArrayName + Decimal(index) + "]."
  }

  /** `format!("pointLights[{index}].{field}")`. */
  function PointName(index: U8, field: string): (name: string)
    ensures PointPrefix(index) <= name
  {
    PointPrefix(index) + field
  }

  /** A name determines both the light's index and the field: two point lights never
      write each other's uniforms, and no two fields of one light share a uniform. */
  lemma PointNameInjective(i: U8, f: string, j: U8, g: string)
    requires PointName(i, f) == PointName(j, g)
    ensures i == j && f == g
  {
    var di, dj := Decimal(i), Decimal(j);
    var ti, tj := di + ("]." + f), dj + ("]." + g);
    assert PointName(i, f) == ArrayName + ti;
    assert PointName(j, g) == ArrayName + tj;
    StripPrefix(ArrayName, ti, tj);
    SplitAtDigitRun(di, "]." + f);
    SplitAtDigitRun(dj, "]." + g);
    assert di == dj;
    ParseDecimalOfDecimal(i);
    ParseDecimalOfDecimal(j);
    StripPrefix("].", f, g);
  }

  /** The fields of the record, in the order `sync_state` writes them. */
  const PointFields := ["position", "ambient", "diffuse", "specular", "constant", "linear", "quadratic"]

  /** After a sync, each of the seven `pointLights[index].*` uniforms holds its field. */
  lemma {:induction false} SyncLands(attrs: PointLightAttributes, index: U8, store: map<(nat, string), Value>)
    ensures var p := attrs.boundShader.programId;
      var u := Upload(store, p, attrs.Writes(index));
      Holds(u, (p, PointName(index, "position")), Vec3Val(attrs.position)) &&
      Holds(u, (p, PointName(index, "ambient")), Vec3Val(attrs.ambient)) &&
      Holds(u, (p, PointName(index, "diffuse")), Vec3Val(attrs.diffuse)) &&
      Holds(u, (p, PointName(index, "specular")), Vec3Val(attrs.specular)) &&
      Holds(u, (p, PointName(index, "constant")), FloatVal(attrs.constant)) &&
      Holds(u, (p, PointName(index, "linear")), FloatVal(attrs.linear)) &&
      Holds(u, (p, PointName(index, "quadratic")), FloatVal(attrs.quadratic))
  {
    var ws := attrs.Writes(index);
    forall i | 0 <= i < 7
      ensures ws[i].name == PointName(index, PointFields[i])
    {
    }
    forall i, j | 0 <= i < j < 7
      ensures ws[i].name != ws[j].name
    {
      if ws[i].name == ws[j].name {
        PointNameInjective(index, PointFields[i], index, PointFields[j]);
      }
    }
    UploadAllLand(store, attrs.boundShader.programId, ws);
    assert ws[0] == Write(PointName(index, "position"), Vec3Val(attrs.position));
    assert ws[1] == Write(PointName(index, "ambient"), Vec3Val(attrs.ambient));
    assert ws[2] == Write(PointName(index, "diffuse"), Vec3Val(attrs.diffuse));
    assert ws[3] == Write(PointName(index, "specular"), Vec3Val(attrs.specular));
    assert ws[4] == Write(PointName(index, "constant"), FloatVal(attrs.constant));
    assert ws[5] == Write(PointName(index, "linear"), FloatVal(attrs.linear));
    assert ws[6] == Write(PointName(index, "quadratic"), FloatVal(attrs.quadratic));
  }

  /** A sync of the light in slot i leaves every uniform of the light in slot j alone. */
  lemma {:induction false} SyncLeavesOtherSlots(attrs: PointLightAttributes, i: U8, store: map<(nat, string), Value>, j: U8, field: string)
    requires i != j
    ensures var key := (attrs.boundShader.programId, PointName(j, field));
      var u := Upload(store, attrs.boundShader.programId, attrs.Writes(i));
      (key in u <==> key in store) && (key in store ==> u[key] == store[key])
  {
    var ws := attrs.Writes(i);
    forall k | 0 <= k < |ws|
      ensures ws[k].name != PointName(j, field)
    {
      if ws[k].name == PointName(j, field) {
        PointNameInjective(i, PointFields[k], j, field);
      }
    }
    UploadFrame(store, attrs.boundShader.programId, ws, (attrs.boundShader.programId, PointName(j, field)));
  }

  /** No uniform a point light uploads is a direction. */
  lemma NoDirectionUniform(attrs: PointLightAttributes, index: U8)
    ensures forall w :: w in attrs.Writes(index) ==> w.name != PointName(index, "direction")
  {
    var ws := attrs.Writes(index);
    forall k | 0 <= k < |ws|
      ensures ws[k].name != PointName(index, "direction")
    {
      assert ws[k].name == PointName(index, PointFields[k]);
      if ws[k].name == PointName(index, "direction") {
        PointNameInjective(index, PointFields[k], index, "direction");
      }
    }
  }

  /** Stand-in for the light's visible cube: only the position that `set_pos`
      forwards to it and the zoom adjustments forwarded to its mesh. */
  class LightCube {
    var pos: Vec3
    ghost var zoomRequests: seq<real>

    constructor(pos: Vec3)
      ensures this.pos == pos && zoomRequests == []
    {
      this.pos := pos;
      zoomRequests := [];
    }

    method SetPos(pos: Vec3)
      modifies this`pos
      ensures this.pos == pos
    {
      this.pos := pos;
    }

    method AdjustZoom(degrees: real)
      modifies this`zoomRequests
      ensures zoomRequests == old(zoomRequests) + [degrees]
    {
      zoomRequests := zoomRequests + [degrees];
    }
  }

  class PointLightAttributes {
    const boundShader: Shader
    var position: Vec3
    var ambient: Vec3
    var diffuse: Vec3
    var specular: Vec3
    var constant: real
    var linear: real
    var quadratic: real

    /** Every field but the position is as it was. */
    twostate predicate OnlyPositionChanged()
      reads this
    {
      && ambient == old(ambient) && diffuse == old(diffuse) && specular == old(specular)
      && constant == old(constant) && linear == old(linear) && quadratic == old(quadratic)
    }

    /** The record with its default values, before anything is uploaded. */
    constructor(boundShader: Shader)
      ensures this.boundShader == boundShader
      ensures position == PositionDefault
      ensures ambient == AmbientDefault && diffuse == DiffuseDefault && specular == SpecularDefault
      ensures constant == ConstantDefault && linear == LinearDefault && quadratic == QuadraticDefault
    {
      this.boundShader := boundShader;
      position := PositionDefault;
      ambient := AmbientDefault;
      diffuse := DiffuseDefault;
      specular := SpecularDefault;
      constant := ConstantDefault;
      linear := LinearDefault;
      quadratic := QuadraticDefault;
    }

    /** The first four writes of `sync_state`: the position and the strength of
        each kind of lighting. */
    function LightingWrites(index: U8): seq<Write>
      reads this
    {
      [ Write(PointName(index, "position"), Vec3Val(position)),
        Write(PointName(index, "ambient"), Vec3Val(ambient)),
        Write(PointName(index, "diffuse"), Vec3Val(diffuse)),
        Write(PointName(index, "specular"), Vec3Val(specular)) ]
    }

    /** The last three: the attenuation coefficients. */
    function AttenuationWrites(index: U8): seq<Write>
      reads this
    {
      [ Write(PointName(index, "constant"), FloatVal(constant)),
        Write(PointName(index, "linear"), FloatVal(linear)),
        Write(PointName(index, "quadratic"), FloatVal(quadratic)) ]
    }

    /** The seven uniform writes of `sync_state`, in order. */
    function Writes(index: U8): (ws: seq<Write>)
      reads this
      ensures |ws| == 7
      ensures forall w :: w in ws ==> PointPrefix(index) <= w.name
    {
      LightingWrites(index) + AttenuationWrites(index)
    }

    /** `new`: build the default record and upload it; a missing uniform aborts. */
    static method New(gl: Gl, boundShader: Shader, index: U8) returns (r: Result<PointLightAttributes>)
      modifies gl`currentProgram, gl`uniforms
      ensures r.Ok? ==> fresh(r.value) && r.value.boundShader == boundShader
      ensures r.Ok? ==> r.value.position == PositionDefault && r.value.ambient == AmbientDefault
      ensures r.Ok? ==> r.value.diffuse == DiffuseDefault && r.value.specular == SpecularDefault
      ensures r.Ok? ==> r.value.constant == ConstantDefault && r.value.linear == LinearDefault
      ensures r.Ok? ==> r.value.quadratic == QuadraticDefault
      ensures r.Ok? ==> gl.currentProgram == boundShader.programId
      ensures r.Ok? ==> gl.uniforms == Upload(old(gl.uniforms), boundShader.programId, r.value.Writes(index))
      ensures r.Ok? <==> AllActive(gl, boundShader.programId, DefaultWrites(index))
      ensures r.Ok? ==> gl.uniforms == Upload(old(gl.uniforms), boundShader.programId, DefaultWrites(index))
      ensures r.Err? ==> r.error == UniformNotFound
    {
      var attrs := new PointLightAttributes(boundShader);
      assert attrs.Writes(index) == DefaultWrites(index);
      var synced := attrs.SyncState(gl, index);
      if synced.Err? {
        return Err(synced.error);
      }
      r := Ok(attrs);
    }

    /** `set_pos`: change the position only, then upload the whole record. */
    method SetPos(gl: Gl, pos: Vec3, index: U8) returns (r: Result<()>)
      modifies this`position, gl`currentProgram, gl`uniforms
      ensures position == pos && OnlyPositionChanged()
      ensures r.Ok? <==> AllActive(gl, boundShader.programId, Writes(index))
      ensures r.Ok? ==> gl.currentProgram == boundShader.programId
      ensures r.Ok? ==> gl.uniforms == Upload(old(gl.uniforms), boundShader.programId, Writes(index))
      ensures r.Err? ==> r.error == UniformNotFound
    {
      position := pos;
      r := SyncState(gl, index);
    }

    /** `sync_state`: seven writes in a fixed order; the first missing name aborts. */
    method SyncState(gl: Gl, index: U8) returns (r: Result<()>)
      modifies gl`currentProgram, gl`uniforms
      ensures r.Ok? ==> AllActive(gl, boundShader.programId, Writes(index))
      ensures r.Err? ==> !AllActive(gl, boundShader.programId, Writes(index))
      ensures r.Ok? ==> gl.currentProgram == boundShader.programId
      ensures r.Ok? ==> gl.uniforms == Upload(old(gl.uniforms), boundShader.programId, Writes(index))
      ensures r.Err? ==> r.error == UniformNotFound
    {
      ghost var p := boundShader.programId;
      AllActiveAppend(gl, p, LightingWrites(index), AttenuationWrites(index));
      r := SyncLighting(gl, index);
      if r.Err? { return; }
      r := SyncAttenuation(gl, index);
      if r.Err? { return; }
      UploadAppend(old(gl.uniforms), p, LightingWrites(index), AttenuationWrites(index));
    }

    /** The position and lighting-strength writes of `sync_state`. */
    method SyncLighting(gl: Gl, index: U8) returns (r: Result<()>)
      modifies gl`currentProgram, gl`uniforms
      ensures r.Ok? ==> AllActive(gl, boundShader.programId, LightingWrites(index))
      ensures r.Err? ==> !AllActive(gl, boundShader.programId, LightingWrites(index))
      ensures r.Ok? ==> gl.currentProgram == boundShader.programId
      ensures r.Ok? ==> gl.uniforms == Upload(old(gl.uniforms), boundShader.programId, LightingWrites(index))
      ensures r.Err? ==> r.error == UniformNotFound
    {
      ghost var ws := LightingWrites(index);
      ghost var p := boundShader.programId;
      UploadFour(gl.uniforms, p, ws);
      r := boundShader.SetVec3(gl, PointName(index, "position"), position);
      if r.Err? { assert ws[0] in ws; return; }
      r := boundShader.SetVec3(gl, PointName(index, "ambient"), ambient);
      if r.Err? { assert ws[1] in ws; return; }
      r := boundShader.SetVec3(gl, PointName(index, "diffuse"), diffuse);
      if r.Err? { assert ws[2] in ws; return; }
      r := boundShader.SetVec3(gl, PointName(index, "specular"), specular);
      if r.Err? { assert ws[3] in ws; return; }
      assert AllActive(gl, p, ws) by {
        forall w | w in ws
          ensures gl.UniformLocation(p, w.name) != -1
        {
        }
      }
    }

    /** The attenuation writes of `sync_state`. */
    method SyncAttenuation(gl: Gl, index: U8) returns (r: Result<()>)
      modifies gl`currentProgram, gl`uniforms
      ensures r.Ok? ==> AllActive(gl, boundShader.programId, AttenuationWrites(index))
      ensures r.Err? ==> !AllActive(gl, boundShader.programId, AttenuationWrites(index))
      ensures r.Ok? ==> gl.currentProgram == boundShader.programId
      ensures r.Ok? ==> gl.uniforms == Upload(old(gl.uniforms), boundShader.programId, AttenuationWrites(index))
      ensures r.Err? ==> r.error == UniformNotFound
    {
      ghost var ws := AttenuationWrites(index);
      ghost var p := boundShader.programId;
      UploadThree(gl.uniforms, p, ws);
      r := boundShader.SetFloat(gl, PointName(index, "constant"), constant);
      if r.Err? { assert ws[0] in ws; return; }
      r := boundShader.SetFloat(gl, PointName(index, "linear"), linear);
      if r.Err? { assert ws[1] in ws; return; }
      r := boundShader.SetFloat(gl, PointName(index, "quadratic"), quadratic);
      if r.Err? { assert ws[2] in ws; return; }
      assert AllActive(gl, p, ws) by {
        forall w | w in ws
          ensures gl.UniformLocation(p, w.name) != -1
        {
        }
      }
    }
  }

  /** A point light: its slot in the shader's array, its cube, and its record. */
  class PointLight {
    const index: U8
    const lightCube: LightCube
    const attrs: PointLightAttributes

    constructor Assemble(index: U8, lightCube: LightCube, attrs: PointLightAttributes)
      ensures this.index == index && this.lightCube == lightCube && this.attrs == attrs
    {
      this.index := index;
      this.lightCube := lightCube;
      this.attrs := attrs;
    }

    /** `PointLight::new`: a cube at the default position and a freshly uploaded
        record for slot `index`. */
    static method New(gl: Gl, litObjectShader: Shader, index: U8) returns (r: Result<PointLight>)
      modifies gl`currentProgram, gl`uniforms
      ensures r.Ok? ==> fresh(r.value) && fresh(r.value.lightCube) && fresh(r.value.attrs)
      ensures r.Ok? ==> r.value.index == index && r.value.attrs.boundShader == litObjectShader
      ensures r.Ok? ==> r.value.lightCube.pos == PositionDefault && r.value.Pos() == PositionDefault
      ensures r.Ok? ==> r.value.attrs.ambient == AmbientDefault && r.value.attrs.diffuse == DiffuseDefault
      ensures r.Ok? ==> r.value.attrs.specular == SpecularDefault && r.value.attrs.constant == ConstantDefault
      ensures r.Ok? ==> r.value.attrs.linear == LinearDefault && r.value.attrs.quadratic == QuadraticDefault
      ensures r.Ok? ==> gl.currentProgram == litObjectShader.programId
      ensures r.Ok? ==> gl.uniforms == Upload(old(gl.uniforms), litObjectShader.programId, r.value.attrs.Writes(index))
      ensures r.Ok? <==> AllActive(gl, litObjectShader.programId, DefaultWrites(index))
      ensures r.Err? ==> r.error == UniformNotFound
    {
      var cube := new LightCube(PositionDefault);
      var attrs := PointLightAttributes.New(gl, litObjectShader, index);
      if attrs.Err? {
        return Err(attrs.error);
      }
      var light := new PointLight.Assemble(index, cube, attrs.value);
      r := Ok(light);
    }

    /** `pos`: the position the light's record uploads. */
    function Pos(): (p: Vec3)
      reads attrs
      ensures Write(PointName(index, "position"), Vec3Val(p)) in attrs.Writes(index)
    {
      attrs.position
    }

    /** `dir`: point lights shine every way, so there is no direction, and none is
        uploaded. */
    function Dir(): (d: Vec3)
      reads attrs
      ensures d == Zero
      ensures forall w :: w in attrs.Writes(index) ==> w.name != PointName(index, "direction")
    {
      NoDirectionUniform(attrs, index);
      Zero
    }

    /** `set_pos`: move and re-upload the record, then move the cube to match. */
    method SetPos(gl: Gl, pos: Vec3) returns (r: Result<()>)
      modifies attrs`position, lightCube`pos, gl`currentProgram, gl`uniforms
      ensures Pos() == pos && attrs.OnlyPositionChanged()
      ensures r.Ok? <==> AllActive(gl, attrs.boundShader.programId, attrs.Writes(index))
      ensures r.Ok? ==> lightCube.pos == pos
      ensures r.Ok? ==> gl.currentProgram == attrs.boundShader.programId
      ensures r.Ok? ==> gl.uniforms == Upload(old(gl.uniforms), attrs.boundShader.programId, attrs.Writes(index))
      ensures r.Err? ==> r.error == UniformNotFound && lightCube.pos == old(lightCube.pos)
    {
      r := attrs.SetPos(gl, pos, index);
      if r.Err? {
        return;
      }
      lightCube.SetPos(pos);
    }

    method AdjustZoom(degrees: real)
      modifies lightCube`zoomRequests
      ensures lightCube.zoomRequests == old(lightCube.zoomRequests) + [degrees]
    {
      lightCube.AdjustZoom(degrees);
    }
  }
}
