/** The `Light` capability shared by the three light kinds: a position and a
    direction that can be read and set (each setter hands back the same light, so
    calls chain), and zoom and draw hooks whose defaults do nothing. */
module Lights {
  import opened Glam
  import opened Results
  import opened Shaders
  import PointLights
  import SpotLights
  import DirectionLights

  datatype Light =
    | Point(point: PointLights.PointLight)
    | Spot(spot: SpotLights.SpotLight)
    | Direction(direction: DirectionLights.DirectionLight)
  {
    /** The objects whose fields the light's setters may change. */
    function Repr(): set<object> {
      match this
      case Point(l) => {l.attrs, l.lightCube}
      case Spot(l) => {l.attrs}
      case Direction(l) => {l.attrs}
    }

    /** The shader program the light's record is uploaded to. */
    function Program(): nat {
      match this
      case Point(l) => l.attrs.boundShader.programId
      case Spot(l) => l.attrs.boundShader.programId
      case Direction(l) => l.attrs.boundShader.programId
    }

    /** The uniform writes of the light's `sync_state`. */
    function Writes(): seq<Write>
      reads Repr()
    {
      match this
      case Point(l) => l.attrs.Writes(l.index)
      case Spot(l) => l.attrs.Writes()
      case Direction(l) => l.attrs.Writes()
    }

    /** `pos`: the position the light uploads; zero for the direction light. */
    function Pos(): (p: Vec3)
      reads Repr()
      ensures Point? ==> Write(PointLights.PointName(point.index, "position"), Vec3Val(p)) in Writes()
      ensures Spot? ==> Write("spotLight.position", Vec3Val(p)) in Writes()
      ensures Direction? ==> p == Zero
    {
      match this
      case Point(l) => l.Pos()
      case Spot(l) => l.Pos()
      case Direction(l) => l.Pos()
    }

    /** `dir`: the direction the light uploads; zero for the point light. */
    function Dir(): (d: Vec3)
      reads Repr()
      ensures Spot? ==> Write("spotLight.direction", Vec3Val(d)) in Writes()
      ensures Direction? ==> Write("dirLight.direction", Vec3Val(d)) in Writes()
      ensures Point? ==> d == Zero
    {
      match this
      case Point(l) => l.Dir()
      case Spot(l) => l.Dir()
      case Direction(l) => l.Dir()
    }

    /** `set_pos`: lights with a position move and re-upload their record; the
        direction light ignores the call. Either way the same light comes back. */
    method SetPos(gl: Gl, pos: Vec3) returns (r: Result<Light>)
      modifies Repr(), gl`currentProgram, gl`uniforms
      ensures r.Ok? ==> r.value == this
      ensures r.Err? ==> r.error == UniformNotFound
      ensures Direction? ==> r.Ok? && unchanged(Repr()) && unchanged(gl)
      ensures !Direction? ==> Pos() == pos && Dir() == old(Dir())
      ensures !Direction? ==> (r.Ok? <==> AllActive(gl, Program(), Writes()))
      ensures !Direction? && r.Ok? ==> gl.currentProgram == Program()
      ensures !Direction? && r.Ok? ==> gl.uniforms == Upload(old(gl.uniforms), Program(), Writes())
      ensures Point? && r.Ok? ==> point.lightCube.pos == pos
      ensures Point? && r.Err? ==> point.lightCube.pos == old(point.lightCube.pos)
      // Nothing but the position moves.
      ensures Point? ==> point.attrs.OnlyPositionChanged()
      ensures Point? ==> point.lightCube.zoomRequests == old(point.lightCube.zoomRequests)
      ensures Spot? ==> spot.attrs.OnlyPositionChanged()
    {
      match this
      case Point(l) =>
        var moved := l.SetPos(gl, pos);
        r := if moved.Ok? then Ok(this) else Err(moved.error);
      case Spot(l) =>
        var moved := l.attrs.SetPos(gl, pos);
        r := if moved.Ok? then Ok(this) else Err(moved.error);
      case Direction(l) =>
        r := Ok(this);
    }

    /** `set_dir`: lights with a direction turn and re-upload their record; the
        point light ignores the call. Either way the same light comes back. */
    method SetDir(gl: Gl, dir: Vec3) returns (r: Result<Light>)
      modifies Repr(), gl`currentProgram, gl`uniforms
      ensures r.Ok? ==> r.value == this
      ensures r.Err? ==> r.error == UniformNotFound
      ensures Point? ==> r.Ok? && unchanged(Repr()) && unchanged(gl)
      ensures !Point? ==> Dir() == dir && Pos() == old(Pos())
      ensures !Point? ==> (r.Ok? <==> AllActive(gl, Program(), Writes()))
      ensures !Point? && r.Ok? ==> gl.currentProgram == Program()
      ensures !Point? && r.Ok? ==> gl.uniforms == Upload(old(gl.uniforms), Program(), Writes())
      // Nothing but the direction turns.
      ensures Spot? ==> spot.attrs.OnlyDirectionChanged()
      ensures Direction? ==> direction.attrs.OnlyDirectionChanged()
    {
      match this
      case Point(l) =>
        r := Ok(this);
      case Spot(l) =>
        var turned := l.attrs.SetDir(gl, dir);
        r := if turned.Ok? then Ok(this) else Err(turned.error);
      case Direction(l) =>
        var turned := l.attrs.SetDir(gl, dir);
        r := if turned.Ok? then Ok(this) else Err(turned.error);
    }

    /** `adjust_zoom`: the point light forwards it to its cube; the default does nothing. */
    method AdjustZoom(degrees: real)
      modifies if Point? then {point.lightCube} else {}
      ensures Point? ==> point.lightCube.zoomRequests == old(point.lightCube.zoomRequests) + [degrees]
      ensures Point? ==> point.lightCube.pos == old(point.lightCube.pos)
    {
      if this.Point? {
        point.AdjustZoom(degrees);
      }
    }
  }

  /** The chained call `light.set_pos(gl, pos).set_dir(gl, dir)`: the handle
      `set_pos` returns is the same light, so it ends with both values where it has
      them: a spot light with both, a point light with the position, a direction
      light with the direction. */
  method SetPosThenDir(gl: Gl, light: Light, pos: Vec3, dir: Vec3) returns (r: Result<Light>)
    modifies light.Repr(), gl`currentProgram, gl`uniforms
    ensures r.Ok? ==> r.value == light
    ensures light.Spot? && r.Ok? ==> light.Pos() == pos && light.Dir() == dir
    ensures light.Point? && r.Ok? ==> light.Pos() == pos
    ensures light.Direction? && r.Ok? ==> light.Dir() == dir
  {
    var moved := light.SetPos(gl, pos);
    if moved.Err? {
      return moved;
    }
    r := moved.value.SetDir(gl, dir);
  }
}
