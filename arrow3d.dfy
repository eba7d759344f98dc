// The 3D position arrow: its placement state and setters, the installation
// of the two loaded meshes, and the sequence of draw calls one Render issues
// (drape_frontend/arrow3d.cpp:172-301).

module Arrow {

  import opened Wrappers
  import opened MeshLoader

  /** Scale factor of the routing-mode outline (`kOutlineScale`, a float 1.2f). */
  const OutlineScale: real := 1.2
  /** Depth bias of the shadow pass (a float 0.05f). */
  const ShadowDz: real := 0.05

  /** Buffer slots the meshes use. */
  const VerticesBufferInd: nat := 0
  const NormalsBufferInd: nat := 1
  const TexCoordShadowBufferInd: nat := 1

  datatype Point = Point(x: real, y: real)
  datatype Vec3 = Vec3(x: real, y: real, z: real)

  /** The fields of the arrow that the setters replace and Render reads. */
  datatype ArrowState = ArrowState(
    position: Point,
    azimuth: real,
    obsoletePosition: bool,
    meshOffset: Vec3,
    meshEulerAngles: Vec3,
    meshScale: Vec3)

  datatype MeshKind = ArrowMesh | ShadowMesh

  datatype Program = ShadowProgram | OutlineProgram | ArrowProgram

  /** Palette entries, looked up by name by the colour table. */
  datatype ColorConstant = ShadowColor | OutlineColor | ArrowColor | ObsoleteColor
  {
    function Name(): string
    {
      match this
      case ShadowColor => "Arrow3DShadow"
      case OutlineColor => "Arrow3DOutline"
      case ArrowColor => "Arrow3D"
      case ObsoleteColor => "Arrow3DObsolete"
    }
  }

  /**
   * One call of RenderArrow: which mesh is drawn with which program and
   * colour, the depth bias and scale factor passed to the transform, and
   * the arrow's whole placement state at the time of the call. The view
   * the transform also reads is not recorded.
   */
  datatype DrawCall = DrawCall(
    mesh: MeshKind, program: Program, color: ColorConstant,
    dz: real, scaleFactor: real, state: ArrowState)

  /** A float buffer bound to a named vertex attribute (SetBuffer + SetAttribute). */
  datatype VertexBuffer<F> = VertexBuffer(data: seq<F>, attribute: string, components: nat)

  /** Back-to-front rank of a pass. */
  function Stage(p: Program): nat
  {
    match p
    case ShadowProgram => 0
    case OutlineProgram => 1
    case ArrowProgram => 2
  }

  /** The fixed mesh, colour, depth bias and scale of each kind of pass. */
  ghost predicate PassSettings(c: DrawCall, routingMode: bool, obsoletePosition: bool)
  {
    match c.program
    case ShadowProgram =>
      c.mesh == ShadowMesh && c.color == ShadowColor && c.dz == ShadowDz &&
      c.scaleFactor == (if routingMode then OutlineScale else 1.0)
    case OutlineProgram =>
      c.mesh == ShadowMesh && c.color == OutlineColor && c.dz == 0.0 && c.scaleFactor == OutlineScale
    case ArrowProgram =>
      c.mesh == ArrowMesh && c.color == (if obsoletePosition then ObsoleteColor else ArrowColor) &&
      c.dz == 0.0 && c.scaleFactor == 1.0
  }

  /**
   * The draw calls of one frame: a shadow pass exactly in perspective view,
   * an outline pass exactly in routing mode, and always the arrow itself,
   * last; each pass at most once, back to front.
   */
  function Passes(isPerspective: bool, routingMode: bool, s: ArrowState): (r: seq<DrawCall>)
    ensures |r| == 1 + (if isPerspective then 1 else 0) + (if routingMode then 1 else 0)
    ensures (exists i :: 0 <= i < |r| && r[i].program == ShadowProgram) <==> isPerspective
    ensures (exists i :: 0 <= i < |r| && r[i].program == OutlineProgram) <==> routingMode
    ensures r[|r| - 1].program == ArrowProgram
    ensures r[|r| - 1].color.Name() == if s.obsoletePosition then "Arrow3DObsolete" else "Arrow3D"
    ensures forall i, j :: 0 <= i < j < |r| ==> Stage(r[i].program) < Stage(r[j].program)
    ensures forall i :: 0 <= i < |r| ==> PassSettings(r[i], routingMode, s.obsoletePosition)
    ensures forall i :: 0 <= i < |r| ==> r[i].state == s
  {
    var shadow := DrawCall(ShadowMesh, ShadowProgram, ShadowColor, ShadowDz,
                           if routingMode then OutlineScale else 1.0, s);
    var outline := DrawCall(ShadowMesh, OutlineProgram, OutlineColor, 0.0, OutlineScale, s);
    var arrow := DrawCall(ArrowMesh, ArrowProgram,
                          if s.obsoletePosition then ObsoleteColor else ArrowColor, 0.0, 1.0, s);
    var r := (if isPerspective then [shadow] else []) + (if routingMode then [outline] else []) + [arrow];
    assert isPerspective ==> r[0] == shadow;
    assert routingMode ==> r[if isPerspective then 1 else 0] == outline;
    r
  }

  /**
   * The completion handler for the arrow mesh: positions go to slot 0; the
   * loaded normals go to slot 1, or, exactly when none were loaded, the
   * normals synthesized by the backend (whose inputs are not modelled).
   */
  function ArrowMeshBuffers<F>(loaded: MeshBuffers<F>, synthesizedNormals: seq<F>): (r: map<nat, VertexBuffer<F>>)
    requires loaded.positions != []
    ensures r.Keys == {VerticesBufferInd, NormalsBufferInd}
    ensures r[VerticesBufferInd] == VertexBuffer(loaded.positions, "a_pos", ComponentsInVertex)
    ensures r[NormalsBufferInd].attribute == "a_normal" && r[NormalsBufferInd].components == ComponentsInNormal
    ensures loaded.normals != [] ==> r[NormalsBufferInd].data == loaded.normals
    ensures loaded.normals == [] ==> r[NormalsBufferInd].data == synthesizedNormals
  {
    var normals := if loaded.normals == [] then synthesizedNormals else loaded.normals;
    map[VerticesBufferInd := VertexBuffer(loaded.positions, "a_pos", ComponentsInVertex),
        NormalsBufferInd := VertexBuffer(normals, "a_normal", ComponentsInNormal)]
  }

  /**
   * The completion handler for the shadow mesh: positions go to slot 0 and
   * the texture coordinates, as loaded, to slot 1; normals are not used.
   */
  function ShadowMeshBuffers<F>(loaded: MeshBuffers<F>): (r: map<nat, VertexBuffer<F>>)
    requires loaded.positions != []
    ensures r.Keys == {VerticesBufferInd, TexCoordShadowBufferInd}
    ensures r[VerticesBufferInd] == VertexBuffer(loaded.positions, "a_pos", ComponentsInVertex)
    ensures r[TexCoordShadowBufferInd] == VertexBuffer(loaded.texCoords, "a_texCoords", ComponentsInTexCoord)
  {
    map[VerticesBufferInd := VertexBuffer(loaded.positions, "a_pos", ComponentsInVertex),
        TexCoordShadowBufferInd := VertexBuffer(loaded.texCoords, "a_texCoords", ComponentsInTexCoord)]
  }

  /** A parser result whose flattened positions are non-empty. */
  ghost predicate HasPositions<F>(run: ParserRun<F>)
  {
    run.Parsed? ==> WellFormed(run.mesh) && run.mesh.positionCount > 1 && |run.mesh.indices| > 0
  }

  class Arrow3d<F(0)> {
    var position: Point
    var azimuth: real
    var obsoletePosition: bool
    var meshOffset: Vec3
    var meshEulerAngles: Vec3
    var meshScale: Vec3

    /** The buffers installed in the two mesh objects, by slot. */
    var arrowMesh: map<nat, VertexBuffer<F>>
    var shadowMesh: map<nat, VertexBuffer<F>>

    /** Every draw call issued so far, in order. */
    var drawLog: seq<DrawCall>

    function State(): ArrowState
      reads this
    {
      ArrowState(position, azimuth, obsoletePosition, meshOffset, meshEulerAngles, meshScale)
    }

    /**
     * Loads the arrow and the shadow mesh. A mesh whose load fails keeps no
     * buffers, so drawing it draws nothing; construction completes either
     * way. The initial field values come from the class declaration, which
     * is not part of this model, and are taken as a parameter.
     */
    constructor (arrowRun: ParserRun<F>, shadowRun: ParserRun<F>, synthesizedNormals: seq<F>, initial: ArrowState)
      requires HasPositions(arrowRun) && HasPositions(shadowRun)
      ensures State() == initial && drawLog == []
      ensures arrowMesh ==
        if arrowRun.Parsed? then ArrowMeshBuffers(FlatBuffers(arrowRun.mesh), synthesizedNormals) else map[]
      ensures shadowMesh ==
        if shadowRun.Parsed? then ShadowMeshBuffers(FlatBuffers(shadowRun.mesh)) else map[]
    {
      position := initial.position;
      azimuth := initial.azimuth;
      obsoletePosition := initial.obsoletePosition;
      meshOffset := initial.meshOffset;
      meshEulerAngles := initial.meshEulerAngles;
      meshScale := initial.meshScale;
      drawLog := [];

      var arrowOk, arrowEvents := LoadMesh(arrowRun, None);
      if arrowOk {
        arrowMesh := ArrowMeshBuffers(arrowEvents[0].buffers, synthesizedNormals);
      } else {
        arrowMesh := map[];
      }

      var shadowOk, shadowEvents := LoadMesh(shadowRun, None);
      if shadowOk {
        shadowMesh := ShadowMeshBuffers(shadowEvents[0].buffers);
      } else {
        shadowMesh := map[];
      }
    }

    method SetPosition(p: Point)
      modifies this`position
      ensures State() == old(State()).(position := p)
    {
      position := p;
    }

    method SetAzimuth(a: real)
      modifies this`azimuth
      ensures State() == old(State()).(azimuth := a)
    {
      azimuth := a;
    }

    method SetPositionObsolete(obsolete: bool)
      modifies this`obsoletePosition
      ensures State() == old(State()).(obsoletePosition := obsolete)
    {
      obsoletePosition := obsolete;
    }

    method SetMeshOffset(offset: Vec3)
      modifies this`meshOffset
      ensures State() == old(State()).(meshOffset := offset)
    {
      meshOffset := offset;
    }

    method SetMeshRotation(eulerAngles: Vec3)
      modifies this`meshEulerAngles
      ensures State() == old(State()).(meshEulerAngles := eulerAngles)
    {
      meshEulerAngles := eulerAngles;
    }

    method SetMeshScale(scale: Vec3)
      modifies this`meshScale
      ensures State() == old(State()).(meshScale := scale)
    {
      meshScale := scale;
    }

    /** One draw call with the current state; its transform is not modelled. */
    method RenderArrow(mesh: MeshKind, program: Program, color: ColorConstant, dz: real, scaleFactor: real)
      modifies this`drawLog
      ensures drawLog == old(drawLog) + [DrawCall(mesh, program, color, dz, scaleFactor, State())]
    {
      drawLog := drawLog + [DrawCall(mesh, program, color, dz, scaleFactor, State())];
    }

    /** Issues the frame's passes, back to front. */
    method Render(isPerspective: bool, routingMode: bool)
      modifies this`drawLog
      ensures drawLog == old(drawLog) + Passes(isPerspective, routingMode, State())
    {
      if isPerspective {
        RenderArrow(ShadowMesh, ShadowProgram, ShadowColor, ShadowDz,
                    if routingMode then OutlineScale else 1.0);
      }
      if routingMode {
        RenderArrow(ShadowMesh, OutlineProgram, OutlineColor, 0.0, OutlineScale);
      }
      var color := if obsoletePosition then ObsoleteColor else ArrowColor;
      RenderArrow(ArrowMesh, ArrowProgram, color, 0.0, 1.0);
    }
  }
}
