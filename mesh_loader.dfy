// Flattening of the OBJ parser's indexed output into per-corner vertex
// buffers, and the success/failure protocol of LoadMesh
// (drape_frontend/arrow3d.cpp:97-169).

module MeshLoader {

  import opened Wrappers

  const ComponentsInVertex: nat := 3
  const ComponentsInNormal: nat := 3
  const ComponentsInTexCoord: nat := 2

  /** One face corner: the position, normal and texcoord entry it uses. */
  datatype Corner = Corner(p: nat, n: nat, t: nat)

  datatype Channel = Positions | Normals | TexCoords

  /**
   * The part of the parser's result that LoadMesh reads. Each source array
   * is flat (`count` entries of 3, 3 or 2 floats); entry 0 of every channel
   * is the parser's placeholder, so a count of 1 means "no data".
   */
  datatype ObjMesh<F> = ObjMesh(
    positionCount: nat, positions: seq<F>,
    normalCount: nat, normals: seq<F>,
    texcoordCount: nat, texcoords: seq<F>,
    indices: seq<Corner>)

  /** The three flat buffers handed to the completion handler. */
  datatype MeshBuffers<F> = MeshBuffers(positions: seq<F>, normals: seq<F>, texCoords: seq<F>)

  /** What the resource lookup and the parser produced. */
  datatype ParserRun<F> =
    | Threw(reason: string)      // a RootException before a mesh existed
    | Parsed(mesh: ObjMesh<F>)

  /** The observable effects of LoadMesh, in order. */
  datatype Event<F> =
    | Completed(buffers: MeshBuffers<F>)   // the completion handler was called
    | Failed(reason: string)               // the failure handler was called
    | Destroyed                            // the parser's mesh was released

  function Select(c: Corner, ch: Channel): nat
  {
    match ch
    case Positions => c.p
    case Normals => c.n
    case TexCoords => c.t
  }

  /** The entry indices one channel reads, corner by corner. */
  function Selectors(ix: seq<Corner>, ch: Channel): seq<nat>
  {
    seq(|ix|, i requires 0 <= i < |ix| => Select(ix[i], ch))
  }

  /** Entry `k` of a flat array whose entries have `w` components. */
  function Entry<F>(s: seq<F>, k: nat, w: nat): seq<F>
    requires k * w + w <= |s|
  {
    s[k * w .. k * w + w]
  }

  ghost predicate InRange<F>(src: seq<F>, w: nat, sel: seq<nat>)
  {
    forall i :: 0 <= i < |sel| ==> sel[i] * w + w <= |src|
  }

  /** Every corner's index of a present channel names an existing entry. */
  ghost predicate ChannelInRange<F>(count: nat, src: seq<F>, w: nat, sel: seq<nat>)
  {
    count > 1 ==> |src| == count * w && forall i :: 0 <= i < |sel| ==> sel[i] < count
  }

  /**
   * The parser's output as LoadMesh may use it: the copies at
   * drape_frontend/arrow3d.cpp:136-152 are unchecked, so every index of a
   * present channel must be in range.
   */
  ghost predicate WellFormed<F>(m: ObjMesh<F>)
  {
    ChannelInRange(m.positionCount, m.positions, ComponentsInVertex, Selectors(m.indices, Positions)) &&
    ChannelInRange(m.normalCount, m.normals, ComponentsInNormal, Selectors(m.indices, Normals)) &&
    ChannelInRange(m.texcoordCount, m.texcoords, ComponentsInTexCoord, Selectors(m.indices, TexCoords))
  }

  /** Entry `a` of a `w`-wide array ends where entry `b` ends, or before. */
  lemma {:induction false} EntryFits(a: nat, b: nat, w: nat)
    requires a < b
    ensures a * w + w <= b * w
    decreases b - a
  {
    if a + 1 < b {
      EntryFits(a, b - 1, w);
      assert (b - 1) * w + w == b * w;
    } else {
      assert a * w + w == (a + 1) * w;
    }
  }

  lemma InRangeFromCount<F>(count: nat, src: seq<F>, w: nat, sel: seq<nat>)
    requires count > 1 && ChannelInRange(count, src, w, sel)
    ensures InRange(src, w, sel)
  {
    forall i | 0 <= i < |sel|
      ensures sel[i] * w + w <= |src|
    {
      EntryFits(sel[i], count, w);
    }
  }

  /** The entries `sel` names, one after the other. */
  function Gather<F>(src: seq<F>, w: nat, sel: seq<nat>): (r: seq<F>)
    requires InRange(src, w, sel)
    ensures |r| == |sel| * w
    decreases |sel|
  {
    if sel == [] then []
    else
      var k := sel[|sel| - 1];
      Gather(src, w, sel[..|sel| - 1]) + src[k * w .. k * w + w]
  }

  /** Slot `i` of a gathered buffer is the entry that `sel[i]` names. */
  lemma {:induction false} GatherAt<F>(src: seq<F>, w: nat, sel: seq<nat>, i: nat)
    requires InRange(src, w, sel) && i < |sel|
    ensures i * w + w <= |Gather(src, w, sel)|
    ensures Entry(Gather(src, w, sel), i, w) == Entry(src, sel[i], w)
    decreases |sel|
  {
    var n := |sel| - 1;
    var prefix := Gather(src, w, sel[..n]);
    var block := Entry(src, sel[n], w);
    assert Gather(src, w, sel) == prefix + block;
    if i < n {
      EntryFits(i, n, w);
      GatherAt(src, w, sel[..n], i);
      EntryInPrefix(prefix, block, i, w);
    } else {
      EntryAtEnd(prefix, block, i, w);
    }
  }

  lemma EntryInPrefix<F>(prefix: seq<F>, block: seq<F>, i: nat, w: nat)
    requires i * w + w <= |prefix|
    ensures Entry(prefix + block, i, w) == Entry(prefix, i, w)
  {
  }

  lemma EntryAtEnd<F>(prefix: seq<F>, block: seq<F>, i: nat, w: nat)
    requires |prefix| == i * w && |block| == w
    ensures Entry(prefix + block, i, w) == block
  {
  }

  /**
   * The flat buffer one channel yields: the gathered entries when the
   * channel is present (more than the placeholder entry), otherwise empty.
   */
  function ChannelBuffer<F>(count: nat, src: seq<F>, w: nat, sel: seq<nat>): (r: seq<F>)
    requires ChannelInRange(count, src, w, sel)
    ensures count > 1 ==> |r| == |sel| * w
    ensures count <= 1 ==> r == []
  {
    if count > 1 then
      InRangeFromCount(count, src, w, sel);
      Gather(src, w, sel)
    else []
  }

  /** Slot `i` of a present channel's buffer is the entry corner `i` selects. */
  lemma ChannelBufferAt<F>(count: nat, src: seq<F>, w: nat, sel: seq<nat>, i: nat)
    requires ChannelInRange(count, src, w, sel) && count > 1 && i < |sel|
    ensures sel[i] * w + w <= |src| && i * w + w <= |ChannelBuffer(count, src, w, sel)|
    ensures Entry(ChannelBuffer(count, src, w, sel), i, w) == Entry(src, sel[i], w)
  {
    InRangeFromCount(count, src, w, sel);
    GatherAt(src, w, sel, i);
  }

  /**
   * The buffers LoadMesh builds from a parsed mesh, channel by channel: a
   * channel with more than its placeholder entry yields one entry per
   * corner, any other channel an empty buffer.
   */
  function FlatBuffers<F>(m: ObjMesh<F>): (b: MeshBuffers<F>)
    requires WellFormed(m)
    ensures |b.positions| == if m.positionCount > 1 then |m.indices| * 3 else 0
    ensures |b.normals| == if m.normalCount > 1 then |m.indices| * 3 else 0
    ensures |b.texCoords| == if m.texcoordCount > 1 then |m.indices| * 2 else 0
  {
    MeshBuffers(
      ChannelBuffer(m.positionCount, m.positions, ComponentsInVertex, Selectors(m.indices, Positions)),
      ChannelBuffer(m.normalCount, m.normals, ComponentsInNormal, Selectors(m.indices, Normals)),
      ChannelBuffer(m.texcoordCount, m.texcoords, ComponentsInTexCoord, Selectors(m.indices, TexCoords)))
  }

  /**
   * Slot `i` of every present buffer holds the entry that corner `i`
   * selects from that channel's source array.
   */
  lemma FlatBuffersAt<F>(m: ObjMesh<F>, i: nat)
    requires WellFormed(m) && i < |m.indices|
    ensures var b, c := FlatBuffers(m), m.indices[i];
      m.positionCount > 1 ==>
        (c.p * 3 + 3 <= |m.positions| && i * 3 + 3 <= |b.positions| &&
         Entry(b.positions, i, 3) == Entry(m.positions, c.p, 3))
    ensures var b, c := FlatBuffers(m), m.indices[i];
      m.normalCount > 1 ==>
        (c.n * 3 + 3 <= |m.normals| && i * 3 + 3 <= |b.normals| &&
         Entry(b.normals, i, 3) == Entry(m.normals, c.n, 3))
    ensures var b, c := FlatBuffers(m), m.indices[i];
      m.texcoordCount > 1 ==>
        (c.t * 2 + 2 <= |m.texcoords| && i * 2 + 2 <= |b.texCoords| &&
         Entry(b.texCoords, i, 2) == Entry(m.texcoords, c.t, 2))
  {
    if m.positionCount > 1 {
      ChannelBufferAt(m.positionCount, m.positions, ComponentsInVertex, Selectors(m.indices, Positions), i);
    }
    if m.normalCount > 1 {
      ChannelBufferAt(m.normalCount, m.normals, ComponentsInNormal, Selectors(m.indices, Normals), i);
    }
    if m.texcoordCount > 1 {
      ChannelBufferAt(m.texcoordCount, m.texcoords, ComponentsInTexCoord, Selectors(m.indices, TexCoords), i);
    }
  }

  /** `memcpy(&dst[dstAt], &src[srcAt], count)` over floats. */
  method CopyEntries<F>(dst: array<F>, dstAt: nat, src: seq<F>, srcAt: nat, count: nat)
    requires dstAt + count <= dst.Length && srcAt + count <= |src|
    modifies dst
    ensures dst[..] == old(dst[..dstAt]) + src[srcAt .. srcAt + count] + old(dst[dstAt + count..])
  {
    forall k | 0 <= k < count {
      dst[dstAt + k] := src[srcAt + k];
    }
  }

  /** Gathering one more corner appends the entry that corner selects. */
  lemma GatherStep<F>(src: seq<F>, w: nat, sel: seq<nat>, i: nat)
    requires InRange(src, w, sel) && i < |sel|
    ensures sel[i] * w + w <= |src|
    ensures Gather(src, w, sel[..i + 1]) == Gather(src, w, sel[..i]) + Entry(src, sel[i], w)
  {
    assert sel[..i + 1][..i] == sel[..i];
  }

  /** The first `i` corners of a present channel have been copied into `buffer`. */
  ghost predicate Filled<F>(buffer: array<F>, i: nat, count: nat, src: seq<F>, w: nat, sel: seq<nat>)
    reads buffer
    requires ChannelInRange(count, src, w, sel) && i <= |sel|
  {
    buffer.Length == (if count > 1 then |sel| * w else 0) &&
    (count > 1 ==>
      InRange(src, w, sel) && i * w <= buffer.Length && buffer[..i * w] == Gather(src, w, sel[..i]))
  }

  /**
   * One channel's step of the fill loop: when the channel is present,
   * `memcpy` corner `i`'s entry `k` of `src` into slot `i` of `buffer`;
   * either way the filled prefix grows by one corner.
   */
  method CopyCorner<F>(buffer: array<F>, i: nat, k: nat,
                       count: nat, src: seq<F>, w: nat, ghost sel: seq<nat>)
    requires ChannelInRange(count, src, w, sel) && i < |sel| && k == sel[i]
    requires Filled(buffer, i, count, src, w, sel)
    modifies buffer
    ensures Filled(buffer, i + 1, count, src, w, sel)
  {
    if count > 1 {
      GatherStep(src, w, sel, i);
      EntryFits(i, |sel|, w);
      ghost var before := buffer[..];
      CopyEntries(buffer, i * w, src, k * w, w);
      assert buffer[..(i + 1) * w] == before[..i * w] + src[k * w .. k * w + w];
    }
  }

  /** A freshly sized buffer has no corner filled yet. */
  lemma FilledStart<F>(buffer: array<F>, count: nat, src: seq<F>, w: nat, sel: seq<nat>)
    requires ChannelInRange(count, src, w, sel)
    requires buffer.Length == (if count > 1 then |sel| * w else 0)
    ensures Filled(buffer, 0, count, src, w, sel)
  {
    if count > 1 {
      InRangeFromCount(count, src, w, sel);
      assert sel[..0] == [];
    }
  }

  /** Once every corner is filled, the buffer is the channel's flat buffer. */
  lemma FilledDone<F>(buffer: array<F>, count: nat, src: seq<F>, w: nat, sel: seq<nat>)
    requires ChannelInRange(count, src, w, sel)
    requires Filled(buffer, |sel|, count, src, w, sel)
    ensures buffer[..] == ChannelBuffer(count, src, w, sel)
  {
    assert sel[..|sel|] == sel;
  }

  /** The first `i` corners of every channel have been copied. */
  ghost predicate Progress<F>(m: ObjMesh<F>, positions: array<F>, normals: array<F>, texCoords: array<F>, i: nat)
    reads positions, normals, texCoords
    requires WellFormed(m) && i <= |m.indices|
  {
    positions != normals && positions != texCoords && normals != texCoords &&
    Filled(positions, i, m.positionCount, m.positions, ComponentsInVertex, Selectors(m.indices, Positions)) &&
    Filled(normals, i, m.normalCount, m.normals, ComponentsInNormal, Selectors(m.indices, Normals)) &&
    Filled(texCoords, i, m.texcoordCount, m.texcoords, ComponentsInTexCoord, Selectors(m.indices, TexCoords))
  }

  /** The body of the fill loop for corner `i`: one copy per present channel. */
  method FillCorner<F>(m: ObjMesh<F>, positions: array<F>, normals: array<F>, texCoords: array<F>, i: nat)
    requires WellFormed(m) && i < |m.indices|
    requires Progress(m, positions, normals, texCoords, i)
    modifies positions, normals, texCoords
    ensures Progress(m, positions, normals, texCoords, i + 1)
  {
    var c := m.indices[i];
    CopyCorner(positions, i, c.p, m.positionCount, m.positions, ComponentsInVertex, Selectors(m.indices, Positions));
    CopyCorner(normals, i, c.n, m.normalCount, m.normals, ComponentsInNormal, Selectors(m.indices, Normals));
    CopyCorner(texCoords, i, c.t, m.texcoordCount, m.texcoords, ComponentsInTexCoord, Selectors(m.indices, TexCoords));
  }

  /**
   * The buffer-filling part of LoadMesh: each present channel's buffer is
   * sized to one entry per corner, then one pass over the corners copies
   * each corner's entries into its slot; the three channels are decided on
   * their own counts.
   */
  method Flatten<F(0)>(m: ObjMesh<F>) returns (b: MeshBuffers<F>)
    requires WellFormed(m)
    ensures b == FlatBuffers(m)
  {
    var k := |m.indices|;
    var positions := new F[if m.positionCount > 1 then k * ComponentsInVertex else 0];
    var normals := new F[if m.normalCount > 1 then k * ComponentsInNormal else 0];
    var texCoords := new F[if m.texcoordCount > 1 then k * ComponentsInTexCoord else 0];
    FilledStart(positions, m.positionCount, m.positions, ComponentsInVertex, Selectors(m.indices, Positions));
    FilledStart(normals, m.normalCount, m.normals, ComponentsInNormal, Selectors(m.indices, Normals));
    FilledStart(texCoords, m.texcoordCount, m.texcoords, ComponentsInTexCoord, Selectors(m.indices, TexCoords));

    var i := 0;
    while i < k
      invariant 0 <= i <= k
      invariant Progress(m, positions, normals, texCoords, i)
    {
      FillCorner(m, positions, normals, texCoords, i);
      i := i + 1;
    }
    FilledDone(positions, m.positionCount, m.positions, ComponentsInVertex, Selectors(m.indices, Positions));
    FilledDone(normals, m.normalCount, m.normals, ComponentsInNormal, Selectors(m.indices, Normals));
    FilledDone(texCoords, m.texcoordCount, m.texcoords, ComponentsInTexCoord, Selectors(m.indices, TexCoords));
    b := MeshBuffers(positions[..], normals[..], texCoords[..]);
  }

  /**
   * LoadMesh after the resource lookup and the parser have run. A
   * RootException raised before a mesh exists reaches the failure handler
   * alone; otherwise the buffers are built and handed to the completion
   * handler, and the parser's mesh is released exactly once, whether the
   * handler returns (success) or raises (then the failure handler follows).
   */
  method LoadMesh<F(0)>(run: ParserRun<F>, handlerRaises: Option<string>)
    returns (ok: bool, events: seq<Event<F>>)
    requires run.Parsed? ==> WellFormed(run.mesh)
    ensures ok <==> run.Parsed? && handlerRaises.None?
    ensures run.Threw? ==> events == [Failed(run.reason)]
    ensures run.Parsed? && handlerRaises.None? ==>
      events == [Completed(FlatBuffers(run.mesh)), Destroyed]
    ensures run.Parsed? && handlerRaises.Some? ==>
      events == [Completed(FlatBuffers(run.mesh)), Destroyed, Failed(handlerRaises.value)]
  {
    var meshData: Option<ObjMesh<F>> := None;
    var thrown: Option<string> := None;
    events := [];
    match run {
      case Threw(reason) =>
        thrown := Some(reason);
      case Parsed(mesh) =>
        meshData := Some(mesh);
        var buffers := Flatten(mesh);
        events := events + [Completed(buffers)];
        thrown := handlerRaises;
        if thrown.None? {
          events := events + [Destroyed];
        }
    }
    if thrown.Some? {
      if meshData.Some? {
        events := events + [Destroyed];
      }
      events := events + [Failed(thrown.value)];
      return false, events;
    }
    return true, events;
  }
}
