/** Mesh: vertex and (optional) index data uploaded to device-local buffers through staging
    buffers, bound and drawn indexed exactly when there are indices; and Mesh::Builder, which
    flattens a parsed OBJ file into one vertex per index entry. Floats are opaque 32-bit
    patterns: the code copies them and never computes with them. */
module Meshes {
  import opened Vulkan

  // ---------------------------------------------------------------------------------------
  // Vertices and their memory layout

  /** An IEEE-754 single, as its bit pattern read as an unsigned 32-bit integer. */
  type Float = u32

  const FloatZero: Float := 0
  const FloatOne: Float := 0x3F80_0000

  datatype Vec3 = Vec3(x: Float, y: Float, z: Float)
  datatype Vec2 = Vec2(x: Float, y: Float)

  const Zero3 := Vec3(FloatZero, FloatZero, FloatZero)
  const Zero2 := Vec2(FloatZero, FloatZero)
  const White := Vec3(FloatOne, FloatOne, FloatOne)

  /** Mesh::Vertex: position, color, normal, uv. */
  datatype Vertex = Vertex(position: Vec3, color: Vec3, normal: Vec3, uv: Vec2)

  /** `Vertex{}`: every component zero. */
  const DefaultVertex := Vertex(Zero3, Zero3, Zero3, Zero2)

  /** sizeof and offsetof of Mesh::Vertex: four tightly packed float vectors. */
  const Vec3Size: nat := 12
  const Vec2Size: nat := 8
  const PositionOffset: nat := 0
  const ColorOffset: nat := PositionOffset + Vec3Size
  const NormalOffset: nat := ColorOffset + Vec3Size
  const UvOffset: nat := NormalOffset + Vec3Size
  const VertexSize: nat := UvOffset + Vec2Size

  /** sizeof(uint32_t), the index type. */
  const IndexSize: nat := 4

  /** Device memory is modelled in 32-bit words: every element a mesh stores (a float or a
      uint32_t index) is one word, so a byte offset is four times a word offset. */
  type Word = u32
  const WordSize: nat := 4
  const VertexWords: nat := 11

  /** The words of one Vertex, fields at their offsets. */
  function VertexData(v: Vertex): (w: seq<Word>)
    ensures WordSize * |w| == VertexSize
  {
    [v.position.x, v.position.y, v.position.z, v.color.x, v.color.y, v.color.z,
     v.normal.x, v.normal.y, v.normal.z, v.uv.x, v.uv.y]
  }

  function VertexOf(w: seq<Word>): Vertex
    requires |w| == VertexWords
  {
    Vertex(Vec3(w[0], w[1], w[2]), Vec3(w[3], w[4], w[5]), Vec3(w[6], w[7], w[8]), Vec2(w[9], w[10]))
  }

  /** The words of a vertex array, as memcpy reads them. */
  function VerticesData(vs: seq<Vertex>): (w: seq<Word>)
    ensures |w| == VertexWords * |vs|
  {
    if vs == [] then [] else VerticesData(vs[..|vs| - 1]) + VertexData(vs[|vs| - 1])
  }

  function VerticesOf(w: seq<Word>): seq<Vertex>
    requires |w| % VertexWords == 0
    decreases |w|
  {
    if |w| == 0 then [] else VerticesOf(w[..|w| - VertexWords]) + [VertexOf(w[|w| - VertexWords..])]
  }

  /** One vertex reads back from its own words. */
  lemma VertexRoundTrip(v: Vertex)
    ensures VertexOf(VertexData(v)) == v
  {
  }

  /** Uploaded vertex data reads back as the vertices. */
  lemma {:induction false} VerticesRoundTrip(vs: seq<Vertex>)
    ensures VerticesOf(VerticesData(vs)) == vs
  {
    if vs != [] {
      var init, v := vs[..|vs| - 1], vs[|vs| - 1];
      var front, last := VerticesData(init), VertexData(v);
      var w := front + last;
      assert VerticesData(vs) == w;
      assert w[..|w| - VertexWords] == front && w[|w| - VertexWords..] == last;
      assert VerticesOf(w) == VerticesOf(front) + [VertexOf(last)];
      VertexRoundTrip(v);
      VerticesRoundTrip(init);
      assert vs == init + [v];
    }
  }

  // ---------------------------------------------------------------------------------------
  // Vertex input descriptions

  datatype InputRate = PerVertex
  datatype Format = R32G32B32Sfloat

  function FormatSize(f: Format): nat {
    match f
    case R32G32B32Sfloat => 12
  }

  datatype BindingDescription = BindingDescription(binding: nat, stride: nat, inputRate: InputRate)
  datatype AttributeDescription = AttributeDescription(binding: nat, location: nat, format: Format, offset: nat)

  /** Vertex::GetBindingDescriptions: one per-vertex binding 0 with the vertex stride. */
  function GetBindingDescriptions(): seq<BindingDescription> {
    [BindingDescription(0, VertexSize, PerVertex)]
  }

  /** Vertex::GetAttributeDescriptions: position at location 0, color at location 1. */
  function GetAttributeDescriptions(): seq<AttributeDescription> {
    [AttributeDescription(0, 0, R32G32B32Sfloat, PositionOffset),
     AttributeDescription(0, 1, R32G32B32Sfloat, ColorOffset)]
  }

  /** The descriptions agree with the Vertex layout: one binding of stride sizeof(Vertex);
      every attribute uses that binding, has its own location, fits in the stride, and reads
      from an uploaded vertex exactly the field it names. */
  lemma DescriptionsMatchLayout(v: Vertex)
    ensures var bs := GetBindingDescriptions();
      |bs| == 1 && bs[0].binding == 0 && bs[0].stride == VertexSize
    ensures var attrs := GetAttributeDescriptions();
      && (forall i :: 0 <= i < |attrs| ==> attrs[i].binding == 0 && attrs[i].offset + FormatSize(attrs[i].format) <= VertexSize)
      && (forall i, j :: 0 <= i < j < |attrs| ==> attrs[i].location != attrs[j].location)
      && (forall i :: 0 <= i < |attrs| ==> attrs[i].offset % WordSize == 0)
      && VertexData(v)[attrs[0].offset / WordSize..(attrs[0].offset + FormatSize(attrs[0].format)) / WordSize] == [v.position.x, v.position.y, v.position.z]
      && VertexData(v)[attrs[1].offset / WordSize..(attrs[1].offset + FormatSize(attrs[1].format)) / WordSize] == [v.color.x, v.color.y, v.color.z]
  {
  }

  // ---------------------------------------------------------------------------------------
  // The device's buffer helpers

  datatype Usage = TransferSrc | TransferDst | VertexBufferUsage | IndexBufferUsage
  datatype MemoryProperty = HostVisible | HostCoherent | DeviceLocal

  /** A VkBuffer with its bound VkDeviceMemory: `size` bytes held as `size / 4` words. */
  datatype DeviceBuffer = DeviceBuffer(size: nat, usage: set<Usage>, properties: set<MemoryProperty>, words: seq<Word>)

  function Zeros(n: nat): (z: seq<Word>)
    ensures |z| == n
  {
    seq(n, _ => 0)
  }

  /** EngineDevice, as far as meshes use it: buffers are created with fresh handles, filled
      from the host, copied on the device, and released. */
  class EngineDevice {
    var next: nat
    var buffers: map<nat, DeviceBuffer>

    predicate Valid()
      reads this
    {
      && 0 < next
      && (forall h :: h in buffers ==> 0 < h < next)
      && (forall h :: h in buffers ==> WordSize * |buffers[h].words| == buffers[h].size)
    }

    constructor ()
      ensures Valid() && buffers == map[]
    {
      next, buffers := 1, map[];
    }

    /** CreateBuffer: a new buffer and its memory (zero-filled here; the mesh writes every
        word before reading any). */
    method CreateBuffer(size: nat, usage: set<Usage>, properties: set<MemoryProperty>) returns (h: nat)
      requires Valid() && size % WordSize == 0
      modifies this
      ensures Valid() && h !in old(buffers) && h != 0
      ensures buffers == old(buffers)[h := DeviceBuffer(size, usage, properties, Zeros(size / WordSize))]
    {
      h := next;
      buffers := buffers[h := DeviceBuffer(size, usage, properties, Zeros(size / WordSize))];
      next := next + 1;
    }

    /** vkMapMemory, memcpy of the whole buffer, vkUnmapMemory. */
    method Upload(h: nat, data: seq<Word>)
      requires Valid() && h in buffers && HostVisible in buffers[h].properties && WordSize * |data| == buffers[h].size
      modifies this
      ensures Valid() && buffers == old(buffers)[h := old(buffers)[h].(words := data)]
    {
      buffers := buffers[h := buffers[h].(words := data)];
    }

    /** CopyBuffer: the first `size` bytes of `src` replace those of `dst`. */
    method CopyBuffer(src: nat, dst: nat, size: nat)
      requires Valid() && src in buffers && dst in buffers && size % WordSize == 0
      requires size <= buffers[src].size && size <= buffers[dst].size
      modifies this
      ensures Valid()
      ensures buffers == old(buffers)[dst := old(buffers)[dst].(words :=
        old(buffers)[src].words[..size / WordSize] + old(buffers)[dst].words[size / WordSize..])]
    {
      var n := size / WordSize;
      buffers := buffers[dst := buffers[dst].(words := buffers[src].words[..n] + buffers[dst].words[n..])];
    }

    /** vkDestroyBuffer and vkFreeMemory. */
    method Release(h: nat)
      requires Valid()
      modifies this
      ensures Valid() && buffers == old(buffers) - {h}
    {
      buffers := buffers - {h};
    }
  }

  /** A staging buffer that is created, used and released leaves no trace in the map. */
  lemma StagingLeavesNoTrace(m: map<nat, DeviceBuffer>, s: nat, vs: DeviceBuffer, h: nat, vh: DeviceBuffer)
    requires s !in m && h != s
    ensures m[s := vs][h := vh] - {s} == m[h := vh]
  {
  }

  /** A staged upload: a host-visible staging buffer receives the data, a device-local buffer
      of the same size receives a copy of it, and the staging buffer is released. Only the
      destination remains, holding exactly the data. */
  method StagedUpload(device: EngineDevice, data: seq<Word>, usage: Usage) returns (h: nat)
    requires device.Valid()
    modifies device
    ensures device.Valid() && h !in old(device.buffers) && h != 0
    ensures device.buffers == old(device.buffers)[h :=
      DeviceBuffer(WordSize * |data|, {usage, TransferDst}, {DeviceLocal}, data)]
  {
    var size := WordSize * |data|;
    assert size / WordSize == |data|;
    var staging := device.CreateBuffer(size, {TransferSrc}, {HostVisible, HostCoherent});
    device.Upload(staging, data);
    ghost var stagingBuffer := device.buffers[staging];
    h := device.CreateBuffer(size, {usage, TransferDst}, {DeviceLocal});
    ghost var created := device.buffers[h];
    ghost var withBoth := old(device.buffers)[staging := stagingBuffer][h := created];
    assert device.buffers == withBoth;
    device.CopyBuffer(staging, h, size);
    ghost var copied := DeviceBuffer(size, {usage, TransferDst}, {DeviceLocal}, data);
    assert |created.words| == |data| && stagingBuffer.words == data;
    assert created.words[|data|..] == [] && data[..|data|] == data;
    assert device.buffers[h] == copied;
    assert device.buffers == withBoth[h := copied];
    assert withBoth[h := copied] == old(device.buffers)[staging := stagingBuffer][h := copied];
    device.Release(staging);
    StagingLeavesNoTrace(old(device.buffers), staging, stagingBuffer, h, copied);
  }

  // ---------------------------------------------------------------------------------------
  // Mesh

  datatype IndexType = Uint32

  /** Commands a mesh records into a command buffer. */
  datatype MeshCommand =
    | BindVertexBuffers(cb: CommandBuffer, firstBinding: nat, vertexBuffers: seq<nat>, offsets: seq<nat>)
    | BindIndexBuffer(cb: CommandBuffer, indexBuffer: nat, offset: nat, indexType: IndexType)
    | DrawIndexed(cb: CommandBuffer, indexCount: u32, instanceCount: nat, firstIndex: nat, vertexOffset: nat, firstInstance: nat)
    | Draw(cb: CommandBuffer, vertexCount: u32, instanceCount: nat, firstVertex: nat, firstInstance: nat)

  class Mesh {
    const device: EngineDevice
    var vertexBuffer: nat
    var vertexCount: u32
    var hasIndexBuffer: bool
    var indexBuffer: nat
    var indexCount: u32

    /** Both buffers are alive and distinct, sized for exactly the counted elements; the index
        buffer exists exactly when there is a nonzero index count. */
    predicate Valid()
      reads this, device
    {
      && device.Valid()
      && vertexBuffer in device.buffers
      && device.buffers[vertexBuffer].size == VertexSize * vertexCount
      && (hasIndexBuffer <==> indexCount > 0)
      && (hasIndexBuffer ==> indexBuffer in device.buffers && indexBuffer != vertexBuffer
                             && device.buffers[indexBuffer].size == IndexSize * indexCount)
    }

    /** Mesh(device, builder): no index buffer yet, then the vertex and the index buffer.
        Only the two device-local buffers remain; each reads back as the counted prefix of its
        list, and nothing else on the device changes. */
    constructor (device: EngineDevice, vertices: seq<Vertex>, indices: seq<u32>)
      requires device.Valid() && ToU32(|vertices|) >= 3
      modifies device
      ensures this.device == device && Valid()
      ensures vertexCount == ToU32(|vertices|) && indexCount == ToU32(|indices|)
      ensures hasIndexBuffer <==> ToU32(|indices|) > 0
      ensures VerticesOf(device.buffers[vertexBuffer].words) == vertices[..vertexCount]
      ensures hasIndexBuffer ==> device.buffers[indexBuffer].words == indices[..indexCount]
      ensures vertexBuffer !in old(device.buffers) && (hasIndexBuffer ==> indexBuffer !in old(device.buffers))
      ensures device.buffers.Keys == old(device.buffers).Keys + {vertexBuffer} + (if hasIndexBuffer then {indexBuffer} else {})
      ensures forall h :: h in old(device.buffers) ==> device.buffers[h] == old(device.buffers)[h]
    {
      this.device := device;
      hasIndexBuffer := false;
      new;
      CreateVertexBuffer(vertices);
      CreateIndexBuffer(indices);
    }

    /** CreateVertexBuffer: asserts at least three vertices, then stages the counted vertices
        into a device-local vertex buffer. */
    method CreateVertexBuffer(vertices: seq<Vertex>)
      requires device.Valid() && ToU32(|vertices|) >= 3
      modifies this, device
      ensures device.Valid() && unchanged(this`hasIndexBuffer, this`indexBuffer, this`indexCount)
      ensures vertexCount == ToU32(|vertices|)
      ensures vertexBuffer !in old(device.buffers)
      ensures device.buffers == old(device.buffers)[vertexBuffer :=
        DeviceBuffer(VertexSize * vertexCount, {VertexBufferUsage, TransferDst}, {DeviceLocal}, VerticesData(vertices[..vertexCount]))]
      ensures VerticesOf(device.buffers[vertexBuffer].words) == vertices[..vertexCount]
    {
      vertexCount := ToU32(|vertices|);
      var counted := vertices[..vertexCount];
      var data := VerticesData(counted);
      assert WordSize * |data| == VertexSize * vertexCount by {
        assert |data| == VertexWords * |counted|;
      }
      vertexBuffer := StagedUpload(device, data, VertexBufferUsage);
      VerticesRoundTrip(counted);
    }

    /** CreateIndexBuffer: records whether there are indices, and only then stages the counted
        indices into a device-local index buffer. */
    method CreateIndexBuffer(indices: seq<u32>)
      requires device.Valid()
      modifies this, device
      ensures device.Valid() && unchanged(this`vertexBuffer, this`vertexCount)
      ensures indexCount == ToU32(|indices|)
      ensures hasIndexBuffer == (old(hasIndexBuffer) || indexCount > 0)
      ensures indexCount == 0 ==> device.buffers == old(device.buffers) && indexBuffer == old(indexBuffer)
      ensures indexCount > 0 ==> indexBuffer !in old(device.buffers)
      ensures indexCount > 0 ==> device.buffers == old(device.buffers)[indexBuffer :=
        DeviceBuffer(IndexSize * indexCount, {IndexBufferUsage, TransferDst}, {DeviceLocal}, indices[..indexCount])]
    {
      indexCount := ToU32(|indices|);
      if indexCount > 0 {
        indexBuffer := StagedUpload(device, indices[..indexCount], IndexBufferUsage);
        hasIndexBuffer := true;
      }
    }

    /** Bind: the vertex buffer at binding 0, offset 0; the index buffer only if there is one. */
    function Bind(cb: CommandBuffer): (r: seq<MeshCommand>)
      reads this, device
      requires Valid()
      ensures 1 <= |r| && r[0] == BindVertexBuffers(cb, 0, [vertexBuffer], [0]) && vertexBuffer in device.buffers
      ensures |r| == 2 <==> hasIndexBuffer
      ensures hasIndexBuffer ==> r[1] == BindIndexBuffer(cb, indexBuffer, 0, Uint32)
                                 && indexBuffer in device.buffers && indexBuffer != vertexBuffer
    {
      [BindVertexBuffers(cb, 0, [vertexBuffer], [0])] + if hasIndexBuffer then [BindIndexBuffer(cb, indexBuffer, 0, Uint32)] else []
    }

    /** Draw: an indexed draw over every uploaded index when there is an index buffer,
        otherwise a plain draw over every uploaded vertex. */
    function Draw(cb: CommandBuffer): (r: seq<MeshCommand>)
      reads this, device
      requires Valid()
      ensures |r| == 1 && r[0].cb == cb && (r[0].DrawIndexed? <==> hasIndexBuffer)
      ensures r[0].DrawIndexed? ==> IndexSize * r[0].indexCount == device.buffers[indexBuffer].size && r[0].indexCount > 0
      ensures r[0].Draw? ==> VertexSize * r[0].vertexCount == device.buffers[vertexBuffer].size
      ensures (r[0].DrawIndexed? || r[0].Draw?) && r[0].instanceCount == 1
    {
      if hasIndexBuffer then [DrawIndexed(cb, indexCount, 1, 0, 0, 0)] else [MeshCommand.Draw(cb, vertexCount, 1, 0, 0)]
    }

    /** The destructor: release the vertex buffer, and the index buffer only if there is one. */
    method Destroy()
      requires Valid()
      modifies device
      ensures device.Valid()
      ensures device.buffers == old(device.buffers) - {vertexBuffer} - (if hasIndexBuffer then {indexBuffer} else {})
    {
      device.Release(vertexBuffer);
      if hasIndexBuffer {
        device.Release(indexBuffer);
      }
    }
  }

  // ---------------------------------------------------------------------------------------
  // Builder::LoadModel

  /** tinyobj::index_t. */
  datatype ObjIndex = ObjIndex(vertexIndex: i32, normalIndex: i32, texcoordIndex: i32)

  /** tinyobj::attrib_t: flat float arrays. */
  datatype Attrib = Attrib(vertices: seq<Float>, normals: seq<Float>, texcoords: seq<Float>)

  datatype Shape = Shape(indices: seq<ObjIndex>)

  /** What tinyobj::LoadObj produced: its verdict, the parsed data and its messages. */
  datatype ObjLoad = ObjLoad(ok: bool, attrib: Attrib, shapes: seq<Shape>, warn: string, err: string)

  /** Every component an index entry asks for exists in the attribute arrays. */
  predicate IndexInRange(a: Attrib, ix: ObjIndex) {
    && (ix.vertexIndex >= 0 ==> 3 * ix.vertexIndex + 2 < |a.vertices|)
    && (ix.normalIndex >= 0 ==> 3 * ix.normalIndex + 2 < |a.normals|)
    && (ix.texcoordIndex >= 0 ==> 2 * ix.texcoordIndex + 1 < |a.texcoords|)
  }

  predicate WellIndexed(a: Attrib, shapes: seq<Shape>) {
    forall s, i :: 0 <= s < |shapes| && 0 <= i < |shapes[s].indices| ==> IndexInRange(a, shapes[s].indices[i])
  }

  /** The vertex emitted for one index entry. */
  function MakeVertex(a: Attrib, ix: ObjIndex): Vertex
    requires IndexInRange(a, ix)
  {
    var vi, ni, ti := ix.vertexIndex, ix.normalIndex, ix.texcoordIndex;
    Vertex(
      if vi >= 0 then Vec3(a.vertices[3 * vi], a.vertices[3 * vi + 1], a.vertices[3 * vi + 2]) else Zero3,
      White,
      if ni >= 0 then Vec3(a.normals[3 * ni], a.normals[3 * ni + 1], a.normals[3 * ni + 2]) else Zero3,
      if ti >= 0 then Vec2(a.texcoords[2 * ti], a.texcoords[2 * ti + 1]) else Zero2)
  }

  function FlattenShape(a: Attrib, indices: seq<ObjIndex>): seq<Vertex>
    requires forall i :: 0 <= i < |indices| ==> IndexInRange(a, indices[i])
  {
    if indices == [] then []
    else FlattenShape(a, indices[..|indices| - 1]) + [MakeVertex(a, indices[|indices| - 1])]
  }

  /** The vertices LoadModel emits: shape by shape, one per index entry. */
  function Flatten(a: Attrib, shapes: seq<Shape>): seq<Vertex>
    requires WellIndexed(a, shapes)
  {
    if shapes == [] then []
    else Flatten(a, shapes[..|shapes| - 1]) + FlattenShape(a, shapes[|shapes| - 1].indices)
  }

  /** The number of index entries over all shapes. */
  function IndexEntries(shapes: seq<Shape>): nat {
    if shapes == [] then 0 else IndexEntries(shapes[..|shapes| - 1]) + |shapes[|shapes| - 1].indices|
  }

  lemma {:induction false} FlattenShapeAt(a: Attrib, indices: seq<ObjIndex>, k: nat)
    requires forall i :: 0 <= i < |indices| ==> IndexInRange(a, indices[i])
    requires k < |indices|
    ensures |FlattenShape(a, indices)| == |indices| && FlattenShape(a, indices)[k] == MakeVertex(a, indices[k])
    decreases |indices|
  {
    var init := indices[..|indices| - 1];
    if k < |init| {
      FlattenShapeAt(a, init, k);
    } else if init != [] {
      FlattenShapeAt(a, init, 0);
    }
  }

  lemma {:induction false} FlattenShapeLength(a: Attrib, indices: seq<ObjIndex>)
    requires forall i :: 0 <= i < |indices| ==> IndexInRange(a, indices[i])
    ensures |FlattenShape(a, indices)| == |indices|
    decreases |indices|
  {
    if indices != [] {
      FlattenShapeLength(a, indices[..|indices| - 1]);
    }
  }

  /** LoadModel emits exactly one vertex per index entry, in shape-then-index order: the
      vertex for entry i of shape s sits after the entries of all earlier shapes. */
  lemma {:induction false} FlattenOnePerIndex(a: Attrib, shapes: seq<Shape>, s: nat, i: nat)
    requires WellIndexed(a, shapes) && s < |shapes| && i < |shapes[s].indices|
    ensures |Flatten(a, shapes)| == IndexEntries(shapes)
    ensures IndexEntries(shapes[..s]) + i < |Flatten(a, shapes)|
    ensures Flatten(a, shapes)[IndexEntries(shapes[..s]) + i] == MakeVertex(a, shapes[s].indices[i])
    decreases |shapes|
  {
    var n := |shapes| - 1;
    var init := shapes[..n];
    assert WellIndexed(a, init);
    var front, back := Flatten(a, init), FlattenShape(a, shapes[n].indices);
    assert Flatten(a, shapes) == front + back;
    assert IndexEntries(shapes) == IndexEntries(init) + |shapes[n].indices|;
    FlattenShapeLength(a, shapes[n].indices);
    FlattenLength(a, init);
    if s < n {
      FlattenOnePerIndex(a, init, s, i);
      assert init[..s] == shapes[..s];
    } else {
      assert shapes[..s] == init;
      FlattenShapeAt(a, shapes[n].indices, i);
    }
  }

  lemma {:induction false} FlattenLength(a: Attrib, shapes: seq<Shape>)
    requires WellIndexed(a, shapes)
    ensures |Flatten(a, shapes)| == IndexEntries(shapes)
    decreases |shapes|
  {
    if shapes != [] {
      var init := shapes[..|shapes| - 1];
      assert WellIndexed(a, init);
      FlattenLength(a, init);
      FlattenShapeLength(a, shapes[|shapes| - 1].indices);
    }
  }

  /** Every emitted vertex is white, and takes a position, normal and uv from the attribute
      arrays (at strides 3, 3 and 2) exactly when the entry's index for it is not negative;
      otherwise that component keeps its zero default. */
  lemma LoadedVertexComponents(a: Attrib, ix: ObjIndex)
    requires IndexInRange(a, ix)
    ensures var v := MakeVertex(a, ix);
      && v.color == White
      && (ix.vertexIndex < 0 ==> v.position == DefaultVertex.position)
      && (ix.vertexIndex >= 0 ==>
            v.position == Vec3(a.vertices[3 * ix.vertexIndex], a.vertices[3 * ix.vertexIndex + 1], a.vertices[3 * ix.vertexIndex + 2]))
      && (ix.normalIndex < 0 ==> v.normal == DefaultVertex.normal)
      && (ix.normalIndex >= 0 ==>
            v.normal == Vec3(a.normals[3 * ix.normalIndex], a.normals[3 * ix.normalIndex + 1], a.normals[3 * ix.normalIndex + 2]))
      && (ix.texcoordIndex < 0 ==> v.uv == DefaultVertex.uv)
      && (ix.texcoordIndex >= 0 ==> v.uv == Vec2(a.texcoords[2 * ix.texcoordIndex], a.texcoords[2 * ix.texcoordIndex + 1]))
  {
  }

  /** Mesh::Builder. */
  class Builder {
    var vertices: seq<Vertex>
    var indices: seq<u32>

    constructor ()
      ensures vertices == [] && indices == []
    {
      vertices, indices := [], [];
    }

    /** LoadModel: throw tinyobj's messages when parsing failed; otherwise clear both lists
        and push one vertex per index entry, shape by shape, leaving the index list empty. */
    method LoadModel(obj: ObjLoad) returns (outcome: Outcome)
      requires obj.ok ==> WellIndexed(obj.attrib, obj.shapes)
      modifies this
      ensures !obj.ok ==> outcome == Threw(obj.warn + obj.err) && vertices == old(vertices) && indices == old(indices)
      ensures obj.ok ==> outcome == Normal && vertices == Flatten(obj.attrib, obj.shapes) && indices == []
    {
      if !obj.ok {
        return Threw(obj.warn + obj.err);
      }
      vertices := [];
      indices := [];
      for s := 0 to |obj.shapes|
        invariant indices == [] && WellIndexed(obj.attrib, obj.shapes[..s])
        invariant vertices == Flatten(obj.attrib, obj.shapes[..s])
      {
        AppendShape(obj.attrib, obj.shapes[s].indices);
        assert obj.shapes[..s + 1][..s] == obj.shapes[..s];
      }
      assert obj.shapes[..|obj.shapes|] == obj.shapes;
      outcome := Normal;
    }

    /** The inner loop of LoadModel: one vertex per index entry of a shape. */
    method AppendShape(a: Attrib, entries: seq<ObjIndex>)
      requires forall i :: 0 <= i < |entries| ==> IndexInRange(a, entries[i])
      modifies this`vertices
      ensures vertices == old(vertices) + FlattenShape(a, entries)
    {
      for i := 0 to |entries|
        invariant vertices == old(vertices) + FlattenShape(a, entries[..i])
      {
        var ix := entries[i];
        var vert := DefaultVertex;
        if ix.vertexIndex >= 0 {
          vert := vert.(position := Vec3(a.vertices[3 * ix.vertexIndex], a.vertices[3 * ix.vertexIndex + 1], a.vertices[3 * ix.vertexIndex + 2]));
        }
        vert := vert.(color := White);
        if ix.normalIndex >= 0 {
          vert := vert.(normal := Vec3(a.normals[3 * ix.normalIndex], a.normals[3 * ix.normalIndex + 1], a.normals[3 * ix.normalIndex + 2]));
        }
        if ix.texcoordIndex >= 0 {
          vert := vert.(uv := Vec2(a.texcoords[2 * ix.texcoordIndex], a.texcoords[2 * ix.texcoordIndex + 1]));
        }
        assert vert == MakeVertex(a, ix);
        assert entries[..i + 1][..i] == entries[..i];
        vertices := vertices + [vert];
      }
      assert entries[..|entries|] == entries;
    }
  }

  /** Mesh::CreateModelFromFile: load the file into a fresh builder, then build the mesh. */
  method CreateModelFromFile(device: EngineDevice, obj: ObjLoad) returns (mesh: Mesh?, outcome: Outcome)
    requires device.Valid()
    requires obj.ok ==> WellIndexed(obj.attrib, obj.shapes) && ToU32(IndexEntries(obj.shapes)) >= 3
    modifies device
    ensures outcome == Normal <==> mesh != null
    ensures obj.ok ==> outcome == Normal
    ensures !obj.ok ==> outcome == Threw(obj.warn + obj.err) && device.buffers == old(device.buffers)
    ensures mesh != null ==> mesh.vertexBuffer !in old(device.buffers)
    ensures mesh != null ==> forall h :: h in old(device.buffers) ==> h in device.buffers && device.buffers[h] == old(device.buffers)[h]
    ensures mesh != null ==> (mesh.Valid() && mesh.device == device && !mesh.hasIndexBuffer
      && mesh.vertexCount == ToU32(|Flatten(obj.attrib, obj.shapes)|)
      && VerticesOf(device.buffers[mesh.vertexBuffer].words) == Flatten(obj.attrib, obj.shapes)[..mesh.vertexCount])
  {
    var builder := new Builder();
    outcome := builder.LoadModel(obj);
    if outcome != Normal {
      return null, outcome;
    }
    FlattenLength(obj.attrib, obj.shapes);
    mesh := new Mesh(device, builder.vertices, builder.indices);
  }
}
