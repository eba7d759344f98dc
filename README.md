# 3D position arrow: mesh loading and render passes

This project is a Dafny model of the core of `drape_frontend/arrow3d.cpp`. That file draws the 3D position arrow on the map. The model covers four parts:

- **Stream adapter** (`FastObjAdapter`). The open, read and size callbacks through which the OBJ parser pulls one mesh resource. The parser may open only the file id `"main_obj_file_id"`, so it cannot open files that the model refers to. A read is clamped to the bytes left and returns how far the cursor moved. The size is the number of bytes left, which must fit below the `size_t` maximum. The reader is a class holding a byte sequence and a cursor.
- **Mesh loading** (`MeshLoader`). `LoadMesh` flattens the parser's indexed output into three flat float buffers: positions, normals and texture coordinates. Each buffer holds one entry per face corner. A channel counts as present only when its count is greater than 1, because entry 0 is the parser's placeholder. The fill loop works in place on arrays, one `memcpy` per present channel and corner. `LoadMesh` then either completes, or catches a `RootException`, releases the parser's mesh if there is one, and reports failure. The float payload is a type parameter `F`, since it is only ever copied.
- **Arrow state** (`Arrow.Arrow3d`). A class with the six placement fields. Each setter overwrites exactly one field. The constructor installs the buffers of the two loaded meshes (arrow and shadow).
- **Render passes** (`Arrow.Arrow3d.Render`). Each frame appends its draw calls to a draw log. A shadow pass runs exactly when the view is in perspective. An outline pass runs exactly in routing mode. The arrow pass always runs, and runs last. Each call records its mesh, program, colour name, depth bias, scale factor and the arrow's whole placement state; it does not record the view. `Arrow.Passes` gives the calls of one frame, and its contract states the gating, the order and the fixed settings of every pass.

Two points of the code's error handling that the model keeps:

- Only `RootException` is caught. Any other exception leaves `LoadMesh`.
- The completion handler can raise a `RootException` itself. Then both handlers run, and `LoadMesh` returns false. The parser's mesh is still released exactly once.

## Model

| member | source | states |
|---|---|---|
| `FastObjAdapter.FileOpen` | drape_frontend/arrow3d.cpp:54-62 | the reader (user data) is returned exactly when the path is `"main_obj_file_id"`; any other path opens nothing |
| `FastObjAdapter.MaterialLibraryRefused` | drape_frontend/arrow3d.cpp:56-60 | the concrete material-library name `"arrow.mtl"` is refused; the general refusal of every other path is `FileOpen`'s contract |
| `FastObjAdapter.ReaderSource.Read` | drape_frontend/arrow3d.cpp:82-84 | the reader copies the next `n` bytes into the destination and advances its position by exactly `n` |
| `FastObjAdapter.FileRead` | drape_frontend/arrow3d.cpp:69-86 | at end of stream nothing is read and 0 is returned; otherwise min(requested, remaining) bytes are copied; the result equals the cursor's advance, so it is never negative; the bytes copied followed by the bytes left equal the bytes that were left |
| `FastObjAdapter.FileSize` | drape_frontend/arrow3d.cpp:88-94 | the result is the number of bytes left (position + result = stream length) and lies below the `size_t` maximum, which the caller must guarantee |
| `MeshLoader.Gather` | drape_frontend/arrow3d.cpp:132-154 | gathering the entries that `k` corners select yields `k * w` floats |
| `MeshLoader.GatherAt` | drape_frontend/arrow3d.cpp:132-154 | slot `i` of a gathered buffer equals the source entry that corner `i` selects |
| `MeshLoader.ChannelBuffer` | drape_frontend/arrow3d.cpp:120-130 | a channel with more than one entry yields `corners * w` floats; a channel with at most one entry (the placeholder only) yields an empty buffer |
| `MeshLoader.ChannelBufferAt` | drape_frontend/arrow3d.cpp:132-154 | in a present channel, slot `i` of the buffer equals the entry that corner `i` selects, and that entry is in range |
| `MeshLoader.FlatBuffers` | drape_frontend/arrow3d.cpp:120-130 | buffer lengths are `index_count*3`, `index_count*3` and `index_count*2` for present channels and 0 otherwise; each channel is decided on its own count only |
| `MeshLoader.FlatBuffersAt` | drape_frontend/arrow3d.cpp:132-154 | for every corner `i`, each present buffer's slot `i` equals the source entry selected by `indices[i].p`, `.n` or `.t` respectively |
| `MeshLoader.CopyEntries` | drape_frontend/arrow3d.cpp:136-138 | the `memcpy` replaces exactly the target range of the destination with the source range; the rest of the destination is unchanged |
| `MeshLoader.CopyCorner` | drape_frontend/arrow3d.cpp:134-153 | one channel's copy for corner `i` extends that buffer's correctly filled prefix by one corner, and does nothing for an absent channel |
| `MeshLoader.FillCorner` | drape_frontend/arrow3d.cpp:133-154 | one iteration of the fill loop extends every channel's filled prefix by one corner |
| `MeshLoader.Flatten` | drape_frontend/arrow3d.cpp:119-154 | sizing the three buffers and running the fill loop yields exactly `FlatBuffers` of the parsed mesh |
| `MeshLoader.LoadMesh` | drape_frontend/arrow3d.cpp:97-169 | returns true exactly when a mesh was parsed and the completion handler returned. An exception before parsing ends gives only the failure handler with its message. Otherwise the completion handler receives the flattened buffers once and the mesh is released once. If the handler raises, the failure handler follows |
| `Arrow.ArrowMeshBuffers` | drape_frontend/arrow3d.cpp:183-204 | positions go to slot 0 as `a_pos`; slot 1 (`a_normal`) holds the loaded normals, or the synthesized ones exactly when no normals were loaded |
| `Arrow.ShadowMeshBuffers` | drape_frontend/arrow3d.cpp:213-228 | positions go to slot 0 as `a_pos` and the loaded texture coordinates to slot 1 as `a_texCoords`; nothing else is installed |
| `Arrow.Arrow3d.constructor` | drape_frontend/arrow3d.cpp:172-233 | each mesh gets its handler's buffers when its load succeeds and stays empty when it fails; construction always completes |
| `Arrow.Arrow3d.SetPosition` | drape_frontend/arrow3d.cpp:242-245 | replaces the position and leaves every other field unchanged |
| `Arrow.Arrow3d.SetAzimuth` | drape_frontend/arrow3d.cpp:247-250 | replaces the azimuth and leaves every other field unchanged |
| `Arrow.Arrow3d.SetPositionObsolete` | drape_frontend/arrow3d.cpp:257-260 | replaces the obsolete flag and leaves every other field unchanged |
| `Arrow.Arrow3d.SetMeshOffset` | drape_frontend/arrow3d.cpp:262-265 | replaces the mesh offset and leaves every other field unchanged |
| `Arrow.Arrow3d.SetMeshRotation` | drape_frontend/arrow3d.cpp:267-270 | replaces the mesh Euler angles and leaves every other field unchanged |
| `Arrow.Arrow3d.SetMeshScale` | drape_frontend/arrow3d.cpp:272-275 | replaces the mesh scale and leaves every other field unchanged |
| `Arrow.Passes` | drape_frontend/arrow3d.cpp:280-300 | a shadow pass exactly when perspective (shadow mesh, dz 0.05, scale 1.2 in routing mode else 1); an outline pass exactly in routing mode (shadow mesh, dz 0, scale 1.2); the arrow pass always, last (arrow mesh, dz 0, scale 1, colour `Arrow3DObsolete` exactly when obsolete, else `Arrow3D`); strictly in the order shadow, outline, arrow |
| `Arrow.Arrow3d.RenderArrow` | drape_frontend/arrow3d.cpp:303-313 | appends one draw call carrying the given mesh, program, colour, dz and scale and the current arrow state |
| `Arrow.Arrow3d.Render` | drape_frontend/arrow3d.cpp:277-301 | appends exactly the calls of `Passes` for the view and routing mode to the draw log and changes nothing else |

## Left out

- `Arrow3d::CalculateTransform` (arrow3d.cpp:315-372): floating-point quaternion and matrix arithmetic over a graphics math library. A draw call records the arrow's whole placement state (including the obsolete flag, which the transform does not read) and does not record the view, which the transform does read.
- `Arrow3d::GetMaxBottomSize`: a product of float constants, with no logic to check.
- `FileClose`: it does nothing.
- `SetTexture`: the texture comes from the texture manager, which is not part of this model.
- The OBJ parser (`fast_obj_read_with_callbacks`, `fast_obj_destroy`): a third-party library. Its result is an input (`ParserRun`), and releasing its mesh is an event.
- The resource lookup and `LOG`: I/O. A missing resource shows up as the `RootException` case of `ParserRun`.
- The GPU mesh objects, programs and colour table: backend calls. A mesh is a map from buffer slot to buffer, and colours are named tags.
- `GenerateNormalsForTriangles`: a backend call. The source passes it `positions` after `positions` was moved into `SetBuffer` (arrow3d.cpp:189, 198), so its input is unspecified. The synthesized normals are an unconstrained parameter.
- `CHECK` failures abort the process, so the model states them as preconditions. `FileSize` requires the remaining size to be below the `size_t` maximum. The constructor requires a parsed mesh to have positions. The parser returning null (arrow3d.cpp:117) is not modelled. A null reader cannot happen, because Dafny references are non-null.
- Exceptions other than `RootException` (for example a failed allocation while resizing the buffers) are not modelled.
- `MeshLoader.Flatten`: corner counts and indices are unbounded naturals. The source computes `index_count * 3` (or `* 2`), the loop counter and `index * 3` in 32-bit unsigned arithmetic (arrow3d.cpp:122-152); the model assumes these products do not wrap, so it does not capture the undersized buffer and out-of-bounds copies a wrap would cause.
- `FileRead`: `size_t` is taken to be 64 bits wide. Requests are assumed to fit the destination buffer, as the parser's contract provides.
- `Arrow.Passes`: the scale factor 1.2 and the shadow depth bias 0.05 are stated as exact reals. The source uses the floats `1.2f` and `0.05f`.
- `Arrow.Arrow3d.constructor`: the fields' initial values are declared in the class header, which is not part of this model. They are taken as a parameter.
