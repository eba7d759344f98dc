// The stream adapter that feeds a mesh resource to the OBJ parser through
// its open/close/read/size callbacks (drape_frontend/arrow3d.cpp:53-95).

module FastObjAdapter {

  import opened Wrappers

  newtype byte = x: int | 0 <= x < 0x100

  /** Largest value of the platform's `size_t` (64-bit targets). */
  const SizeMax: nat := 0xFFFF_FFFF_FFFF_FFFF

  /** The one virtual file name the parser is allowed to open. */
  const MainFileId: string := "main_obj_file_id"

  /**
   * A cursor over the bytes of one resource: the reader the adapter's
   * callbacks receive as their user data. `Size` is the number of bytes
   * not yet read, `pos` the cursor.
   */
  class ReaderSource {
    const data: seq<byte>
    var pos: nat

    ghost predicate Valid()
      reads this
    {
      pos <= |data|
    }

    /** The bytes the parser has not read yet. */
    ghost function Rest(): seq<byte>
      reads this
      requires Valid()
    {
      data[pos..]
    }

    function Size(): (n: nat)
      reads this
      requires Valid()
      ensures n == |Rest()|
    {
      |data| - pos
    }

    constructor (resource: seq<byte>)
      ensures Valid() && data == resource && pos == 0
    {
      data := resource;
      pos := 0;
    }

    /** Copies the next `n` bytes into `dst` and moves the cursor past them. */
    method Read(dst: array<byte>, n: nat)
      requires Valid() && n <= Size() && n <= dst.Length
      modifies this`pos, dst
      ensures Valid() && pos == old(pos) + n
      ensures dst[..n] == old(Rest()[..n])
      ensures dst[n..] == old(dst[n..])
    {
      forall k | 0 <= k < n {
        dst[k] := data[pos + k];
      }
      pos := pos + n;
    }
  }

  /**
   * The open callback: only the main file id is opened, and "opening" it
   * hands back the reader itself; any other name (a material library or
   * any file referenced from inside the model) is refused.
   */
  function FileOpen(path: string, userData: ReaderSource): (r: Option<ReaderSource>)
    ensures r.Some? <==> path == MainFileId
    ensures r.Some? ==> r.value == userData
  {
    if MainFileId != path then None else Some(userData)
  }

  /**
   * The read callback: clamps the request to what is left, reads it into
   * `dst` and returns how far the cursor moved. At end of stream nothing is
   * read and 0 is returned.
   */
  method FileRead(dst: array<byte>, bytes: nat, reader: ReaderSource) returns (n: nat)
    requires reader.Valid() && bytes <= dst.Length && bytes <= SizeMax
    modifies reader`pos, dst
    ensures reader.Valid()
    ensures n == if bytes <= old(reader.Size()) then bytes else old(reader.Size())
    ensures n <= SizeMax
    ensures reader.pos == old(reader.pos) + n
    ensures dst[..n] + reader.Rest() == old(reader.Rest())
    ensures dst[n..] == old(dst[n..])
  {
    var sz := reader.Size();
    if sz == 0 {
      return 0;
    }
    var count := bytes;
    if count > sz {
      count := sz;
    }
    var p := reader.pos;
    reader.Read(dst, count);
    assert p <= reader.pos;
    n := reader.pos - p;
    assert old(reader.Rest()) == old(reader.Rest())[..n] + old(reader.Rest())[n..];
  }

  /**
   * The size callback: the number of bytes left, which must be
   * representable below the `size_t` maximum.
   */
  function FileSize(reader: ReaderSource): (r: nat)
    reads reader
    requires reader.Valid() && reader.Size() < SizeMax
    ensures r < SizeMax
    ensures r + reader.pos == |reader.data|
  {
    reader.Size()
  }

  /** The material library `arrow.mtl` is refused by name. */
  lemma MaterialLibraryRefused(reader: ReaderSource)
    ensures FileOpen("arrow.mtl", reader) == None
  {
  }
}
