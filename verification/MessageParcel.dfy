/**
 The IPC parcel, as a sequence of typed cells with a read cursor.

 Writing appends a cell. Reading looks at the cell under the cursor and moves the cursor one cell on; a read
 past the end, or of a cell of another kind, yields the default of the requested kind.
 */
module MessageParcels {
  import opened TelephonyBase

  datatype Cell =
    | Int32(i: int32)
    | Int64(l: int64)
    | Bool(b: bool)
    | CStr(c: string)
    | Str(s: string)
    | Bytes(v: seq<uint8>)
    | Token(descriptor: string)

  function Int32At(cells: seq<Cell>, p: nat): int32 {
    if p < |cells| && cells[p].Int32? then cells[p].i else 0
  }

  function Int64At(cells: seq<Cell>, p: nat): int64 {
    if p < |cells| && cells[p].Int64? then cells[p].l else 0
  }

  predicate BoolAt(cells: seq<Cell>, p: nat) {
    p < |cells| && cells[p].Bool? && cells[p].b
  }

  function StrAt(cells: seq<Cell>, p: nat): string {
    if p < |cells| && cells[p].Str? then cells[p].s else ""
  }

  function BytesAt(cells: seq<Cell>, p: nat): seq<uint8> {
    if p < |cells| && cells[p].Bytes? then cells[p].v else []
  }

  function TokenAt(cells: seq<Cell>, p: nat): string {
    if p < |cells| && cells[p].Token? then cells[p].descriptor else ""
  }

  /** None is the null pointer that a failed read of a C string returns. */
  function CStrAt(cells: seq<Cell>, p: nat): Option<string> {
    if p < |cells| && cells[p].CStr? then Some(cells[p].c) else None
  }

  /** The bounded copy into a character array: a null or an overlong source leaves the array empty. */
  function BoundedCopy(src: Option<string>, capacity: nat): (r: string)
    ensures |r| <= capacity
  {
    if src.Some? && |src.value| <= capacity then src.value else ""
  }

  class MessageParcel {
    var cells: seq<Cell>
    var cursor: nat

    constructor ()
      ensures cells == [] && cursor == 0
    {
      cells, cursor := [], 0;
    }

    method Write(cell: Cell)
      modifies this`cells
      ensures cells == old(cells) + [cell]
    {
      cells := cells + [cell];
    }

    method ReadInt32() returns (r: int32)
      modifies this`cursor
      ensures cursor == old(cursor) + 1 && r == Int32At(cells, old(cursor))
    {
      r := Int32At(cells, cursor);
      cursor := cursor + 1;
    }

    /** The two-argument form: it also reports whether there was an integer to read. */
    method TryReadInt32() returns (ok: bool, r: int32)
      modifies this`cursor
      ensures cursor == old(cursor) + 1 && r == Int32At(cells, old(cursor))
      ensures ok == (old(cursor) < |cells| && cells[old(cursor)].Int32?)
    {
      ok := cursor < |cells| && cells[cursor].Int32?;
      r := Int32At(cells, cursor);
      cursor := cursor + 1;
    }

    method ReadInt64() returns (r: int64)
      modifies this`cursor
      ensures cursor == old(cursor) + 1 && r == Int64At(cells, old(cursor))
    {
      r := Int64At(cells, cursor);
      cursor := cursor + 1;
    }

    method ReadBool() returns (r: bool)
      modifies this`cursor
      ensures cursor == old(cursor) + 1 && r == BoolAt(cells, old(cursor))
    {
      r := BoolAt(cells, cursor);
      cursor := cursor + 1;
    }

    method ReadString() returns (r: string)
      modifies this`cursor
      ensures cursor == old(cursor) + 1 && r == StrAt(cells, old(cursor))
    {
      r := StrAt(cells, cursor);
      cursor := cursor + 1;
    }

    method ReadUInt8Vector() returns (r: seq<uint8>)
      modifies this`cursor
      ensures cursor == old(cursor) + 1 && r == BytesAt(cells, old(cursor))
    {
      r := BytesAt(cells, cursor);
      cursor := cursor + 1;
    }

    method ReadInterfaceToken() returns (descriptor: string)
      modifies this`cursor
      ensures cursor == old(cursor) + 1 && descriptor == TokenAt(cells, old(cursor))
    {
      descriptor := TokenAt(cells, cursor);
      cursor := cursor + 1;
    }

    /** Reads a C string into a character array that has room for the given number of characters. */
    method ReadCharArray(capacity: nat) returns (r: string)
      modifies this`cursor
      ensures cursor == old(cursor) + 1 && r == BoundedCopy(CStrAt(cells, old(cursor)), capacity)
      ensures old(cursor) < |cells| && cells[old(cursor)].CStr? && |cells[old(cursor)].c| <= capacity ==>
        r == cells[old(cursor)].c
      ensures old(cursor) < |cells| && cells[old(cursor)].CStr? && |cells[old(cursor)].c| > capacity ==> r == ""
    {
      r := BoundedCopy(CStrAt(cells, cursor), capacity);
      cursor := cursor + 1;
    }
  }
}
