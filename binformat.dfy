/**
 * The tagged-chunk file format of `PVX_BinSaver.h`.
 *
 * A chunk is a `BinHeader` (a four-byte name, then a 32-bit unsigned `Size`)
 * followed by `Size` payload bytes; a payload is either raw data or a
 * sequence of child chunks. Integers are stored as the little-endian bytes of
 * their in-memory representation. `BinLoader::Process` registers a handler
 * per name, keyed by the name read as an `unsigned int` (the `TAG` value), and
 * `Execute` runs the handler of each chunk in file order.
 */
module BinFormat {
  import opened Wrappers

  import opened Bytes

  /** The four characters of a chunk name (`BinHeader::sName`). */
  type Name = s: seq<byte> | |s| == 4 witness [0, 0, 0, 0]

  /**
   * The `TAG(x, y, z, w)` macro, `w << 24 | z << 16 | y << 8 | x`: on four
   * byte values the shifted bytes do not overlap, so the `|` is a sum.
   */
  function Tag(x: byte, y: byte, z: byte, w: byte): nat {
    x as int + 0x100 * y as int + 0x1_0000 * z as int + 0x100_0000 * w as int
  }

  /**
   * The `iName` member of the `BinHeader` union: the four name bytes as they
   * lie in memory, read as one little-endian `unsigned int`.
   */
  function Key(n: Name): nat {
    FromLE(n)
  }

  lemma TagIsLE(x: byte, y: byte, z: byte, w: byte)
    ensures Tag(x, y, z, w) == FromLE([x, y, z, w])
  {
    assert [w][1..] == [];
    assert FromLE([w]) == w as int;
    assert [z, w][1..] == [w];
    assert FromLE([z, w]) == z as int + 0x100 * w as int;
    assert [y, z, w][1..] == [z, w];
    assert FromLE([y, z, w]) == y as int + 0x100 * z as int + 0x1_0000 * w as int;
    assert [x, y, z, w][1..] == [y, z, w];
  }

  /** `TAG` fits an `unsigned int` whose bytes in memory are `x, y, z, w`, in that order. */
  lemma TagBytes(x: byte, y: byte, z: byte, w: byte)
    ensures Tag(x, y, z, w) < TWO32 && LE(Tag(x, y, z, w), 4) == [x, y, z, w]
  {
    TagIsLE(x, y, z, w);
    LE_FromLE([x, y, z, w]);
    Pow256Four();
  }

  /** `TAG` of a name's four characters is the key the header union gives that name. */
  lemma TagIsKey(n: Name)
    ensures Tag(n[0], n[1], n[2], n[3]) == Key(n)
  {
    TagIsLE(n[0], n[1], n[2], n[3]);
    assert n == [n[0], n[1], n[2], n[3]];
  }

  /** Distinct names have distinct keys, so keying handlers by `iName` loses nothing. */
  lemma KeyInjective(a: Name, b: Name)
    requires Key(a) == Key(b)
    ensures a == b
  {
    LE_FromLE(a);
    LE_FromLE(b);
  }

  // ---------------------------------------------------------------- chunks

  /** A `BinHeader`: the name bytes, then `Size` as a 32-bit unsigned integer. */
  function Header(name: Name, size: nat): (h: seq<byte>)
    ensures |h| == 8 && h[..4] == name
  {
    name + LE(size % TWO32, 4)
  }

  /** One chunk: `Begin(name)`, the payload, `End()`. */
  function Chunk(name: Name, payload: seq<byte>): (c: seq<byte>)
    ensures |c| == 8 + |payload|
  {
    Header(name, |payload|) + payload
  }

  /** A chunk as the loader sees it. */
  datatype Field = Field(name: Name, payload: seq<byte>)

  /** Splits a scope into its chunks; `None` when a header or payload is cut short. */
  function ParseChunks(s: seq<byte>): (r: Option<seq<Field>>)
    decreases |s|
  {
    if s == [] then Some([])
    else if |s| < 8 then None
    else
      var size := FromLE(s[4..8]);
      if |s| - 8 < size then None
      else match ParseChunks(s[8 + size..])
        case None => None
        case Some(rest) => Some([Field(s[..4], s[8..8 + size])] + rest)
  }

  /** The bytes of a sequence of chunks written one after another. */
  function Encode(fs: seq<Field>): seq<byte> {
    if fs == [] then [] else Chunk(fs[0].name, fs[0].payload) + Encode(fs[1..])
  }

  /** Every payload is small enough for the 32-bit `Size` field. */
  predicate Fits(fs: seq<Field>) {
    forall k | 0 <= k < |fs| :: |fs[k].payload| < TWO32
  }

  /** The header of a chunk gives back its name and payload, and the bytes after it are untouched. */
  lemma ChunkParts(name: Name, payload: seq<byte>, rest: seq<byte>)
    requires |payload| < TWO32
    ensures var s := Chunk(name, payload) + rest;
      s[..4] == name && FromLE(s[4..8]) == |payload| &&
      s[8..8 + |payload|] == payload && s[8 + |payload|..] == rest
  {
    var s := Chunk(name, payload) + rest;
    assert s == name + LE(|payload|, 4) + payload + rest;
    assert s[4..8] == LE(|payload|, 4);
    Pow256Four();
    FromLE_LE(|payload|, 4);
  }

  lemma FitsTail(fs: seq<Field>)
    requires Fits(fs) && fs != []
    ensures Fits(fs[1..])
  {
    forall k | 0 <= k < |fs[1..]| ensures |fs[1..][k].payload| < TWO32 {
      assert fs[1..][k] == fs[k + 1];
    }
  }

  /** Chunks whose sizes fit the header are read back exactly as written. */
  lemma {:induction false} ParseEncode(fs: seq<Field>)
    requires Fits(fs)
    ensures ParseChunks(Encode(fs)) == Some(fs)
  {
    if fs != [] {
      var f := fs[0];
      FitsTail(fs);
      ParseEncode(fs[1..]);
      ChunkParts(f.name, f.payload, Encode(fs[1..]));
      assert [Field(f.name, f.payload)] + fs[1..] == fs;
    }
  }

  /** A scope that parses is exactly the encoding of the chunks it parses to. */
  lemma {:induction false} EncodeParse(s: seq<byte>)
    requires ParseChunks(s).Some?
    ensures Fits(ParseChunks(s).value) && Encode(ParseChunks(s).value) == s
    decreases |s|
  {
    if s != [] {
      var size := FromLE(s[4..8]);
      var tail := s[8 + size..];
      var rest := ParseChunks(tail).value;
      EncodeParse(tail);
      var f := Field(s[..4], s[8..8 + size]);
      var fs := [f] + rest;
      assert ParseChunks(s).value == fs;
      SplitChunk(s);
      assert fs[0] == f && fs[1..] == rest;
      assert Encode(fs) == Chunk(f.name, f.payload) + Encode(rest);
      assert Fits(fs) by {
        forall k | 0 <= k < |fs| ensures |fs[k].payload| < TWO32 {
          if k > 0 {
            assert fs[k] == rest[k - 1];
          }
        }
      }
    }
  }

  /** A scope whose first header fits is that chunk followed by the bytes after it. */
  lemma SplitChunk(s: seq<byte>)
    requires |s| >= 8 && FromLE(s[4..8]) <= |s| - 8
    ensures var size := FromLE(s[4..8]);
      size < TWO32 && s == Chunk(s[..4], s[8..8 + size]) + s[8 + size..]
  {
    var size := FromLE(s[4..8]);
    HeaderOf(s);
    assert s == s[..8] + s[8..8 + size] + s[8 + size..];
  }

  /** The first eight bytes of a scope are the header its name and size fields denote. */
  lemma HeaderOf(s: seq<byte>)
    requires |s| >= 8
    ensures FromLE(s[4..8]) < TWO32 && Header(s[..4], FromLE(s[4..8])) == s[..8]
  {
    var size := s[4..8];
    Pow256Four();
    assert |size| == 4;
    ModSmall(FromLE(size), TWO32);
    LE_FromLE(size);
    assert s[..8] == s[..4] + size;
  }

  /** Encoding distributes over concatenation. */
  lemma {:induction false} EncodeAppend(a: seq<Field>, b: seq<Field>)
    ensures Encode(a + b) == Encode(a) + Encode(b)
  {
    if a != [] {
      assert (a + b)[1..] == a[1..] + b;
      EncodeAppend(a[1..], b);
    } else {
      assert a + b == b;
    }
  }

  // ---------------------------------------------------------------- value codecs

  /**
   * How a C++ type lies in memory: `width` is `sizeof(T)`, `enc` gives the
   * bytes of a value, `dec` reads a value from `width` bytes.
   */
  datatype Codec<!T> = Codec(width: nat, enc: T -> seq<byte>, dec: seq<byte> -> T)

  /** `x` has a `width`-byte representation that reads back as `x`. */
  ghost predicate Exact<T>(c: Codec<T>, x: T) {
    |c.enc(x)| == c.width && c.dec(c.enc(x)) == x
  }

  predicate IsInt(i: int) {
    -0x8000_0000 <= i < 0x8000_0000
  }

  /** `int(n)`: the low 32 bits of `n` read as a two's-complement `int`. */
  function ToInt32(n: int): (r: int)
    ensures IsInt(r)
    ensures IsInt(n) ==> r == n
  {
    var u := n % TWO32;
    if u >= 0x8000_0000 then u - TWO32 else u
  }

  /** A 32-bit two's-complement `int`. */
  function EncodeInt(i: int): seq<byte> {
    LE(i % TWO32, 4)
  }

  function DecodeInt(b: seq<byte>): int {
    var u := FromLE(b);
    if u >= 0x8000_0000 then u - TWO32 else u
  }

  const Int32: Codec<int> := Codec(4, EncodeInt, DecodeInt)

  /** A 64-bit unsigned `size_t`. */
  const SizeT: Codec<int> := Codec(8, (n: int) => LE(n % Pow256(8), 8), (b: seq<byte>) => FromLE(b))

  predicate IsSize(n: int) {
    0 <= n < Pow256(8)
  }

  lemma IntExact(i: int)
    requires IsInt(i)
    ensures Exact(Int32, i)
  {
    Pow256Four();
    var u := i % TWO32;
    assert u == if i < 0 then i + TWO32 else i;
    FromLE_LE(u, 4);
    assert Int32.enc(i) == LE(u, 4);
    assert DecodeInt(LE(u, 4)) == i;
  }

  lemma SizeExact(n: int)
    requires IsSize(n)
    ensures Exact(SizeT, n)
  {
    ModSmall(n, Pow256(8));
    FromLE_LE(n, 8);
    assert SizeT.enc(n) == LE(n % Pow256(8), 8) == LE(n, 8);
    assert SizeT.dec(LE(n, 8)) == FromLE(LE(n, 8));
  }

  /** The bytes of every element, one after another (`write(Array, sizeof(T), Count)`). */
  function EncodeAll<T>(c: Codec<T>, xs: seq<T>): seq<byte> {
    if xs == [] then [] else c.enc(xs[0]) + EncodeAll(c, xs[1..])
  }

  /**
   * `n` bytes hold a whole number of `w`-byte elements (`n % w == 0`, written
   * without division).
   */
  predicate Whole(n: nat, w: nat)
    requires w > 0
  {
    n == 0 || (n >= w && Whole(n - w, w))
  }

  /** Reads back a payload of whole elements as consecutive elements. */
  function DecodeAll<T>(c: Codec<T>, p: seq<byte>): (xs: seq<T>)
    requires c.width > 0 && Whole(|p|, c.width)
    decreases |p|
  {
    if p == [] then [] else [c.dec(p[..c.width])] + DecodeAll(c, p[c.width..])
  }

  /** Each element is representable in the codec's width. */
  ghost predicate AllExact<T>(c: Codec<T>, xs: seq<T>) {
    forall k | 0 <= k < |xs| :: Exact(c, xs[k])
  }

  /** Element encodings concatenate to `|xs| * width` bytes. */
  lemma {:induction false} EncodeAllLength<T>(c: Codec<T>, xs: seq<T>)
    requires AllExact(c, xs)
    ensures |EncodeAll(c, xs)| == |xs| * c.width
  {
    if xs != [] {
      assert AllExact(c, xs[1..]) by {
        forall k | 0 <= k < |xs[1..]| ensures Exact(c, xs[1..][k]) {
          assert xs[1..][k] == xs[k + 1];
        }
      }
      EncodeAllLength(c, xs[1..]);
    }
  }

  /** A vector written element by element reads back with the same length and elements. */
  lemma {:induction false} DecodeEncodeAll<T>(c: Codec<T>, xs: seq<T>)
    requires c.width > 0 && AllExact(c, xs)
    ensures Whole(|EncodeAll(c, xs)|, c.width) && DecodeAll(c, EncodeAll(c, xs)) == xs
  {
    if xs != [] {
      assert AllExact(c, xs[1..]) by {
        forall k | 0 <= k < |xs[1..]| ensures Exact(c, xs[1..][k]) {
          assert xs[1..][k] == xs[k + 1];
        }
      }
      DecodeEncodeAll(c, xs[1..]);
      var p := EncodeAll(c, xs);
      assert Exact(c, xs[0]);
      assert p == c.enc(xs[0]) + EncodeAll(c, xs[1..]);
      assert p[..c.width] == c.enc(xs[0]);
      assert p[c.width..] == EncodeAll(c, xs[1..]);
    }
  }

  // ---------------------------------------------------------------- reading fields

  /** The bytes of a destination variable, or the fact that they are indeterminate. */
  datatype Cell = Known(bytes: seq<byte>) | Unknown

  /**
   * `ReadAll(&val)`: copies the whole payload over the first bytes of the
   * destination, with no check against `sizeof(T)` = `width`.
   */
  function ReadAll(p: seq<byte>, width: nat, cell: Cell): (r: Result<Cell>)
    ensures r.Success? <==> |p| <= width
    ensures |p| == width ==> r == Success(Known(p))
  {
    if |p| > width then Failure(Overflow)
    else if |p| == width then Success(Known(p))
    else match cell
      case Unknown => Success(Unknown)
      case Known(b) => if |b| == width then Success(Known(p + b[|p|..])) else Success(Unknown)
  }

  /** The payloads of the chunks called `name`, in file order: what `Execute` hands the handler. */
  function Lookup(fs: seq<Field>, name: Name): (ps: seq<seq<byte>>)
    ensures |ps| <= |fs|
  {
    if fs == [] then []
    else (if fs[0].name == name then [fs[0].payload] else []) + Lookup(fs[1..], name)
  }

  lemma {:induction false} LookupAppend(a: seq<Field>, b: seq<Field>, name: Name)
    ensures Lookup(a + b, name) == Lookup(a, name) + Lookup(b, name)
  {
    if a != [] {
      assert (a + b)[1..] == a[1..] + b;
      LookupAppend(a[1..], b, name);
    } else {
      assert a + b == b;
    }
  }

  /** No two chunks of a scope share a name. */
  predicate Distinct(fs: seq<Field>) {
    forall a, b | 0 <= a < b < |fs| :: fs[a].name != fs[b].name
  }

  /** In a scope of distinctly named chunks, each name finds exactly its own chunk. */
  lemma {:induction false} LookupUnique(fs: seq<Field>, k: nat)
    requires Distinct(fs) && k < |fs|
    ensures Lookup(fs, fs[k].name) == [fs[k].payload]
  {
    var name := fs[k].name;
    if k == 0 {
      LookupMissing(fs[1..], name);
    } else {
      assert fs[0].name != name;
      assert Distinct(fs[1..]) by {
        forall a, b | 0 <= a < b < |fs[1..]| ensures fs[1..][a].name != fs[1..][b].name {
          assert fs[1..][a] == fs[a + 1] && fs[1..][b] == fs[b + 1];
        }
      }
      assert fs[1..][k - 1] == fs[k];
      LookupUnique(fs[1..], k - 1);
    }
  }

  /** A name that no chunk has finds nothing. */
  lemma {:induction false} LookupMissing(fs: seq<Field>, name: Name)
    requires forall k | 0 <= k < |fs| :: fs[k].name != name
    ensures Lookup(fs, name) == []
  {
    if fs != [] {
      assert forall k | 0 <= k < |fs[1..]| :: fs[1..][k].name != name by {
        forall k | 0 <= k < |fs[1..]| ensures fs[1..][k].name != name {
          assert fs[1..][k] == fs[k + 1];
        }
      }
      LookupMissing(fs[1..], name);
    }
  }

  /** The handler runs once per matching chunk; an overflow stops the load. */
  function FillCell(ps: seq<seq<byte>>, width: nat, cell: Cell): Result<Cell> {
    if ps == [] then Success(cell)
    else match ReadAll(ps[0], width, cell)
      case Failure(e) => Failure(e)
      case Success(c) => FillCell(ps[1..], width, c)
  }

  /**
   * `Read(name, val)` followed by `Execute()`: `init` is the variable's value
   * before the load, `None` for an uninitialised local.
   */
  function ReadScalar<T>(c: Codec<T>, fs: seq<Field>, name: Name, init: Option<T>): Result<T> {
    var ps := Lookup(fs, name);
    if ps == [] then (if init.Some? then Success(init.value) else Failure(Indeterminate))
    else
      var start := if init.Some? then Known(c.enc(init.value)) else Unknown;
      match FillCell(ps, c.width, start)
        case Failure(e) => Failure(e)
        case Success(Unknown) => Failure(Indeterminate)
        case Success(Known(b)) => Success(c.dec(b))
  }

  /** Without a chunk of that name the variable keeps its value, or stays indeterminate. */
  lemma ReadAbsent<T>(c: Codec<T>, fs: seq<Field>, name: Name, init: Option<T>)
    requires Lookup(fs, name) == []
    ensures ReadScalar(c, fs, name, init) == if init.Some? then Success(init.value) else Failure(Indeterminate)
  {
  }

  /** One chunk holding the exact bytes of `x` reads back as `x`, whatever the variable held. */
  lemma ReadWritten<T>(c: Codec<T>, fs: seq<Field>, name: Name, x: T, init: Option<T>)
    requires Exact(c, x) && Lookup(fs, name) == [c.enc(x)]
    ensures ReadScalar(c, fs, name, init) == Success(x)
  {
    var ps := Lookup(fs, name);
    var start := if init.Some? then Known(c.enc(init.value)) else Unknown;
    assert ps[1..] == [];
    assert ReadAll(ps[0], c.width, start) == Success(Known(c.enc(x)));
    assert FillCell(ps, c.width, start) == Success(Known(c.enc(x)));
  }

  /** A single payload wider than the destination overflows it. */
  lemma ReadTooWide<T>(c: Codec<T>, fs: seq<Field>, name: Name, p: seq<byte>, init: Option<T>)
    requires Lookup(fs, name) == [p] && |p| > c.width
    ensures ReadScalar(c, fs, name, init) == Failure(Overflow)
  {
  }

  /**
   * `Read(name, vector<T>)`: each matching chunk resizes the vector to
   * `Remaining(sizeof(T))` elements and `ReadAll`s into it, which overflows
   * when the payload is not a whole number of elements.
   */
  function ReadVector<T>(c: Codec<T>, fs: seq<Field>, name: Name, init: seq<T>): Result<seq<T>>
    requires c.width > 0
  {
    ReadVectorFrom(c, Lookup(fs, name), init)
  }

  function ReadVectorFrom<T>(c: Codec<T>, ps: seq<seq<byte>>, v: seq<T>): Result<seq<T>>
    requires c.width > 0
  {
    if ps == [] then Success(v)
    else if !Whole(|ps[0]|, c.width) then Failure(Overflow)
    else ReadVectorFrom(c, ps[1..], DecodeAll(c, ps[0]))
  }

  /** A chunk written by `Write(name, vector)` reads back as the same vector. */
  lemma ReadVectorWritten<T>(c: Codec<T>, fs: seq<Field>, name: Name, xs: seq<T>, init: seq<T>)
    requires c.width > 0 && AllExact(c, xs) && Lookup(fs, name) == [EncodeAll(c, xs)]
    ensures ReadVector(c, fs, name, init) == Success(xs)
  {
    DecodeEncodeAll(c, xs);
    var ps := Lookup(fs, name);
    assert ps[1..] == [];
    assert ReadVectorFrom(c, ps, init) == ReadVectorFrom(c, [], xs);
  }

  lemma ReadVectorAbsent<T>(c: Codec<T>, fs: seq<Field>, name: Name, init: seq<T>)
    requires c.width > 0 && Lookup(fs, name) == []
    ensures ReadVector(c, fs, name, init) == Success(init)
  {
  }

  /** `Read(name, string)`: the string becomes the last matching payload, byte for byte. */
  function ReadString(fs: seq<Field>, name: Name, init: seq<byte>): (s: seq<byte>)
    ensures Lookup(fs, name) == [] ==> s == init
    ensures Lookup(fs, name) != [] ==> s == Lookup(fs, name)[|Lookup(fs, name)| - 1]
  {
    var ps := Lookup(fs, name);
    if ps == [] then init else ps[|ps| - 1]
  }

  // ---------------------------------------------------------------- writing fields

  /** `Write(name, v)`: one chunk whose payload is the `sizeof(T)` bytes of `v`. */
  function ValueChunk<T>(c: Codec<T>, name: Name, x: T): seq<byte> {
    Chunk(name, c.enc(x))
  }

  /** `Write(name, Array, Count)` and `Write(name, vector)`: one chunk of `Count * sizeof(T)` bytes. */
  function ValuesChunk<T>(c: Codec<T>, name: Name, xs: seq<T>): seq<byte> {
    Chunk(name, EncodeAll(c, xs))
  }

  /** `Write(name, string)`: the raw characters, no terminator and no inner length. */
  function StringChunk(name: Name, s: seq<byte>): seq<byte> {
    Chunk(name, s)
  }

  /** `Write(name, vector)` emits one chunk whose `Size` is `|xs| * sizeof(T)`. */
  lemma ValuesChunkSize<T>(c: Codec<T>, name: Name, xs: seq<T>)
    requires AllExact(c, xs) && |xs| * c.width < TWO32
    ensures var ch := ValuesChunk(c, name, xs);
      ch[..4] == name && FromLE(ch[4..8]) == |xs| * c.width && |ch| == 8 + |xs| * c.width
  {
    var p := EncodeAll(c, xs);
    EncodeAllLength(c, xs);
    ChunkSize(name, p);
  }

  /** A chunk starts with its name and, while the payload fits, its payload length. */
  lemma ChunkSize(name: Name, p: seq<byte>)
    requires |p| < TWO32
    ensures var ch := Chunk(name, p); ch[..4] == name && FromLE(ch[4..8]) == |p|
  {
    var ch := Chunk(name, p);
    assert ch[4..8] == LE(|p| % TWO32, 4);
    ModSmall(|p|, TWO32);
    Pow256Four();
    FromLE_LE(|p|, 4);
  }

  /**
   * The output stream of a `BinSaver`. `sizePos` is the stack of open chunks:
   * for each, the position of its still-unwritten `Size` field.
   */
  /** Appending two writes one after the other appends their concatenation. */
  lemma AppendAssoc<T>(a: seq<T>, b: seq<T>, c: seq<T>)
    ensures a + b + c == a + (b + c)
  {
  }

  class BinSaver {
    var bytes: seq<byte>
    var sizePos: seq<nat>

    ghost predicate Valid()
      reads this
    {
      forall k | 0 <= k < |sizePos| :: 4 <= sizePos[k] && sizePos[k] + 4 <= |bytes|
    }

    constructor ()
      ensures Valid() && bytes == [] && sizePos == []
    {
      bytes := [];
      sizePos := [];
    }

    /** Writes the name and a placeholder size, and remembers where the size goes. */
    method Begin(name: Name)
      requires Valid()
      modifies this
      ensures Valid()
      ensures bytes == old(bytes) + name + [0, 0, 0, 0]
      ensures sizePos == old(sizePos) + [|old(bytes)| + 4]
    {
      sizePos := sizePos + [|bytes| + 4];
      bytes := bytes + name + [0, 0, 0, 0];
    }

    /** Backpatches the innermost open chunk's size with the number of bytes written since. */
    method End()
      requires Valid() && sizePos != []
      modifies this
      ensures Valid()
      ensures var p := old(sizePos[|sizePos| - 1]);
        bytes == old(bytes[..p - 4]) + Chunk(old(bytes[p - 4..p]), old(bytes[p + 4..]))
      ensures sizePos == old(sizePos[..|sizePos| - 1])
    {
      var p := sizePos[|sizePos| - 1];
      var size := |bytes| - p - 4;
      bytes := bytes[..p] + LE(size % TWO32, 4) + bytes[p + 4..];
      sizePos := sizePos[..|sizePos| - 1];
    }

    /** `write(buffer, size, count)`: raw bytes, no header. */
    method Write(data: seq<byte>)
      requires Valid()
      modifies this
      ensures Valid()
      ensures bytes == old(bytes) + data && sizePos == old(sizePos)
    {
      bytes := bytes + data;
    }

    /** `Begin(name); write(payload); End()`: appends exactly one chunk. */
    method WriteChunk(name: Name, payload: seq<byte>)
      requires Valid()
      modifies this
      ensures Valid()
      ensures bytes == old(bytes) + Chunk(name, payload) && sizePos == old(sizePos)
    {
      ghost var b0 := bytes;
      Begin(name);
      Write(payload);
      assert bytes == b0 + name + [0, 0, 0, 0] + payload;
      End();
      assert b0 + name + [0, 0, 0, 0] + payload == b0 + (name + ([0, 0, 0, 0] + payload));
    }

    /** `Write(name, v)` for a scalar. */
    method WriteValue<T>(c: Codec<T>, name: Name, x: T)
      requires Valid()
      modifies this
      ensures Valid()
      ensures bytes == old(bytes) + ValueChunk(c, name, x) && sizePos == old(sizePos)
    {
      WriteChunk(name, c.enc(x));
    }

    /** `Write(name, Array, Count)` and `Write(name, vector)`. */
    method WriteValues<T>(c: Codec<T>, name: Name, xs: seq<T>)
      requires Valid()
      modifies this
      ensures Valid()
      ensures bytes == old(bytes) + ValuesChunk(c, name, xs) && sizePos == old(sizePos)
    {
      WriteChunk(name, EncodeAll(c, xs));
    }

    /** `Write(name, string)`. */
    method WriteString(name: Name, s: seq<byte>)
      requires Valid()
      modifies this
      ensures Valid()
      ensures bytes == old(bytes) + StringChunk(name, s) && sizePos == old(sizePos)
    {
      WriteChunk(name, s);
    }
  }
}
