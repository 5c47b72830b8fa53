/** The bytes that identities are hashed from.

    Every encoding here is uniquely decodable: a decoder recovers exactly what was encoded, so
    equal preimages mean equal contents. */
module Identity {
  import opened Basics
  import opened Lifecycle

  // ---------- big-endian lengths ----------

  /** The `width` low bytes of `n`, most significant first. */
  function BigEndian(n: nat, width: nat): (b: Bytes)
    ensures |b| == width
  {
    if width == 0 then [] else BigEndian(n / 256, width - 1) + [(n % 256) as byte]
  }

  function FromBigEndian(b: Bytes): nat {
    if b == [] then 0 else FromBigEndian(b[..|b| - 1]) * 256 + b[|b| - 1] as nat
  }

  function Power256(width: nat): nat {
    if width == 0 then 1 else 256 * Power256(width - 1)
  }

  lemma {:induction false} BigEndianRoundTrip(n: nat, width: nat)
    requires n < Power256(width)
    ensures FromBigEndian(BigEndian(n, width)) == n
  {
    if width > 0 {
      BigEndianRoundTrip(n / 256, width - 1);
      assert BigEndian(n, width)[..width - 1] == BigEndian(n / 256, width - 1);
    }
  }

  lemma EightBytesAreEnough(n: nat)
    requires n <= U64_MAX
    ensures n < Power256(8)
  {
    assert Power256(4) == 0x1_0000_0000;
    assert Power256(8) == 256 * (256 * (256 * (256 * Power256(4))));
  }

  lemma U64RoundTrip(n: nat, rest: Bytes)
    requires n <= U64_MAX
    ensures FromBigEndian((BigEndian(n, 8) + rest)[..8]) == n && (BigEndian(n, 8) + rest)[8..] == rest
  {
    EightBytesAreEnough(n);
    BigEndianRoundTrip(n, 8);
    assert (BigEndian(n, 8) + rest)[..8] == BigEndian(n, 8);
  }

  // ---------- length-prefixed fields ----------

  function Field(value: Bytes): Bytes {
    BigEndian(|value|, 8) + value
  }

  /** The first field of `b` and what follows it. */
  function TakeField(b: Bytes): Option<(Bytes, Bytes)> {
    if |b| < 8 then None
    else
      var length := FromBigEndian(b[..8]);
      if |b| - 8 < length then None else Some((b[8..8 + length], b[8 + length..]))
  }

  lemma TakeFieldUndoesField(value: Bytes, rest: Bytes)
    requires |value| <= U64_MAX
    ensures TakeField(Field(value) + rest) == Some((value, rest))
  {
    var b := Field(value) + rest;
    assert b == BigEndian(|value|, 8) + (value + rest);
    U64RoundTrip(|value|, value + rest);
    assert b[8..] == value + rest;
    assert b[8..8 + |value|] == value && b[8 + |value|..] == rest;
  }

  function Fields(values: seq<Bytes>): Bytes {
    if values == [] then [] else Field(values[0]) + Fields(values[1..])
  }

  function DecodeFields(b: Bytes): Option<seq<Bytes>>
    decreases |b|
  {
    if b == [] then Some([])
    else
      match TakeField(b)
      case None => None
      case Some((value, rest)) =>
        if |rest| >= |b| then None
        else
          match DecodeFields(rest)
          case None => None
          case Some(values) => Some([value] + values)
  }

  predicate Representable(values: seq<Bytes>) {
    forall i :: 0 <= i < |values| ==> |values[i]| <= U64_MAX
  }

  /** A field list is recovered from its encoding. */
  lemma {:induction false} FieldsRoundTrip(values: seq<Bytes>)
    requires Representable(values)
    ensures DecodeFields(Fields(values)) == Some(values)
  {
    if values != [] {
      FieldsRoundTrip(values[1..]);
      TakeFieldUndoesField(values[0], Fields(values[1..]));
      assert [values[0]] + values[1..] == values;
    }
  }

  // ---------- physical ids and caller references ----------

  /** The bytes behind a destination's physical resource id. */
  function PhysicalIdBytes(domain: Bytes, owner: Bytes, bucket: Bytes, prefix: Bytes): Bytes {
    Fields([domain, owner, bucket, prefix])
  }

  /** The bytes behind an invalidation's caller reference. */
  function CallerReferenceBytes(stack: Bytes, request: Bytes, logicalId: Bytes, distribution: Bytes, paths: seq<Bytes>): Bytes {
    Fields([stack, request, logicalId, distribution] + paths)
  }

  /** Equal physical-id preimages come from the same owner, bucket and prefix. */
  lemma PhysicalIdIsInjective(domain: Bytes, a: seq<Bytes>, b: seq<Bytes>)
    requires |a| == |b| == 3 && Representable([domain] + a) && Representable([domain] + b)
    requires PhysicalIdBytes(domain, a[0], a[1], a[2]) == PhysicalIdBytes(domain, b[0], b[1], b[2])
    ensures a == b
  {
    var x, y := [domain, a[0], a[1], a[2]], [domain, b[0], b[1], b[2]];
    assert [domain] + a == x && [domain] + b == y;
    FieldsRoundTrip(x);
    FieldsRoundTrip(y);
    assert a == x[1..] && b == y[1..];
  }

  /** Equal caller-reference preimages come from the same request, distribution and paths. */
  lemma CallerReferenceIsInjective(a: seq<Bytes>, paths: seq<Bytes>, b: seq<Bytes>, otherPaths: seq<Bytes>)
    requires |a| == |b| == 4 && Representable(a + paths) && Representable(b + otherPaths)
    requires CallerReferenceBytes(a[0], a[1], a[2], a[3], paths) == CallerReferenceBytes(b[0], b[1], b[2], b[3], otherPaths)
    ensures a == b && paths == otherPaths
  {
    assert [a[0], a[1], a[2], a[3]] == a && [b[0], b[1], b[2], b[3]] == b;
    FieldsRoundTrip(a + paths);
    FieldsRoundTrip(b + otherPaths);
    assert a == (a + paths)[..4] && b == (b + otherPaths)[..4];
    assert paths == (a + paths)[4..] && otherPaths == (b + otherPaths)[4..];
  }

  /** The physical id of a response: computed on create, and otherwise the one that was sent. */
  function ResponsePhysicalId(kind: RequestType, sent: Option<Bytes>, computed: Bytes): Option<Bytes> {
    if kind == Create then Some(computed) else sent
  }

  /** The id that the last response of a resource's life carries: each request is sent the id of
      the response before it, and would compute its own. */
  function LastPhysicalId(requests: seq<(RequestType, Bytes)>): Option<Bytes> {
    if requests == [] then None
    else
      var (kind, computed) := requests[|requests| - 1];
      ResponsePhysicalId(kind, LastPhysicalId(requests[..|requests| - 1]), computed)
  }

  /** Over a create, any updates and a delete the id never changes, whatever the later requests
      would compute. */
  lemma {:induction false} PhysicalIdIsConstant(requests: seq<(RequestType, Bytes)>)
    requires requests != [] && requests[0].0 == Create
    requires forall i :: 0 < i < |requests| ==> requests[i].0 != Create
    ensures LastPhysicalId(requests) == Some(requests[0].1)
  {
    if |requests| > 1 {
      PhysicalIdIsConstant(requests[..|requests| - 1]);
    } else {
      assert requests[..0] == [];
    }
  }

  // ---------- the identity of a cataloged asset ----------

  function Ascii(s: string): Bytes
    requires forall i :: 0 <= i < |s| ==> s[i] < '\U{80}'
  {
    seq(|s|, i requires 0 <= i < |s| => s[i] as byte)
  }

  datatype File = File(path: Bytes, size: nat, sha256: Bytes)

  const SHA256_BYTES: nat := 32

  predicate WellFormed(file: File) {
    |file.path| <= U64_MAX && file.size <= U64_MAX && |file.sha256| == SHA256_BYTES
  }

  /** The texts that separate the parts of a preimage. */
  datatype Tags = Tags(header: Bytes, file: Bytes, catalog: Bytes) {
    predicate Valid() {
      file != [] && catalog != [] && file[0] != catalog[0]
    }
  }

  function TagsV1(): Tags {
    Tags(Ascii("shin-bucket-deployment/cataloged-asset/v1\0"), Ascii("file\0"), Ascii("catalog\0"))
  }

  function FileBytes(tags: Tags, file: File): Bytes {
    tags.file + Field(file.path) + BigEndian(file.size, 8) + file.sha256
  }

  function FilesBytes(tags: Tags, files: seq<File>): Bytes {
    if files == [] then [] else FilesBytes(tags, files[..|files| - 1]) + FileBytes(tags, files[|files| - 1])
  }

  function AssetBytes(tags: Tags, options: Bytes, files: seq<File>, catalog: Bytes): Bytes {
    tags.header + Field(options) + FilesBytes(tags, files) + tags.catalog + catalog
  }

  /** One file and what follows it. */
  function TakeFile(tags: Tags, b: Bytes): Option<(File, Bytes)> {
    if !(tags.file <= b) then None
    else
      match TakeField(b[|tags.file|..])
      case None => None
      case Some((path, rest)) =>
        if |rest| < 8 + SHA256_BYTES then None
        else Some((File(path, FromBigEndian(rest[..8]), rest[8..8 + SHA256_BYTES]), rest[8 + SHA256_BYTES..]))
  }

  /** The files and the catalog behind the options. */
  function DecodeFiles(tags: Tags, b: Bytes): Option<(seq<File>, Bytes)>
    decreases |b|
  {
    if tags.catalog <= b then Some(([], b[|tags.catalog|..]))
    else
      match TakeFile(tags, b)
      case None => None
      case Some((file, rest)) =>
        if |rest| >= |b| then None
        else
          match DecodeFiles(tags, rest)
          case None => None
          case Some((files, catalog)) => Some(([file] + files, catalog))
  }

  lemma {:induction false} FilesBytesFirst(tags: Tags, file: File, files: seq<File>)
    ensures FilesBytes(tags, [file] + files) == FileBytes(tags, file) + FilesBytes(tags, files)
  {
    var whole := [file] + files;
    if files == [] {
      assert whole[..0] == [] && whole[0] == file;
    } else {
      var front := files[..|files| - 1];
      assert whole[..|whole| - 1] == [file] + front;
      FilesBytesFirst(tags, file, front);
    }
  }

  lemma TakeFileUndoesFile(tags: Tags, file: File, rest: Bytes)
    requires WellFormed(file)
    ensures TakeFile(tags, FileBytes(tags, file) + rest) == Some((file, rest))
  {
    var b := FileBytes(tags, file) + rest;
    var tail := BigEndian(file.size, 8) + (file.sha256 + rest);
    assert b == tags.file + (Field(file.path) + tail);
    assert b[|tags.file|..] == Field(file.path) + tail;
    TakeFieldUndoesField(file.path, tail);
    U64RoundTrip(file.size, file.sha256 + rest);
    assert tail[8 + SHA256_BYTES..] == rest;
    assert tail[8..8 + SHA256_BYTES] == file.sha256;
  }

  lemma NotCatalog(tags: Tags, b: Bytes)
    requires tags.Valid() && tags.file <= b
    ensures !(tags.catalog <= b)
  {
    assert b[0] == tags.file[0];
  }

  lemma {:induction false} DecodeOneMore(tags: Tags, b: Bytes, file: File, rest: Bytes, later: seq<File>, catalog: Bytes)
    requires !(tags.catalog <= b) && TakeFile(tags, b) == Some((file, rest)) && |rest| < |b|
    requires DecodeFiles(tags, rest) == Some((later, catalog))
    ensures DecodeFiles(tags, b) == Some(([file] + later, catalog))
  {
  }

  lemma FirstFile(tags: Tags, files: seq<File>, tail: Bytes)
    requires files != []
    ensures FilesBytes(tags, files) + tail == FileBytes(tags, files[0]) + (FilesBytes(tags, files[1..]) + tail)
  {
    var later := files[1..];
    assert files == [files[0]] + later;
    FilesBytesFirst(tags, files[0], later);
    Associates(FileBytes(tags, files[0]), FilesBytes(tags, later), tail);
  }

  lemma Associates(a: Bytes, b: Bytes, c: Bytes)
    ensures (a + b) + c == a + (b + c)
  {
  }

  lemma DecodeCatalog(tags: Tags, catalog: Bytes)
    ensures DecodeFiles(tags, tags.catalog + catalog) == Some(([], catalog))
  {
    assert (tags.catalog + catalog)[|tags.catalog|..] == catalog;
  }

  lemma {:induction false} DecodeFilesRoundTrip(tags: Tags, files: seq<File>, catalog: Bytes)
    requires tags.Valid() && forall i :: 0 <= i < |files| ==> WellFormed(files[i])
    ensures DecodeFiles(tags, FilesBytes(tags, files) + (tags.catalog + catalog)) == Some((files, catalog))
  {
    var tail := tags.catalog + catalog;
    if files == [] {
      DecodeCatalog(tags, catalog);
      assert FilesBytes(tags, files) + tail == tail;
    } else {
      var b, rest := FilesBytes(tags, files) + tail, FilesBytes(tags, files[1..]) + tail;
      DecodeFilesRoundTrip(tags, files[1..], catalog);
      FirstFile(tags, files, tail);
      DecodeFirst(tags, b, files[0], rest, files[1..], catalog);
      assert [files[0]] + files[1..] == files;
    }
  }

  lemma DecodeFirst(tags: Tags, b: Bytes, file: File, rest: Bytes, later: seq<File>, catalog: Bytes)
    requires tags.Valid() && WellFormed(file) && b == FileBytes(tags, file) + rest
    requires DecodeFiles(tags, rest) == Some((later, catalog))
    ensures DecodeFiles(tags, b) == Some(([file] + later, catalog))
  {
    TakeFileUndoesFile(tags, file, rest);
    NotCatalog(tags, b);
    DecodeOneMore(tags, b, file, rest, later, catalog);
  }

  lemma SameTail(front: Bytes, a: Bytes, b: Bytes)
    requires front + a == front + b
    ensures a == b
  {
    assert (front + a)[|front|..] == a && (front + b)[|front|..] == b;
  }

  lemma AssetParts(tags: Tags, options: Bytes, files: seq<File>, catalog: Bytes)
    ensures AssetBytes(tags, options, files, catalog)
         == tags.header + (Field(options) + (FilesBytes(tags, files) + (tags.catalog + catalog)))
  {
  }

  /** Equal identity preimages come from the same options, the same files and the same catalog. */
  lemma AssetIdentityIsInjective(tags: Tags, options: Bytes, files: seq<File>, catalog: Bytes,
                                 otherOptions: Bytes, otherFiles: seq<File>, otherCatalog: Bytes)
    requires tags.Valid() && |options| <= U64_MAX && |otherOptions| <= U64_MAX
    requires forall i :: 0 <= i < |files| ==> WellFormed(files[i])
    requires forall i :: 0 <= i < |otherFiles| ==> WellFormed(otherFiles[i])
    requires AssetBytes(tags, options, files, catalog) == AssetBytes(tags, otherOptions, otherFiles, otherCatalog)
    ensures options == otherOptions && files == otherFiles && catalog == otherCatalog
  {
    var a := FilesBytes(tags, files) + (tags.catalog + catalog);
    var b := FilesBytes(tags, otherFiles) + (tags.catalog + otherCatalog);
    AssetParts(tags, options, files, catalog);
    AssetParts(tags, otherOptions, otherFiles, otherCatalog);
    SameTail(tags.header, Field(options) + a, Field(otherOptions) + b);
    TakeFieldUndoesField(options, a);
    TakeFieldUndoesField(otherOptions, b);
    DecodeFilesRoundTrip(tags, files, catalog);
    DecodeFilesRoundTrip(tags, otherFiles, otherCatalog);
  }

  /** The texts of version 1 keep files and the catalog apart. */
  lemma TagsV1AreValid()
    ensures TagsV1().Valid()
  {
    assert TagsV1().file[0] == 'f' as byte && TagsV1().catalog[0] == 'c' as byte;
  }

  // ---------- feeding the hash ----------

  const CATALOG_MAX_BYTES: nat := 64 * 1024 * 1024

  /** A running hash, as the bytes fed to it. */
  class Hash {
    var fed: Bytes

    constructor ()
      ensures fed == []
    {
      fed := [];
    }

    method Update(bytes: Bytes)
      modifies this
      ensures fed == old(fed) + bytes
    {
      fed := fed + bytes;
    }

    method UpdateLengthPrefixed(bytes: Bytes)
      requires |bytes| <= U64_MAX
      modifies this
      ensures fed == old(fed) + Field(bytes)
    {
      Update(BigEndian(|bytes|, 8));
      Update(bytes);
      assert fed == old(fed) + Field(bytes);
    }

    method UpdateFile(tags: Tags, file: File)
      requires WellFormed(file)
      modifies this
      ensures fed == old(fed) + FileBytes(tags, file)
    {
      Update(tags.file);
      UpdateLengthPrefixed(file.path);
      Update(BigEndian(file.size, 8));
      Update(file.sha256);
      assert fed == old(fed) + FileBytes(tags, file);
    }
  }

  function Pieces(pieces: seq<Bytes>): Bytes {
    if pieces == [] then [] else Pieces(pieces[..|pieces| - 1]) + pieces[|pieces| - 1]
  }

  /** The catalog's text: its pieces one after the other, at most 64 MiB of them. */
  method WriteCatalog(tags: Tags, pieces: seq<Bytes>, identity: Hash) returns (catalog: Option<Bytes>)
    modifies identity
    ensures catalog.Some? <==> |Pieces(pieces)| <= CATALOG_MAX_BYTES
    ensures catalog.Some? ==>
              catalog.value == Pieces(pieces) && identity.fed == old(identity.fed) + tags.catalog + Pieces(pieces)
  {
    identity.Update(tags.catalog);
    ghost var before := identity.fed;
    var written: Bytes := [];
    for i := 0 to |pieces|
      invariant written == Pieces(pieces[..i]) && |written| <= CATALOG_MAX_BYTES
      invariant identity.fed == before + written
    {
      assert pieces[..i + 1][..i] == pieces[..i];
      if |written| + |pieces[i]| > CATALOG_MAX_BYTES {
        PiecesGrow(pieces, i + 1);
        return None;
      }
      identity.Update(pieces[i]);
      written := written + pieces[i];
    }
    assert pieces[..|pieces|] == pieces;
    return Some(written);
  }

  lemma {:induction false} PiecesGrow(pieces: seq<Bytes>, n: nat)
    requires n <= |pieces|
    ensures |Pieces(pieces[..n])| <= |Pieces(pieces)|
    decreases |pieces| - n
  {
    if n < |pieces| {
      assert pieces[..n + 1][..n] == pieces[..n];
      PiecesGrow(pieces, n + 1);
    } else {
      assert pieces[..n] == pieces;
    }
  }

  /** Feeds the whole identity of an asset: what is hashed is exactly its preimage. */
  method HashAsset(tags: Tags, options: Bytes, files: seq<File>, pieces: seq<Bytes>) returns (identity: Hash, ok: bool)
    requires |options| <= U64_MAX && forall i :: 0 <= i < |files| ==> WellFormed(files[i])
    ensures fresh(identity) && (ok <==> |Pieces(pieces)| <= CATALOG_MAX_BYTES)
    ensures ok ==> identity.fed == AssetBytes(tags, options, files, Pieces(pieces))
  {
    identity := new Hash();
    identity.Update(tags.header);
    identity.UpdateLengthPrefixed(options);
    ghost var start := tags.header + Field(options);
    assert identity.fed == start;
    for i := 0 to |files|
      invariant fresh(identity) && identity.fed == start + FilesBytes(tags, files[..i])
    {
      assert files[..i + 1][..i] == files[..i];
      identity.UpdateFile(tags, files[i]);
      assert identity.fed == start + FilesBytes(tags, files[..i + 1]);
    }
    assert files[..|files|] == files;
    var catalog := WriteCatalog(tags, pieces, identity);
    ok := catalog.Some?;
  }
}
