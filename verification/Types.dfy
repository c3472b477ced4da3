/** Values shared by the store, its client and the playground. */
module Types {

  datatype Option<+T> = None | Some(value: T)

  /** The range of a 64-bit unsigned integer, and the value `std::string::npos` stands for. */
  const WORD: nat := 0x1_0000_0000_0000_0000
  const NPOS: nat := WORD - 1

  /** A block hash: an unsigned 64-bit value. */
  type Hash = n: nat | n < 0x1_0000_0000_0000_0000

  /** A token is a signed 64-bit value in the source; no property here needs its bounds. */
  type Token = int

  /** The name of a blob inside the container. */
  type Name = string

  type Bytes = seq<bv8>

  const BLOCK_SIZE: nat := 128

  /** The i-th full block of a token sequence. */
  function Block(tokens: seq<Token>, i: nat): (b: seq<Token>)
    requires (i + 1) * BLOCK_SIZE <= |tokens|
    ensures |b| == BLOCK_SIZE
  {
    tokens[i * BLOCK_SIZE..(i + 1) * BLOCK_SIZE]
  }

  /** One entry of a default blob's `additionalversions` list. */
  datatype Version = Version(hash: Hash, parent: Hash, location: Name)

  /** What a caller hands to a write. */
  datatype Chunk = Chunk(name: Name, hash: Hash, parent: Hash, buffer: Bytes)

  /** The metadata of a blob. `versions` is `None` while the `additionalversions` key is absent.
      The list is kept as text in the store and as a sequence in the protocol. */
  datatype Meta<+A> = Meta(hash: Hash, parent: Hash, location: Name, versions: Option<A>)

  datatype Blob<+A> = Blob(etag: nat, meta: Meta<A>, buffer: Bytes)

  const GUID_LENGTH: nat := 33

  /** Generated names are 16 hexadecimal digits, a dash and 16 more. A name made from tokens is
      base64url text, whose length is never 33, so the two kinds never meet. */
  predicate IsGuidName(n: Name) {
    |n| == GUID_LENGTH
  }

  predicate IsTokenName(n: Name) {
    |n| != GUID_LENGTH
  }

  /** Text that can stand inside a quoted value of the version list. */
  predicate Plain(s: string) {
    forall c :: c in s ==> c != '\"' && c != '}'
  }
}
