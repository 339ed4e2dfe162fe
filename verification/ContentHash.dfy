/**
 The canonical hash of the gameplay content: every regular file below the content root, in
 the order of its relative path, length-prefixed path and bytes, through 64-bit FNV-1a.
 */
module ContentHash {
  import opened Options
  import opened Fnv
  import opened ByteStrings
  import opened Sorting

  const LENGTH_BYTES := 8

  // "splonks-gameplay-content-v1" in ASCII.
  const VERSION_TAG: Bytes := [
    115, 112, 108, 111, 110, 107, 115, 45, 103, 97, 109, 101, 112, 108, 97, 121, 45,
    99, 111, 110, 116, 101, 110, 116, 45, 118, 49]

  datatype File = File(path: Bytes, contents: Bytes)

  // ----- the byte stream -----

  // Little-endian, low byte first.
  function LittleEndian(n: nat, width: nat): (r: Bytes)
    ensures |r| == width
  {
    if width == 0 then [] else [n % 256] + LittleEndian(n / 256, width - 1)
  }

  function Field(s: Bytes): Bytes {
    LittleEndian(|s|, LENGTH_BYTES) + s
  }

  function Body(files: seq<File>): Bytes {
    if files == [] then [] else Field(files[0].path) + Field(files[0].contents) + Body(files[1..])
  }

  function Stream(files: seq<File>): Bytes {
    Field(VERSION_TAG) + LittleEndian(|files|, LENGTH_BYTES) + Body(files)
  }

  // ----- the stream determines the files -----

  function PowerOf256(k: nat): nat {
    if k == 0 then 1 else 256 * PowerOf256(k - 1)
  }

  lemma {:induction false} LittleEndianInjective(a: nat, b: nat, width: nat)
    requires a < PowerOf256(width) && b < PowerOf256(width)
    requires LittleEndian(a, width) == LittleEndian(b, width)
    ensures a == b
  {
    if width > 0 {
      var x, y := LittleEndian(a, width), LittleEndian(b, width);
      assert x[0] == a % 256 && y[0] == b % 256;
      assert x[1..] == LittleEndian(a / 256, width - 1) && y[1..] == LittleEndian(b / 256, width - 1);
      LittleEndianInjective(a / 256, b / 256, width - 1);
    }
  }

  // Sizes are 64-bit.
  ghost predicate Fits(s: Bytes) {
    |s| < PowerOf256(LENGTH_BYTES)
  }

  ghost predicate AllFit(files: seq<File>) {
    && |files| < PowerOf256(LENGTH_BYTES)
    && forall i :: 0 <= i < |files| ==> Fits(files[i].path) && Fits(files[i].contents)
  }

  lemma SplitAt(a: Bytes, b: Bytes, c: Bytes, d: Bytes)
    requires a + b == c + d && |a| == |c|
    ensures a == c && b == d
  {
    assert (a + b)[..|a|] == a && (c + d)[..|c|] == c;
    assert (a + b)[|a|..] == b && (c + d)[|c|..] == d;
  }

  // A length-prefixed field can be read off the front of a stream.
  lemma FieldPrefix(x: Bytes, u: Bytes, y: Bytes, v: Bytes)
    requires Fits(x) && Fits(y) && Field(x) + u == Field(y) + v
    ensures x == y && u == v
  {
    hide LittleEndian;
    assert Field(x) + u == LittleEndian(|x|, LENGTH_BYTES) + (x + u);
    assert Field(y) + v == LittleEndian(|y|, LENGTH_BYTES) + (y + v);
    SplitAt(LittleEndian(|x|, LENGTH_BYTES), x + u, LittleEndian(|y|, LENGTH_BYTES), y + v);
    LittleEndianInjective(|x|, |y|, LENGTH_BYTES);
    SplitAt(x, u, y, v);
  }

  lemma BodyOfFirst(files: seq<File>)
    requires files != []
    ensures Body(files) == Field(files[0].path) + (Field(files[0].contents) + Body(files[1..]))
  {
  }

  lemma {:induction false} BodyInjective(a: seq<File>, b: seq<File>)
    requires |a| == |b| && AllFit(a) && AllFit(b) && Body(a) == Body(b)
    ensures a == b
  {
    if a != [] {
      hide Field, Body, PowerOf256;
      var p, q := a[0], b[0];
      BodyOfFirst(a);
      BodyOfFirst(b);
      FieldPrefix(p.path, Field(p.contents) + Body(a[1..]), q.path, Field(q.contents) + Body(b[1..]));
      FieldPrefix(p.contents, Body(a[1..]), q.contents, Body(b[1..]));
      BodyInjective(a[1..], b[1..]);
      assert a == [p] + a[1..] && b == [q] + b[1..];
    }
  }

  /** Two file lists with the same byte stream are the same list. */
  lemma StreamInjective(a: seq<File>, b: seq<File>)
    requires AllFit(a) && AllFit(b) && Stream(a) == Stream(b)
    ensures a == b
  {
    hide LittleEndian, Body, Field;
    var tag := Field(VERSION_TAG);
    assert Stream(a) == tag + (LittleEndian(|a|, LENGTH_BYTES) + Body(a));
    assert Stream(b) == tag + (LittleEndian(|b|, LENGTH_BYTES) + Body(b));
    SplitAt(tag, LittleEndian(|a|, LENGTH_BYTES) + Body(a), tag, LittleEndian(|b|, LENGTH_BYTES) + Body(b));
    SplitAt(LittleEndian(|a|, LENGTH_BYTES), Body(a), LittleEndian(|b|, LENGTH_BYTES), Body(b));
    LittleEndianInjective(|a|, |b|, LENGTH_BYTES);
    BodyInjective(a, b);
  }

  // ----- the directory walk and the hash -----

  datatype Entry = Entry(path: Bytes, regular: bool)

  function RegularPaths(entries: seq<Entry>): seq<Bytes> {
    if entries == [] then []
    else
      var rest := RegularPaths(entries[..|entries| - 1]);
      var last := entries[|entries| - 1];
      if last.regular then rest + [last.path] else rest
  }

  // The files at the paths, in the order of the paths, where all of them open.
  function FilesAt(open: Bytes -> Option<Bytes>, paths: seq<Bytes>): seq<File>
    requires forall p :: p in paths ==> open(p).Some?
  {
    seq(|paths|, i requires 0 <= i < |paths| => File(paths[i], open(paths[i]).value))
  }

  function ContentHashOf(open: Bytes -> Option<Bytes>, paths: seq<Bytes>): nat
    requires forall p :: p in paths ==> open(p).Some?
  {
    FoldBytes(Step64, OFFSET_BASIS_64, Stream(FilesAt(open, paths)))
  }

  lemma {:induction false} RegularCount(entries: seq<Entry>, p: Bytes)
    ensures multiset(RegularPaths(entries))[p] == multiset(entries)[Entry(p, true)]
  {
    if entries != [] {
      RegularCount(entries[..|entries| - 1], p);
      assert entries == entries[..|entries| - 1] + [entries[|entries| - 1]];
    }
  }

  /** The directory's iteration order does not matter to the hash. */
  lemma OrderIrrelevant(open: Bytes -> Option<Bytes>, a: seq<Entry>, b: seq<Entry>)
    requires multiset(a) == multiset(b) && forall p :: p in RegularPaths(a) ==> open(p).Some?
    ensures var s, t := SortedBytes(RegularPaths(a)), SortedBytes(RegularPaths(b));
            && s == t && (forall p :: p in s ==> open(p).Some?)
            && ContentHashOf(open, s) == ContentHashOf(open, t)
  {
    forall p: Bytes ensures multiset(RegularPaths(a))[p] == multiset(RegularPaths(b))[p] {
      RegularCount(a, p);
      RegularCount(b, p);
    }
    assert multiset(RegularPaths(a)) == multiset(RegularPaths(b));
    SortedAlike(RegularPaths(a), RegularPaths(b));
    BytesInOrder();
    SortedMembers(BYTE_ORDER, RegularPaths(a));
    hide Sorted;
  }

  method HashByte(hash: nat, value: Byte) returns (next: nat)
    ensures next == Step64(hash, value)
  {
    next := XorLow(hash, value);
    next := TimesPrime(next, PRIME_64, MODULUS_64);
  }

  method HashBytes(hash: nat, bytes: Bytes) returns (next: nat)
    ensures next == FoldBytes(Step64, hash, bytes)
  {
    next := hash;
    for i := 0 to |bytes|
      invariant FoldBytes(Step64, next, bytes[i..]) == FoldBytes(Step64, hash, bytes)
    {
      assert bytes[i..][1..] == bytes[i + 1..];
      next := HashByte(next, bytes[i]);
    }
  }

  method HashU64(hash: nat, value: nat) returns (next: nat)
    ensures next == FoldBytes(Step64, hash, LittleEndian(value, LENGTH_BYTES))
  {
    next := hash;
    var rest := value;
    for k := 0 to LENGTH_BYTES
      invariant FoldBytes(Step64, next, LittleEndian(rest, LENGTH_BYTES - k)) ==
                FoldBytes(Step64, hash, LittleEndian(value, LENGTH_BYTES))
    {
      assert LittleEndian(rest, LENGTH_BYTES - k)[1..] == LittleEndian(rest / 256, LENGTH_BYTES - k - 1);
      next := HashByte(next, rest % 256);
      rest := rest / 256;
    }
  }

  method HashField(hash: nat, value: Bytes) returns (next: nat)
    ensures next == FoldBytes(Step64, hash, Field(value))
  {
    next := HashU64(hash, |value|);
    FoldAppend(Step64, hash, LittleEndian(|value|, LENGTH_BYTES), value);
    next := HashBytes(next, value);
  }

  /** Hash of the sorted stream, or nothing if the root is missing or a file does not open. */
  method ComputeGameplayContentHash(rootExists: bool, entries: seq<Entry>, open: Bytes -> Option<Bytes>)
    returns (hash: Option<nat>)
    ensures hash.Some? <==> rootExists && forall p :: p in SortedBytes(RegularPaths(entries)) ==> open(p).Some?
    ensures hash.Some? ==> hash.value == ContentHashOf(open, SortedBytes(RegularPaths(entries)))
  {
    if !rootExists {
      return None;
    }
    var paths: seq<Bytes> := [];
    for i := 0 to |entries|
      invariant paths == RegularPaths(entries[..i])
    {
      assert entries[..i + 1][..i] == entries[..i];
      if !entries[i].regular {
        continue;
      }
      paths := paths + [entries[i].path];
    }
    assert entries[..|entries|] == entries;
    paths := SortedBytes(paths);
    hash := HashFiles(paths, open);
  }

  lemma {:induction false} BodyAppend(files: seq<File>, f: File)
    ensures Body(files + [f]) == Body(files) + Field(f.path) + Field(f.contents)
  {
    hide Field;
    if files == [] {
      assert [f][1..] == [] && [] + [f] == [f];
    } else {
      assert (files + [f])[1..] == files[1..] + [f];
      BodyAppend(files[1..], f);
    }
  }

  // Hashing one more file extends the stream by its two fields.
  lemma FoldFile(head: Bytes, done: seq<File>, f: File)
    ensures FoldBytes(Step64, OFFSET_BASIS_64, head + Body(done + [f])) ==
            FoldBytes(Step64, FoldBytes(Step64, FoldBytes(Step64, OFFSET_BASIS_64, head + Body(done)), Field(f.path)),
                      Field(f.contents))
  {
    hide Field, Body, FoldBytes;
    BodyAppend(done, f);
    FoldAppend(Step64, OFFSET_BASIS_64, head + Body(done), Field(f.path));
    FoldAppend(Step64, OFFSET_BASIS_64, head + Body(done) + Field(f.path), Field(f.contents));
    assert head + Body(done + [f]) == head + Body(done) + Field(f.path) + Field(f.contents);
  }

  method HashFiles(paths: seq<Bytes>, open: Bytes -> Option<Bytes>) returns (result: Option<nat>)
    ensures result.Some? <==> forall p :: p in paths ==> open(p).Some?
    ensures result.Some? ==> result.value == ContentHashOf(open, paths)
  {
    hide Step64, Field, LittleEndian;
    var hash := HashField(OFFSET_BASIS_64, VERSION_TAG);
    hash := HashU64(hash, |paths|);
    ghost var head := Field(VERSION_TAG) + LittleEndian(|paths|, LENGTH_BYTES);
    FoldAppend(Step64, OFFSET_BASIS_64, Field(VERSION_TAG), LittleEndian(|paths|, LENGTH_BYTES));
    assert head + Body([]) == head;
    for i := 0 to |paths|
      invariant forall p :: p in paths[..i] ==> open(p).Some?
      invariant hash == FoldBytes(Step64, OFFSET_BASIS_64, head + Body(FilesAt(open, paths[..i])))
    {
      var content := open(paths[i]);
      if content.None? {
        assert paths[i] in paths;
        return None;
      }
      ghost var done := FilesAt(open, paths[..i]);
      ghost var file := File(paths[i], content.value);
      assert paths[..i + 1] == paths[..i] + [paths[i]];
      assert FilesAt(open, paths[..i + 1]) == done + [file];
      FoldFile(head, done, file);
      hash := HashField(hash, paths[i]);
      hash := HashField(hash, content.value);
    }
    assert paths[..|paths|] == paths;
    result := Some(hash);
  }

  // ----- edits -----

  lemma {:induction false} BodyOfParts(a: seq<File>, b: seq<File>)
    ensures Body(a + b) == Body(a) + Body(b)
  {
    hide Field;
    if a == [] {
      assert a + b == b;
    } else {
      assert (a + b)[1..] == a[1..] + b;
      BodyOfParts(a[1..], b);
    }
  }

  // The stream around the contents of one file.
  lemma StreamAround(before: seq<File>, f: File, after: seq<File>)
    ensures Stream(before + [f] + after) ==
            (Field(VERSION_TAG) + LittleEndian(|before| + 1 + |after|, LENGTH_BYTES) + Body(before) + Field(f.path)
             + LittleEndian(|f.contents|, LENGTH_BYTES)) + f.contents + Body(after)
  {
    hide LittleEndian, Body;
    BodyOfParts(before + [f], after);
    BodyAppend(before, f);
    assert |before + [f] + after| == |before| + 1 + |after|;
  }

  /** Editing one byte of one file always changes the content hash. */
  lemma EditChangesHash(before: seq<File>, path: Bytes, left: Bytes, b: Byte, c: Byte, right: Bytes, after: seq<File>)
    requires b != c
    ensures FoldBytes(Step64, OFFSET_BASIS_64, Stream(before + [File(path, left + [b] + right)] + after)) !=
            FoldBytes(Step64, OFFSET_BASIS_64, Stream(before + [File(path, left + [c] + right)] + after))
  {
    hide LittleEndian, Body, Stream, FoldBytes, Field;
    var was, now := File(path, left + [b] + right), File(path, left + [c] + right);
    StreamAround(before, was, after);
    StreamAround(before, now, after);
    var head := Field(VERSION_TAG) + LittleEndian(|before| + 1 + |after|, LENGTH_BYTES) + Body(before) + Field(path)
      + LittleEndian(|left| + 1 + |right|, LENGTH_BYTES);
    OneByteNeverCollides(head + left, b, c, right + Body(after));
    assert head + (left + [b] + right) + Body(after) == (head + left) + [b] + (right + Body(after));
    assert head + (left + [c] + right) + Body(after) == (head + left) + [c] + (right + Body(after));
  }
}
