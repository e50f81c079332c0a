/**
 The chunked upload of a stream that is hashed while it is read. The stream may
 give any non-empty part of what is asked for, in any pattern; hashing is a fold
 over the bytes.
 */
module Upload {
  import opened Collections

  type Byte = bv8


  function Fold<H>(step: (H, Byte) -> H, h: H, s: seq<Byte>): H {
    if s == [] then h else Fold(step, step(h, s[0]), s[1..])
  }

  /** Hashing piece by piece is hashing the whole. */
  lemma {:induction false} FoldConcat<H>(step: (H, Byte) -> H, h: H, s: seq<Byte>, t: seq<Byte>)
    ensures Fold(step, h, s + t) == Fold(step, Fold(step, h, s), t)
    decreases |s|
  {
    if s == [] {
      assert s + t == t;
    } else {
      assert (s + t)[1..] == s[1..] + t;
      FoldConcat(step, step(h, s[0]), s[1..], t);
    }
  }

  // ---- chunks ----

  function Chunks(s: seq<Byte>, n: nat): seq<seq<Byte>>
    requires n > 0
  {
    if s == [] then [] else if |s| <= n then [s] else [s[..n]] + Chunks(s[n..], n)
  }

  function Flatten(parts: seq<seq<Byte>>): seq<Byte> {
    if parts == [] then [] else parts[0] + Flatten(parts[1..])
  }

  lemma FlattenCons(part: seq<Byte>, parts: seq<seq<Byte>>)
    ensures Flatten([part] + parts) == part + Flatten(parts)
  {
    assert ([part] + parts)[1..] == parts;
  }

  /** Chunks give back the stream. */
  lemma {:induction false} ChunksFlatten(s: seq<Byte>, n: nat)
    requires n > 0
    ensures Flatten(Chunks(s, n)) == s
  {
    if |s| > n {
      ChunksFlatten(s[n..], n);
      FlattenCons(s[..n], Chunks(s[n..], n));
      assert s[..n] + s[n..] == s;
    } else if s != [] {
      FlattenCons(s, []);
    }
  }

  /** All chunks but the last are full, and none is empty. */
  lemma {:induction false} ChunksFull(s: seq<Byte>, n: nat, k: nat)
    requires n > 0 && k < |Chunks(s, n)|
    ensures 0 < |Chunks(s, n)[k]| <= n
    ensures k < |Chunks(s, n)| - 1 ==> |Chunks(s, n)[k]| == n
  {
    if |s| > n && k > 0 {
      ChunksFull(s[n..], n, k - 1);
    }
  }

  // ---- the hashing reader ----

  class HashingReader<H> {
    const step: (H, Byte) -> H
    const init: H
    ghost const whole: seq<Byte>
    /** What the inner reader has not given yet, and how much it is willing to give
        at each of the next reads. */
    var rest: seq<Byte>
    var willing: seq<nat>
    var hasher: Option<H>
    var size: nat
    var result: Option<(H, nat)>

    ghost predicate Valid()
      reads this
    {
      && size <= |whole| && whole[size..] == rest
      && match hasher
         case Some(h) => h == Fold(step, init, whole[..size]) && result.None?
         case None =>
           && result.Some? && result.value.1 <= |whole|
           && result.value.0 == Fold(step, init, whole[..result.value.1])
    }

    /** The hash is finished only at the end of the stream. */
    ghost predicate Faithful()
      reads this
    {
      Valid() && (hasher.None? ==> rest == [] && result == Some((Fold(step, init, whole), |whole|)))
    }

    constructor (step: (H, Byte) -> H, init: H, data: seq<Byte>, willing: seq<nat>)
      ensures Faithful() && this.step == step && this.init == init && whole == data
      ensures rest == data && size == 0 && result.None?
    {
      this.step, this.init, this.whole := step, init, data;
      this.rest, this.willing := data, willing;
      this.hasher, this.size, this.result := Some(init), 0, None;
    }

    /** How much the inner reader gives: at least one byte while it has any. */
    method Given(room: nat) returns (n: nat)
      modifies this`willing
      ensures n <= room && n <= |rest| && (n == 0 <==> room == 0 || rest == [])
    {
      n := |rest|;
      if willing != [] {
        if 0 < willing[0] < n { n := willing[0]; }
        willing := willing[1..];
      }
      if n > room { n := room; }
    }

    /** One read into a buffer with `room` free bytes. An empty read finishes the hash;
        the result cell is written once. */
    method PollRead(room: nat) returns (data: seq<Byte>)
      requires Valid()
      modifies this
      ensures Valid() && |data| <= room && old(rest) == data + rest && size == old(size) + |data|
      ensures data == [] <==> room == 0 || old(rest) == []
      ensures hasher.Some? <==> old(hasher).Some? && data != []
      ensures old(result).Some? ==> result == old(result)
      ensures old(hasher).Some? && data == [] ==> result == Some((Fold(step, init, whole[..size]), size))
    {
      var n := Given(room);
      data := rest[..n];
      assert whole[size..] == rest;
      rest := rest[n..];
      if data != [] {
        if hasher.Some? {
          FoldConcat(step, init, whole[..size], data);
          assert whole[..size + n] == whole[..size] + data;
          hasher := Some(Fold(step, hasher.value, data));
        }
        size := size + |data|;
      }
      if data == [] && hasher.Some? {
        result := Some((hasher.value, size));
        hasher := None;
      }
    }

    /** Every read with room keeps the hash faithful; an empty one completes it. A
        first empty read without room is faithful only if nothing was left to read. */
    method Read(room: nat) returns (data: seq<Byte>)
      requires Faithful()
      modifies this
      ensures Valid() && |data| <= room && old(rest) == data + rest
      ensures data == [] <==> room == 0 || old(rest) == []
      ensures Faithful() <==> room > 0 || old(rest) == []
      ensures Faithful() && data == [] ==> hasher.None?
    {
      data := PollRead(room);
      assert whole[..|whole|] == whole;
      if rest == [] {
        assert size == |whole|;
      }
    }
  }

  // ---- chunked upload ----

  /** Fills a buffer of the given capacity, whatever the pattern of short reads. */
  method ReadChunk<H>(stream: HashingReader<H>, capacity: nat) returns (chunk: seq<Byte>)
    requires stream.Faithful()
    modifies stream
    ensures stream.Faithful()
    ensures chunk == Prefix(old(stream.rest), capacity) && stream.rest == old(stream.rest)[|chunk|..]
    ensures |chunk| < capacity ==> stream.hasher.None?
    ensures capacity == 0 ==> stream.hasher == old(stream.hasher) && stream.result == old(stream.result)
  {
    chunk := [];
    ghost var all := stream.rest;
    while |chunk| < capacity
      invariant stream.Faithful() && |chunk| <= capacity && all == chunk + stream.rest
      invariant capacity == 0 ==> stream.hasher == old(stream.hasher) && stream.result == old(stream.result)
      decreases |stream.rest|
    {
      var data := stream.Read(capacity - |chunk|);
      chunk := chunk + data;
      if data == [] { break; }
    }
    assert chunk == all[..|chunk|];
  }

  function Prefix(s: seq<Byte>, n: nat): seq<Byte> { if |s| <= n then s else s[..n] }

  datatype Stored = Put(bytes: seq<Byte>) | Multipart(parts: seq<seq<Byte>>)

  function Contents(s: Stored): seq<Byte> {
    match s case Put(b) => b case Multipart(parts) => Flatten(parts)
  }

  /** The parts after the first: the rest of the stream in chunks. */
  method RunMultipartUpload<H>(stream: HashingReader<H>, first: seq<Byte>, bufferSize: nat)
      returns (parts: seq<seq<Byte>>, fileSize: nat)
    requires stream.Faithful() && |first| == bufferSize
    modifies stream
    ensures stream.Faithful()
    ensures bufferSize > 0 ==>
      && parts == [first] + Chunks(old(stream.rest), bufferSize)
      && fileSize == bufferSize + |old(stream.rest)| && stream.hasher.None?
    ensures bufferSize == 0 ==> parts == [] && fileSize == 0 && stream.result == old(stream.result)
  {
    var partNumber := 1;
    var firstChunk := Some(first);
    parts, fileSize := [], 0;
    ghost var all := stream.rest;
    while true
      invariant stream.Faithful() && partNumber == |parts| + 1
      invariant firstChunk.None? ==> parts != [] && Uploaded(first, all, stream.rest, bufferSize, parts, fileSize)
      invariant firstChunk.Some? ==> parts == [] && fileSize == 0 && firstChunk.value == first && stream.rest == all
      invariant firstChunk.Some? ==> stream.result == old(stream.result)
      decreases |stream.rest| + if firstChunk.Some? then 1 else 0
    {
      var chunk;
      if partNumber == 1 && firstChunk.Some? {
        chunk := firstChunk.value;
        firstChunk := None;
        FirstUploaded(first, all, bufferSize);
      } else {
        ghost var before := stream.rest;
        chunk := ReadChunk(stream, bufferSize);
        NextUploaded(first, all, before, bufferSize, parts, fileSize);
      }
      fileSize := fileSize + |chunk|;
      if chunk == [] { break; }
      parts := parts + [chunk];
      partNumber := partNumber + 1;
    }
  }

  /** The parts so far and the rest in chunks are the first part and its rest in chunks. */
  predicate Uploaded(
      first: seq<Byte>, all: seq<Byte>, rest: seq<Byte>, n: nat, parts: seq<seq<Byte>>, fileSize: nat) {
    n > 0 && [first] + Chunks(all, n) == parts + Chunks(rest, n) && fileSize + |rest| == |first| + |all|
  }

  lemma FirstUploaded(first: seq<Byte>, all: seq<Byte>, n: nat)
    requires |first| == n
    ensures n > 0 ==> Uploaded(first, all, all, n, [] + [first], |first|)
  {
  }

  lemma NextUploaded(
      first: seq<Byte>, all: seq<Byte>, rest: seq<Byte>, n: nat, parts: seq<seq<Byte>>, fileSize: nat)
    requires Uploaded(first, all, rest, n, parts, fileSize)
    ensures var chunk := Prefix(rest, n);
      if chunk == [] then rest == [] && parts == [first] + Chunks(all, n)
      else Uploaded(first, all, rest[|chunk|..], n, parts + [chunk], fileSize + |chunk|)
  {
    ChunkTaken(rest, n);
    var chunk := Prefix(rest, n);
    if chunk != [] {
      assert parts + ([chunk] + Chunks(rest[|chunk|..], n)) == parts + [chunk] + Chunks(rest[|chunk|..], n);
    }
  }

  lemma ChunkTaken(s: seq<Byte>, n: nat)
    requires n > 0
    ensures Chunks(s, n) == if s == [] then [] else [Prefix(s, n)] + Chunks(s[|Prefix(s, n)|..], n)
  {
  }

  /** With a buffer, the object holds the stream: as it is if it is shorter than the
      buffer, and in chunks otherwise; and hash and size are those of the stream.
      Without a buffer nothing is read. */
  method UploadFile<H>(stream: HashingReader<H>, bufferSize: nat) returns (stored: Stored, fileSize: nat)
    requires stream.Faithful() && stream.rest == stream.whole
    modifies stream
    ensures bufferSize > 0 ==>
      && stored == (if |stream.whole| < bufferSize then Put(stream.whole)
           else Multipart(Chunks(stream.whole, bufferSize)))
      && fileSize == |stream.whole|
      && stream.result == Some((Fold(stream.step, stream.init, stream.whole), |stream.whole|))
    ensures Contents(stored) == stream.whole <==> bufferSize > 0 || stream.whole == []
    ensures bufferSize == 0 ==> stored == Multipart([]) && stream.result == old(stream.result)
  {
    var first := ReadChunk(stream, bufferSize);
    if |first| < bufferSize {
      return Put(first), |first|;
    }
    var parts;
    parts, fileSize := RunMultipartUpload(stream, first, bufferSize);
    if bufferSize > 0 {
      ChunkTaken(stream.whole, bufferSize);
      ChunksFlatten(stream.whole, bufferSize);
    }
    stored := Multipart(parts);
  }
}
