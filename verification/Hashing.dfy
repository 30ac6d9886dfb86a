/** Hash state that is fed a stream chunk by chunk, and the readers that feed it. */
module Hashing {
  import opened Wrappers
  import opened Content

  /** A hash function as its library exposes it: a state, its update, its digest. */
  datatype Hash<!S> = Hash(start: S, absorb: (S, byte) -> S, finish: S -> string)

  function Absorb<S>(h: Hash<S>, state: S, data: Bytes): S {
    if data == [] then state else h.absorb(Absorb(h, state, data[..|data| - 1]), data[|data| - 1])
  }

  function Sum<S>(h: Hash<S>, data: Bytes): string {
    h.finish(Absorb(h, h.start, data))
  }

  /** Feeding two chunks is feeding their concatenation. */
  lemma {:induction false} AbsorbAppend<S>(h: Hash<S>, state: S, a: Bytes, b: Bytes)
    ensures Absorb(h, state, a + b) == Absorb(h, Absorb(h, state, a), b)
  {
    if b == [] {
      assert a + b == a;
    } else {
      AbsorbAppend(h, state, a, b[..|b| - 1]);
      assert (a + b)[..|a + b| - 1] == a + b[..|b| - 1];
    }
  }

  /** What a reader delivers: chunks, then the end of the stream or an error. */
  datatype Reader = Reader(chunks: seq<Bytes>, fails: bool)

  function Body(chunks: seq<Bytes>): Bytes {
    if chunks == [] then [] else Body(chunks[..|chunks| - 1]) + chunks[|chunks| - 1]
  }

  lemma {:induction false} BodyPrefix(chunks: seq<Bytes>, i: nat)
    requires i <= |chunks|
    ensures Body(chunks[..i]) <= Body(chunks)
  {
    if i < |chunks| {
      BodyPrefix(chunks[..|chunks| - 1], i);
      assert chunks[..|chunks| - 1][..i] == chunks[..i];
    } else {
      assert chunks[..i] == chunks;
    }
  }

  lemma BodyNext(chunks: seq<Bytes>, i: nat)
    requires i < |chunks|
    ensures Body(chunks[..i + 1]) == Body(chunks[..i]) + chunks[i]
  {
    assert chunks[..i + 1][..i] == chunks[..i];
  }

  lemma AbsorbNext<S>(h: Hash<S>, chunks: seq<Bytes>, i: nat)
    requires i < |chunks|
    ensures Absorb(h, h.start, Body(chunks[..i + 1])) == Absorb(h, Absorb(h, h.start, Body(chunks[..i])), chunks[i])
  {
    BodyNext(chunks, i);
    AbsorbAppend(h, h.start, Body(chunks[..i]), chunks[i]);
  }

  /** `Digest` streams a reader once through both hashes and declares what it read. */
  method Digest<S, T>(sha: Hash<S>, crc: Hash<T>, reader: Reader) returns (r: Option<Declaration>)
    ensures r.None? <==> reader.fails
    ensures r.Some? ==> var body := Body(reader.chunks); r.value == Declaration(|body|, Sum(sha, body), Sum(crc, body))
  {
    var size, s, c := 0, sha.start, crc.start;
    for i := 0 to |reader.chunks|
      invariant var body := Body(reader.chunks[..i]);
                size == |body| && s == Absorb(sha, sha.start, body) && c == Absorb(crc, crc.start, body)
    {
      var chunk := reader.chunks[i];
      BodyNext(reader.chunks, i);
      AbsorbNext(sha, reader.chunks, i);
      AbsorbNext(crc, reader.chunks, i);
      s, c, size := Absorb(sha, s, chunk), Absorb(crc, c, chunk), size + |chunk|;
    }
    assert reader.chunks[..|reader.chunks|] == reader.chunks;
    return if reader.fails then None else Some(Declaration(size, sha.finish(s), crc.finish(c)));
  }
}
