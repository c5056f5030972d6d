/** Docker's stdout framing and the bounded decoder of the job reader (app/agents/supervisor.py). */
module StdoutFrames {
  type Byte = b: int | 0 <= b < 256
  type Chunk = c: seq<Byte> | |c| < MAX_FRAME

  const MAX_FRAME := 0x1_0000_0000
  const STDOUT_MARK: seq<Byte> := [1, 0, 0, 0]

  datatype Decoded = Payload(bytes: seq<Byte>) | Rejected

  function BigEndian(n: nat): (b: seq<Byte>)
    requires n < MAX_FRAME
    ensures |b| == 4
  {
    var (hi, lo) := (n / 0x10000, n % 0x10000);
    [hi / 0x100, hi % 0x100, lo / 0x100, lo % 0x100]
  }

  function FromBigEndian(b: seq<Byte>): (n: nat)
    requires |b| == 4
    ensures n < MAX_FRAME
  {
    var hi: nat := b[0] as int * 0x100 + b[1] as int;
    var lo: nat := b[2] as int * 0x100 + b[3] as int;
    hi * 0x10000 + lo
  }

  lemma BigEndianInverse(n: nat)
    requires n < MAX_FRAME
    ensures FromBigEndian(BigEndian(n)) == n
  {}

  lemma FromBigEndianInverse(b: seq<Byte>)
    requires |b| == 4
    ensures BigEndian(FromBigEndian(b)) == b
  {}

  function Frame(chunk: Chunk): (f: seq<Byte>)
    ensures |f| == 8 + |chunk|
  {
    STDOUT_MARK + BigEndian(|chunk|) + chunk
  }

  function Stream(chunks: seq<Chunk>): seq<Byte> {
    if chunks == [] then [] else Frame(chunks[0]) + Stream(chunks[1..])
  }

  function Joined(chunks: seq<Chunk>): seq<Byte> {
    if chunks == [] then [] else chunks[0] + Joined(chunks[1..])
  }

  lemma {:induction false} JoinedSplits(chunks: seq<Chunk>, k: nat)
    requires k <= |chunks|
    ensures Joined(chunks) == Joined(chunks[..k]) + Joined(chunks[k..])
  {
    if k > 0 {
      JoinedSplits(chunks[1..], k - 1);
      assert chunks[..k][1..] == chunks[1..][..k - 1];
      assert chunks[1..][k - 1..] == chunks[k..];
    }
  }

  lemma {:induction false} Append(chunks: seq<Chunk>, last: Chunk)
    ensures Stream(chunks + [last]) == Stream(chunks) + Frame(last)
  {
    if chunks == [] {
      assert chunks + [last] == [last];
    } else {
      Append(chunks[1..], last);
      var longer := chunks + [last];
      assert longer[0] == chunks[0] && longer[1..] == chunks[1..] + [last];
    }
  }

  lemma AppendPayload(chunks: seq<Chunk>, last: Chunk)
    ensures Joined(chunks + [last]) == Joined(chunks) + last
  {
    var longer := chunks + [last];
    JoinedSplits(longer, |chunks|);
    assert longer[..|chunks|] == chunks && longer[|chunks|..] == [last];
    assert Joined([last]) == last + [];
  }

  /** A frame can be read off the front of a byte sequence in one way only. */
  lemma FrameFromFront(a: Chunk, s: seq<Byte>, b: Chunk, t: seq<Byte>)
    requires Frame(a) + s == Frame(b) + t
    ensures a == b && s == t
  {
    var whole := Frame(a) + s;
    assert whole[4..8] == BigEndian(|a|) && whole[4..8] == BigEndian(|b|);
    BigEndianInverse(|a|);
    BigEndianInverse(|b|);
    assert whole[8..8 + |a|] == a && whole[8..8 + |a|] == b;
    assert whole[8 + |a|..] == s && whole[8 + |a|..] == t;
  }

  /** Whatever has been read as frames is a prefix of every chunk list with that stream. */
  lemma {:induction false} ReadPrefix(a: seq<Chunk>, rest: seq<Byte>, b: seq<Chunk>)
    requires Stream(a) + rest == Stream(b)
    ensures a <= b && rest == Stream(b[|a|..])
  {
    if a == [] {
      assert Stream(a) + rest == rest;
    } else {
      assert Stream(a) + rest == Frame(a[0]) + (Stream(a[1..]) + rest);
      FrameFromFront(a[0], Stream(a[1..]) + rest, b[0], Stream(b[1..]));
      ReadPrefix(a[1..], rest, b[1..]);
      assert b[1..][|a[1..]|..] == b[|a|..];
    }
  }

  /** The framing determines its chunks. */
  lemma StreamInjective(a: seq<Chunk>, b: seq<Chunk>)
    requires Stream(a) == Stream(b)
    ensures a == b
  {
    assert Stream(a) + [] == Stream(b);
    ReadPrefix(a, [], b);
  }

  ghost predicate Frames(raw: seq<Byte>, chunks: seq<Chunk>) {
    raw == Stream(chunks)
  }

  /** Decoding succeeds exactly on framings of at most `maximum` payload bytes, and inverts the framing. */
  method DecodeStdout(raw: seq<Byte>, maximum: nat) returns (r: Decoded)
    ensures r.Payload? <==> exists chunks :: Frames(raw, chunks) && |Joined(chunks)| <= maximum
    ensures r.Payload? ==> |r.bytes| <= maximum && forall chunks :: Frames(raw, chunks) ==> r.bytes == Joined(chunks)
  {
    var output: seq<Byte>, offset := [], 0;
    ghost var chunks: seq<Chunk> := [];
    while offset < |raw|
      invariant 0 <= offset <= |raw|
      invariant raw[..offset] == Stream(chunks)
      invariant output == Joined(chunks) && |output| <= maximum
      decreases |raw| - offset
    {
      if |raw| - offset < 8 || raw[offset..offset + 4] != STDOUT_MARK {
        NotFramed(raw, offset, chunks, maximum);
        return Rejected;
      }
      var length := FromBigEndian(raw[offset + 4..offset + 8]);
      if offset + 8 + length > |raw| || |output| + length > maximum {
        NotFramed(raw, offset, chunks, maximum);
        return Rejected;
      }
      ghost var chunk := raw[offset + 8..offset + 8 + length];
      FromBigEndianInverse(raw[offset + 4..offset + 8]);
      assert raw[..offset + 8 + length] == raw[..offset] + Frame(chunk);
      Append(chunks, chunk);
      AppendPayload(chunks, chunk);
      chunks := chunks + [chunk];
      output := output + raw[offset + 8..offset + 8 + length];
      offset := offset + 8 + length;
    }
    assert raw[..offset] == raw;
    assert Frames(raw, chunks);
    forall other | Frames(raw, other) ensures output == Joined(other) {
      StreamInjective(chunks, other);
    }
    return Payload(output);
  }

  /** A frame the decoder refuses at `offset` cannot continue to a stream within the bound. */
  lemma NotFramed(raw: seq<Byte>, offset: nat, chunks: seq<Chunk>, maximum: nat)
    requires offset < |raw| && raw[..offset] == Stream(chunks)
    requires
      || |raw| - offset < 8
      || raw[offset..offset + 4] != STDOUT_MARK
      || (var length := FromBigEndian(raw[offset + 4..offset + 8]);
          offset + 8 + length > |raw| || |Joined(chunks)| + length > maximum)
    ensures !exists all :: Frames(raw, all) && |Joined(all)| <= maximum
  {
    forall all | Frames(raw, all) ensures |Joined(all)| > maximum {
      NextFrame(raw, offset, chunks, all);
    }
  }

  /** A stream that goes on after `chunks` has a whole frame at `offset`. */
  lemma NextFrame(raw: seq<Byte>, offset: nat, chunks: seq<Chunk>, all: seq<Chunk>)
    requires offset < |raw| && raw[..offset] == Stream(chunks) && Frames(raw, all)
    ensures |raw| - offset >= 8 && raw[offset..offset + 4] == STDOUT_MARK
    ensures var length := FromBigEndian(raw[offset + 4..offset + 8]);
            offset + 8 + length <= |raw| && |Joined(chunks)| + length <= |Joined(all)|
  {
    assert raw == Stream(chunks) + raw[offset..];
    ReadPrefix(chunks, raw[offset..], all);
    var rest, tail := raw[offset..], all[|chunks|..];
    FrontFrame(rest, tail);
    assert raw[offset..offset + 4] == rest[..4] && raw[offset + 4..offset + 8] == rest[4..8];
    JoinedSplits(all, |chunks|);
    assert all[..|chunks|] == chunks;
  }

  /** The header at the front of a non-empty stream announces its first chunk. */
  lemma FrontFrame(rest: seq<Byte>, tail: seq<Chunk>)
    requires rest == Stream(tail) && rest != []
    ensures |rest| >= 8 && rest[..4] == STDOUT_MARK
    ensures tail != [] && |tail[0]| == FromBigEndian(rest[4..8])
    ensures |rest| >= 8 + |tail[0]| && |Joined(tail)| >= |tail[0]|
  {
    var frame := Frame(tail[0]);
    assert rest[..4] == frame[..4] == STDOUT_MARK;
    assert rest[4..8] == frame[4..8] == BigEndian(|tail[0]|);
    BigEndianInverse(|tail[0]|);
  }
}
