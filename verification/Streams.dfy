/** Byte streams read in arbitrary pieces. */
module Streams {
  import opened Domain

  ghost function Flatten(chunks: seq<Bytes>): Bytes {
    if chunks == [] then [] else chunks[0] + Flatten(chunks[1..])
  }

  /** How a stream ends once its bytes are used up. */
  datatype Ending = Eof | Broken

  datatype ReadResult = Full | Empty | Short | Error

  /** An `io.Reader`: every `Read` returns at most one chunk, so the chunks are one way of
      splitting the byte stream. */
  class Reader {
    var chunks: seq<Bytes>
    const ending: Ending

    constructor (chunks: seq<Bytes>, ending: Ending)
      ensures this.chunks == chunks && this.ending == ending
    {
      this.chunks := chunks;
      this.ending := ending;
    }

    ghost function Rest(): Bytes
      reads this
    {
      Flatten(chunks)
    }

    method Read(want: nat) returns (data: Bytes, over: bool)
      requires want > 0
      modifies this
      ensures old(Rest()) == data + Rest() && |data| <= want
      ensures over ==> data == [] && Rest() == [] && chunks == old(chunks)
      ensures !over ==> |Rest()| < |old(Rest())| || (Rest() == old(Rest()) && |chunks| < |old(chunks)|)
    {
      if chunks == [] {
        return [], true;
      }
      var c := chunks[0];
      if |c| <= want {
        chunks := chunks[1..];
        return c, false;
      }
      assert c == c[..want] + c[want..];
      assert ([c[want..]] + chunks[1..])[1..] == chunks[1..];
      chunks := [c[want..]] + chunks[1..];
      return c[..want], false;
    }

    /** `io.ReadFull`. */
    method ReadFull(want: nat) returns (buf: Bytes, r: ReadResult)
      modifies this
      ensures old(Rest()) == buf + Rest()
      ensures if |old(Rest())| >= want then |buf| == want && r == Full
              else Rest() == [] && r == if ending.Broken? then Error else if buf == [] then Empty else Short
    {
      buf := [];
      while |buf| < want
        invariant |buf| <= want && buf + Rest() == old(Rest())
        decreases |Rest()|, |chunks|
      {
        var data, over := Read(want - |buf|);
        if over {
          return buf, if ending.Broken? then Error else if buf == [] then Empty else Short;
        }
        buf := buf + data;
      }
      r := Full;
    }
  }
}
