/** The injected randomness source (`io.Reader`): a finite stream of bytes consumed from the front. */
module Random {
  import opened Wrappers

  newtype Byte = x: int | 0 <= x < 256

  class Reader {
    var stream: seq<Byte>

    constructor (bytes: seq<Byte>)
      ensures stream == bytes
    {
      stream := bytes;
    }

    /** io.ReadFull: exactly `n` bytes, or an error when the stream runs short. */
    method ReadFull(n: nat) returns (r: Option<seq<Byte>>)
      modifies this
      ensures r.Some? <==> n <= |old(stream)|
      ensures r.Some? ==> r.value == old(stream)[..n] && stream == old(stream)[n..]
      ensures r.None? ==> stream == []
    {
      if n <= |stream| {
        r := Some(stream[..n]);
        stream := stream[n..];
      } else {
        r := None;
        stream := [];
      }
    }
  }
}
