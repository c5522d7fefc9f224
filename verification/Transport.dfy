/** The transport of src/transport.rs as the transceiver sees it: an arbitrary supplier of
read chunks and acceptor of write prefixes. */
module Transports {
  import opened Wrappers
  import opened ByteIo

  datatype IoError = WouldBlock | Failed | Undecodable(why: DecodeError)

  type IoResult<T> = Result<T, IoError>

  class Transport {
    var accepted: seq<byte>  // every byte taken from us so far
    var incoming: seq<byte>  // bytes the peer sent that have not been read yet

    constructor (fromPeer: seq<byte>)
      ensures accepted == [] && incoming == fromPeer
    {
      accepted := [];
      incoming := fromPeer;
    }

    /** Takes any prefix of `src`, possibly nothing. */
    method Write(src: seq<byte>, zeroIfWouldBlock: bool) returns (r: IoResult<nat>)
      modifies this`accepted
      ensures r.Ok? ==> r.value <= |src| && accepted == old(accepted) + src[..r.value]
      ensures r.Err? ==> accepted == old(accepted)
      ensures r.Err? ==> !r.error.Undecodable?
      ensures zeroIfWouldBlock ==> r != Err(WouldBlock)
    {
      var failed: bool := *;
      var n :| 0 <= n <= |src|;
      if failed {
        return Err(Failed);
      }
      if n == 0 && !zeroIfWouldBlock {
        return Err(WouldBlock);
      }
      accepted := accepted + src[..n];
      r := Ok(n);
    }

    method Flush() returns (r: IoResult<()>)
      ensures r.Ok? || r == Err(Failed)
    {
      var failed: bool := *;
      r := if failed then Err(Failed) else Ok(());
    }

    /** Yields at most `max` bytes of what is available; an empty result means closed. */
    method Read(max: nat) returns (r: IoResult<seq<byte>>)
      modifies this`incoming
      ensures r.Ok? ==> |r.value| <= max && old(incoming) == r.value + incoming
      ensures r.Err? ==> incoming == old(incoming) && !r.error.Undecodable?
    {
      var blocked, failed, closed: bool := *, *, *;
      if failed {
        return Err(Failed);
      }
      if closed {
        return Ok([]);
      }
      if blocked || incoming == [] || max == 0 {
        return Err(WouldBlock);
      }
      var n :| 1 <= n <= max && n <= |incoming|;
      r := Ok(incoming[..n]);
      incoming := incoming[n..];
    }
  }
}
