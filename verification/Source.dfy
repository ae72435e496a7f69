/** An upload being read: a payload that arrives in reads of any length. */
module Source {
  import opened Bytes

  // How a source ends. A multipart part cut off mid-body reports ErrUnexpectedEOF.
  datatype End = CleanEof | CutOff | Failed

  datatype ReadError = NoError | EOF | UnexpectedEOF | OtherError

  class Reader {
    var upcoming: seq<bytes>
    const end: End

    constructor (upcoming: seq<bytes>, end: End)
      ensures this.upcoming == upcoming && this.end == end
    {
      this.upcoming, this.end := upcoming, end;
    }

    function EndError(): ReadError {
      match end
      case CleanEof => EOF
      case CutOff => UnexpectedEOF
      case Failed => OtherError
    }

    // One read of at most limit bytes; it may be short, or even empty.
    method Read(limit: nat) returns (data: bytes, err: ReadError)
      modifies this
      ensures |data| <= limit
      ensures old(Flatten(upcoming)) == data + Flatten(upcoming)
      ensures err != NoError <==> old(upcoming) == []
      ensures err != NoError ==> err == EndError() && data == [] && upcoming == []
      ensures err == NoError ==> |upcoming| < |old(upcoming)| || (|data| == limit && |upcoming| == |old(upcoming)|)
    {
      if upcoming == [] {
        return [], EndError();
      }
      err := NoError;
      if |upcoming[0]| <= limit {
        data := upcoming[0];
        upcoming := upcoming[1..];
      } else {
        data := upcoming[0][..limit];
        assert upcoming[0] == data + upcoming[0][limit..];
        upcoming := [upcoming[0][limit..]] + upcoming[1..];
        assert upcoming[1..] == old(upcoming)[1..];
      }
    }

    // Fills up to limit bytes, as io.ReadFull does: no error once full, EOF only when
    // nothing came, and ErrUnexpectedEOF when the source ended early.
    method ReadFull(limit: nat) returns (data: bytes, err: ReadError)
      requires limit > 0
      modifies this
      ensures old(Flatten(upcoming)) == data + Flatten(upcoming)
      ensures err == NoError <==> |data| == limit
      ensures |data| <= limit
      ensures err != NoError ==>
        Flatten(upcoming) == [] && err == if end == CleanEof && data != [] then UnexpectedEOF else EndError()
    {
      data, err := [], NoError;
      while |data| < limit && err == NoError
        invariant |data| <= limit
        invariant old(Flatten(upcoming)) == data + Flatten(upcoming)
        invariant err != NoError ==> |data| < limit && err == EndError() && Flatten(upcoming) == []
        decreases |upcoming|, limit - |data|, err == NoError
      {
        var more, e := Read(limit - |data|);
        data := data + more;
        err := e;
      }
      if err == EOF && data != [] {
        err := UnexpectedEOF;
      }
    }
  }
}
