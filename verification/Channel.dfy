/** One direction of the data channel: reliable and ordered. */
module Channel {
  import opened Frames

  /** Everything ever sent, of which the first `delivered` frames have reached the other side. */
  datatype Link = Link(sent: seq<Frame>, delivered: nat) {
    ghost predicate Valid() {
      delivered <= |sent|
    }

    predicate Waiting() {
      delivered < |sent|
    }

    function Next(): Frame
      requires Waiting()
    {
      sent[delivered]
    }

    function Send(fs: seq<Frame>): Link {
      Link(sent + fs, delivered)
    }

    function Deliver(): Link {
      Link(sent, delivered + 1)
    }

    function Received(): seq<Frame>
      requires Valid()
    {
      sent[..delivered]
    }
  }

  const EMPTY := Link([], 0)
}
