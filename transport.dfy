/**
 * The transport object behind both socket stores. Only what the stores can
 * observe is kept: the frames written to it and whether (and with which close
 * code) it was closed. Opening, receiving and closing events are delivered to
 * the stores as separate method calls.
 */
module Transport {
  import opened Wrappers

  class Socket<M> {
    /** The endpoint the socket was opened on. */
    const url: string
    /** Every message written with `send`, in order. */
    var sent: seq<M>
    var closed: bool
    /** The code given to `close`; `None` when `close()` was called without one. */
    var closeCode: Option<int>

    constructor (url: string)
      ensures this.url == url && sent == [] && !closed && closeCode == None
    {
      this.url := url;
      sent := [];
      closed := false;
      closeCode := None;
    }

    method Send(m: M)
      modifies this
      ensures sent == old(sent) + [m]
      ensures closed == old(closed) && closeCode == old(closeCode)
    {
      sent := sent + [m];
    }

    method Close(code: Option<int>)
      modifies this
      ensures closed && closeCode == code
      ensures sent == old(sent)
    {
      closed := true;
      closeCode := code;
    }
  }
}
