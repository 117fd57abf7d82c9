/**
 * The `*http.Response` that the HTTP dispatcher inspects: its status code and
 * text, the part of its body stream not read yet, and how often the body has
 * been closed. Reading drains the stream; a closed body yields nothing more.
 */
module Http {

  class Response {
    const statusCode: int
    const status: string
    var unread: string
    var closeCount: nat

    constructor (statusCode: int, status: string, body: string)
      ensures this.statusCode == statusCode && this.status == status
      ensures unread == body && closeCount == 0
    {
      this.statusCode := statusCode;
      this.status := status;
      unread := body;
      closeCount := 0;
    }

    /** What reading the body to its end yields now: the unread rest, or nothing once closed. */
    function Readable(): string
      reads this
    {
      if closeCount > 0 then "" else unread
    }

    /**
     * `io.ReadAll(r.Body)`: every byte still available, after which the stream
     * is at its end. A read error only shortens what is returned (the dispatcher
     * drops the error), and a read of a closed body returns nothing.
     */
    method ReadAll() returns (b: string)
      modifies this
      ensures b == old(Readable())
      ensures unread == "" && closeCount == old(closeCount)
    {
      b := Readable();
      unread := "";
    }

    /** `r.Body.Close()`. */
    method Close()
      modifies this
      ensures closeCount == old(closeCount) + 1
      ensures unread == old(unread)
    {
      closeCount := closeCount + 1;
    }
  }

  /** The body text a LogHTTP call would read from `r` in its current state. */
  function BodyText(r: Response?): string
    reads r
  {
    if r == null then "" else r.Readable()
  }
}
