/**
 * The part of an `HttpServletResponse` that the interceptor touches: its
 * content type and its character writer. The writer is a `PrintWriter`:
 * once closed, further writes and flushes have no effect (the writer
 * swallows the error instead of throwing).
 */
module Servlet {
  import opened Wrappers

  class Response {
    /** `null` until someone sets it. */
    var contentType: Option<string>
    /** Every character that reached the writer, in order. */
    var body: string
    /** Whether the writer still accepts output. */
    var writerOpen: bool
    /** Whether a flush has sent the response to the client. Closing a
        `PrintWriter` flushes it too; `Close` is only used after `Flush`,
        so the commit that closing itself performs is not represented. */
    var committed: bool

    /** A response as the container hands it to the interceptor chain. */
    constructor ()
      ensures Untouched()
    {
      contentType := None;
      body := [];
      writerOpen := true;
      committed := false;
    }

    /** Nothing has been set or written yet. */
    predicate Untouched()
      reads this
    {
      contentType == None && body == [] && writerOpen && !committed
    }

    method SetContentType(t: string)
      modifies this
      ensures contentType == Some(t)
      ensures body == old(body) && writerOpen == old(writerOpen) && committed == old(committed)
    {
      contentType := Some(t);
    }

    method Write(s: string)
      modifies this
      ensures body == if old(writerOpen) then old(body) + s else old(body)
      ensures contentType == old(contentType) && writerOpen == old(writerOpen) && committed == old(committed)
    {
      if writerOpen {
        body := body + s;
      }
    }

    method Flush()
      modifies this
      ensures committed == (old(committed) || old(writerOpen))
      ensures contentType == old(contentType) && body == old(body) && writerOpen == old(writerOpen)
    {
      if writerOpen {
        committed := true;
      }
    }

    method Close()
      modifies this
      ensures !writerOpen
      ensures contentType == old(contentType) && body == old(body) && committed == old(committed)
    {
      writerOpen := false;
    }
  }
}
