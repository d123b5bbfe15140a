/**
 * The upstream chat API as both backends see it: the raw message records a
 * page of channel history holds, the outcome of one HTTP fetch, and the
 * request (URL plus Authorization header) that asks for a page.
 *
 * The network itself is not modelled: an export is given the sequence of
 * responses its successive fetches receive, as a total function from the
 * fetch number (0, 1, 2, ...) to a Response.
 */
module Discord {

  /** The author sub-record; avatar is the avatar hash, "" when absent or null. */
  datatype Author = Author(id: string, username: string, avatar: string)

  /** One message as the upstream returns it; content is "" when absent or null. */
  datatype RawMsg = RawMsg(id: string, content: string, author: Author, timestamp: string)

  /** A response body: a decoded JSON array of messages, or a body that does not decode. */
  datatype Body = Messages(items: seq<RawMsg>) | NotJson(reason: string)

  /**
   * What one fetch yields: an HTTP reply with its status code and status
   * text, or an exception raised by the transport before any reply (its
   * error name and message; an abort of the in-flight request is the
   * exception named "AbortError").
   */
  datatype Response =
    | Reply(status: nat, statusText: string, body: Body)
    | NetworkError(name: string, message: string)

  /** One page request: the URL and the Authorization header (the user's token, passed through). */
  datatype Request = Request(url: string, authorization: string)

  /** The page size both backends ask for. */
  const PageSize: nat := 50

  /** The id of the last raw message of a non-empty page: the cursor for the next page. */
  function LastId(ms: seq<RawMsg>): string
    requires |ms| > 0
  {
    ms[|ms| - 1].id
  }

  /**
   * The URL of one page: the channel's message listing with limit=50, and
   * `&before=<cursor>` only when the cursor is non-empty.
   */
  function BatchUrl(apiBase: string, channelId: string, before: string): (url: string)
    ensures before == "" ==> url == apiBase + "/channels/" + channelId + "/messages?limit=50"
    ensures before != "" ==> url == apiBase + "/channels/" + channelId + "/messages?limit=50&before=" + before
  {
    apiBase + "/channels/" + channelId + "/messages?limit=50" + (if before != "" then "&before=" + before else "")
  }

  /** The URL determines the cursor: two page requests for one channel differ whenever their cursors do. */
  lemma BatchUrlDeterminesCursor(apiBase: string, channelId: string, x: string, y: string)
    requires BatchUrl(apiBase, channelId, x) == BatchUrl(apiBase, channelId, y)
    ensures x == y
  {
    var stem := apiBase + "/channels/" + channelId + "/messages?limit=50";
    var u := BatchUrl(apiBase, channelId, x);
    if x != "" && y != "" {
      assert u == stem + ("&before=" + x) == stem + ("&before=" + y);
      assert u[|stem|..] == "&before=" + x;
      assert u[|stem|..] == "&before=" + y;
      assert x == ("&before=" + x)[8..];
      assert y == ("&before=" + y)[8..];
    }
  }
}
