/**
 * The Go backend's page fetch (fetchBatch in apps/backend/main.go): build
 * the page URL, turn a failed fetch into an error, and normalise a
 * delivered page into the trimmed, non-empty content lines it exports,
 * together with the cursor for the next page.
 */
module GoFetch {
  import opened Wrappers
  import opened Text
  import opened Discord

  /** The API version the Go backend talks to. */
  const ApiBase := "https://discord.com/api/v8"

  /** Why a fetch failed: a non-200 status, a transport error, or a 200 body that is not a JSON message array. */
  datatype FetchFailure =
    | BadStatus(status: nat)
    | Transport(message: string)
    | Undecodable(reason: string)

  /** strings.TrimSpace */
  function TrimSpace(s: string): string
  {
    Trim(s, GoSpace)
  }

  /** The error fetchBatch returns for a response, if any: anything but a 200 reply with a decodable body. */
  function Failure(r: Response): Option<FetchFailure>
  {
    match r
    case NetworkError(_, message) => Some(Transport(message))
    case Reply(status, _, body) =>
      if status != 200 then Some(BadStatus(status))
      else if body.NotJson? then Some(Undecodable(body.reason))
      else None
  }

  /** A response that yields a non-empty page: the only kind after which the export loop goes on. */
  predicate Delivers(r: Response)
  {
    Failure(r).None? && |r.body.items| > 0
  }

  /** The line one message contributes: its trimmed content, or nothing when that is empty. */
  function LineOf(m: RawMsg): seq<string>
  {
    var t := TrimSpace(m.content);
    if t != "" then [t] else []
  }

  /**
   * The content lines of a page: each message's content with surrounding
   * whitespace trimmed, in page order, skipping messages whose trimmed
   * content is empty.
   */
  function Lines(ms: seq<RawMsg>): (lines: seq<string>)
    ensures |lines| <= |ms|
  {
    if ms == [] then [] else Lines(ms[..|ms| - 1]) + LineOf(ms[|ms| - 1])
  }

  /** Normalising pages piece by piece gives the same lines, in the same order, as normalising them whole. */
  lemma {:induction false} LinesAppend(a: seq<RawMsg>, b: seq<RawMsg>)
    ensures Lines(a + b) == Lines(a) + Lines(b)
    decreases |b|
  {
    if b == [] {
      assert a + b == a;
    } else {
      var b' := b[..|b| - 1];
      assert (a + b)[..|a + b| - 1] == a + b';
      LinesAppend(a, b');
    }
  }

  /** Every line is non-empty and starts and ends with a non-whitespace character. */
  lemma {:induction false} LinesAreTrimmed(ms: seq<RawMsg>)
    ensures forall k :: 0 <= k < |Lines(ms)| ==> Lines(ms)[k] != [] && !IsSpace(GoSpace, Lines(ms)[k][0]) && !IsSpace(GoSpace, Lines(ms)[k][|Lines(ms)[k]| - 1])
  {
    if ms != [] {
      LinesAreTrimmed(ms[..|ms| - 1]);
    }
  }

  /** The filtering loop of fetchBatch: append each non-empty trimmed content, in order. */
  method CollectLines(messages: seq<RawMsg>) returns (lines: seq<string>)
    ensures lines == Lines(messages)
  {
    lines := [];
    var i := 0;
    while i < |messages|
      invariant 0 <= i <= |messages|
      invariant lines == Lines(messages[..i])
    {
      var content := TrimSpace(messages[i].content);
      assert Lines(messages[..i + 1]) == Lines(messages[..i]) + LineOf(messages[i]) by {
        assert messages[..i + 1][..i] == messages[..i];
      }
      if content != "" {
        lines := lines + [content];
      }
      i := i + 1;
    }
    assert messages[..i] == messages;
  }

  /**
   * fetchBatch. The request goes to the page URL for the cursor with the
   * token as Authorization header; the response decides the rest. A failed
   * fetch yields an error and nothing else; an empty page yields
   * hasMore = false and no error; a non-empty page yields its lines, their
   * count and the id of its last raw message as the next cursor.
   */
  method FetchBatch(channelID: string, authToken: string, beforeID: string, response: Response)
    returns (request: Request, hasMore: bool, newBeforeID: string, messagesCount: int, lines: seq<string>, err: Option<FetchFailure>)
    ensures request == Request(BatchUrl(ApiBase, channelID, beforeID), authToken)
    ensures response.NetworkError? ==> err == Some(Transport(response.message))
    ensures response.Reply? && response.status != 200 ==> err == Some(BadStatus(response.status))
    ensures response.Reply? && response.status == 200 && response.body.NotJson? ==> err == Some(Undecodable(response.body.reason))
    ensures response.Reply? && response.status == 200 && response.body.Messages? ==> err == None
    ensures hasMore <==> err == None && |response.body.items| > 0
    ensures err == Failure(response)
    ensures hasMore <==> Delivers(response)
    ensures hasMore ==> lines == Lines(response.body.items) && newBeforeID == LastId(response.body.items)
    ensures !hasMore ==> lines == [] && newBeforeID == ""
    ensures messagesCount == |lines|
  {
    request := Request(BatchUrl(ApiBase, channelID, beforeID), authToken);
    hasMore, newBeforeID, messagesCount, lines, err := false, "", 0, [], None;
    match response {
      case NetworkError(_, message) =>
        err := Some(Transport(message));
      case Reply(status, _, body) =>
        if status != 200 {
          err := Some(BadStatus(status));
        } else if body.NotJson? {
          err := Some(Undecodable(body.reason));
        } else if |body.items| > 0 {
          var messages := body.items;
          lines := CollectLines(messages);
          hasMore, newBeforeID, messagesCount := true, messages[|messages| - 1].id, |lines|;
        }
    }
  }
}
