/**
 * The Next.js export route (POST in apps/web/app/api/discord-export/route.ts):
 * resolve the credentials, check the action, then fetch pages of channel
 * history into one list of normalised messages, until the ceiling
 * Math.ceil(maxMessages / 50), an empty page, an error or a cancellation.
 *
 * The environment is a value: the responses the successive fetches receive,
 * and whether the client's abort signal has fired at the check before each
 * fetch and during each pause. An abort while a fetch is in flight is the
 * fetch's own outcome (a NetworkError named "AbortError").
 */
module WebRoute {
  import opened Wrappers
  import opened Seqs
  import opened Text
  import opened Discord

  /** The API version the route talks to. */
  const ApiBase := "https://discord.com/api/v10"

  /** Where avatar images live. */
  const AvatarBase := "https://cdn.discordapp.com/avatars/"

  const MissingCredentialsText := "Missing Channel ID or Discord Token. Please provide them in the form or set environment variables."
  const InvalidActionText := "Invalid action"
  const CancelledText := "Export cancelled by user"
  const UnauthorizedText := "Invalid Discord token or unauthorized. Make sure you have access to the channel and your token is valid."
  const NotFoundText := "Channel not found or not accessible. Check your Channel ID and make sure you have access to this channel."
  const ForbiddenText := "Access forbidden. You may not have permission to read messages in this channel."
  const InternalErrorText := "Internal server error"

  // ---------------------------------------------------------------- normalisation

  datatype ExportedAuthor = ExportedAuthor(id: string, username: string, avatar: Option<string>)

  /** One message of the export: the raw id, content and timestamp, and the author with a resolved avatar URL. */
  datatype ExportedMessage = ExportedMessage(id: string, content: string, author: ExportedAuthor, timestamp: string)

  /** The avatar image URL for an author id and avatar hash. */
  function AvatarUrl(authorId: string, hash: string): string
  {
    AvatarBase + authorId + "/" + hash + ".png"
  }

  /** The URL is the avatar base, the author id, a slash, the hash and ".png", in that order. */
  lemma AvatarUrlParts(authorId: string, hash: string)
    ensures var url, a := AvatarUrl(authorId, hash), |AvatarBase|;
            && |url| == a + |authorId| + 1 + |hash| + 4
            && url[..a] == AvatarBase
            && url[a..a + |authorId|] == authorId
            && url[a + |authorId|] == '/'
            && url[a + |authorId| + 1..|url| - 4] == hash
            && url[|url| - 4..] == ".png"
  {
    var url, a := AvatarUrl(authorId, hash), |AvatarBase|;
    assert url == AvatarBase + authorId + ("/" + hash + ".png");
    assert url == (AvatarBase + authorId + "/") + hash + ".png";
  }

  /** For author ids without a slash (Discord's numeric ids), the URL determines both the id and the hash. */
  lemma AvatarUrlInjective(id1: string, hash1: string, id2: string, hash2: string)
    requires '/' !in id1 && '/' !in id2
    requires AvatarUrl(id1, hash1) == AvatarUrl(id2, hash2)
    ensures id1 == id2 && hash1 == hash2
  {
    var url, a := AvatarUrl(id1, hash1), |AvatarBase|;
    AvatarUrlParts(id1, hash1);
    AvatarUrlParts(id2, hash2);
  }

  /** The exported form of a raw message: content kept as it is, avatar resolved to a URL when a hash is present. */
  function Exported(m: RawMsg): ExportedMessage
  {
    var avatar := if m.author.avatar != "" then Some(AvatarUrl(m.author.id, m.author.avatar)) else None;
    ExportedMessage(m.id, m.content, ExportedAuthor(m.author.id, m.author.username, avatar), m.timestamp)
  }

  /** The filter: content present and not blank after trimming. */
  predicate Keep(m: RawMsg)
  {
    m.content != "" && Trim(m.content, JsSpace) != ""
  }

  /** A message is kept exactly when its content is not all whitespace. */
  lemma KeepIffNotBlank(m: RawMsg)
    ensures Keep(m) <==> !IsBlank(m.content, JsSpace)
  {
    TrimEmptyIffBlank(m.content, JsSpace);
  }

  /** The filter/map of a page: the exported form of each kept message, in page order. */
  function Normalize(ms: seq<RawMsg>): (r: seq<ExportedMessage>)
    ensures |r| <= |ms|
  {
    if ms == [] then []
    else Normalize(ms[..|ms| - 1]) + (if Keep(ms[|ms| - 1]) then [Exported(ms[|ms| - 1])] else [])
  }

  /** The positions of the kept messages, in increasing order. */
  function KeptIndices(ms: seq<RawMsg>): (ix: seq<nat>)
    ensures forall i :: 0 <= i < |ix| ==> ix[i] < |ms|
  {
    if ms == [] then []
    else KeptIndices(ms[..|ms| - 1]) + (if Keep(ms[|ms| - 1]) then [|ms| - 1] else [])
  }

  /** The kept positions are strictly increasing and are exactly the positions whose message passes the filter. */
  lemma {:induction false} KeptIndicesExact(ms: seq<RawMsg>)
    ensures forall i, j :: 0 <= i < j < |KeptIndices(ms)| ==> KeptIndices(ms)[i] < KeptIndices(ms)[j]
    ensures forall k :: 0 <= k < |ms| ==> (Keep(ms[k]) <==> k in KeptIndices(ms))
  {
    if ms != [] {
      var init := ms[..|ms| - 1];
      KeptIndicesExact(init);
      assert forall k :: 0 <= k < |init| ==> ms[k] == init[k];
    }
  }

  /**
   * Normalisation keeps exactly the messages that pass the filter, in their
   * original order, each in its exported form: the i-th result is the
   * exported form of the message at the i-th kept position.
   */
  lemma {:induction false} NormalizeByIndices(ms: seq<RawMsg>)
    ensures |Normalize(ms)| == |KeptIndices(ms)|
    ensures forall i :: 0 <= i < |Normalize(ms)| ==> Normalize(ms)[i] == Exported(ms[KeptIndices(ms)[i]])
  {
    if ms != [] {
      var init := ms[..|ms| - 1];
      NormalizeByIndices(init);
      assert forall k :: 0 <= k < |init| ==> ms[k] == init[k];
    }
  }

  /** Normalising pages one by one gives the same list as normalising them together. */
  lemma {:induction false} NormalizeAppend(a: seq<RawMsg>, b: seq<RawMsg>)
    ensures Normalize(a + b) == Normalize(a) + Normalize(b)
    decreases |b|
  {
    if b == [] {
      assert a + b == a;
    } else {
      var b' := b[..|b| - 1];
      assert (a + b)[..|a + b| - 1] == a + b';
      NormalizeAppend(a, b');
    }
  }

  // ---------------------------------------------------------------- the request and the reply

  /** The JSON body fields the route reads; an absent maxMessages is None. */
  datatype ExportRequest = ExportRequest(action: string, maxMessages: Option<int>, channelId: string, discordToken: string)

  /** The request body: parsed, or failing to parse (with the parser's message). */
  datatype Incoming = Parsed(body: ExportRequest) | Unparsable(message: string)

  /** The JSON reply: the export, or an error with its HTTP status. */
  datatype Reply =
    | Success(messages: seq<ExportedMessage>, totalMessages: nat, batchesFetched: nat, channelId: string)
    | ErrorReply(status: nat, error: string, details: Option<string>)

  /** `given || fallback`: the given value unless it is empty. */
  function Resolve(given: string, fallback: string): (r: string)
    ensures r == "" <==> given == "" && fallback == ""
  {
    if given != "" then given else fallback
  }

  /** Math.ceil(maxMessages / 50) on an integer, which floor division of maxMessages + 49 gives exactly. */
  function MaxBatches(maxMessages: int): (c: int)
    ensures 50 * (c - 1) < maxMessages <= 50 * c
  {
    (maxMessages + 49) / 50
  }

  /** The ceiling for an absent maxMessages, which defaults to 500. */
  lemma DefaultCeiling()
    ensures MaxBatches(Option<int>.None.GetOr(500)) == 10
  {
  }

  // ---------------------------------------------------------------- errors

  /** A thrown JavaScript error: its name and message. */
  datatype Exception = Exception(name: string, message: string)

  /**
   * What fetchDiscordBatch throws for a response, if anything: the
   * transport's own error, "Discord API error: <status> <statusText>" for
   * a status outside 200-299, or the JSON parser's error for a body that
   * does not decode.
   */
  function FetchException(r: Response): (e: Option<Exception>)
    ensures e.None? <==> r.Reply? && 200 <= r.status <= 299 && r.body.Messages?
  {
    match r
    case NetworkError(name, message) => Some(Exception(name, message))
    case Reply(status, statusText, body) =>
      if !(200 <= status <= 299) then Some(Exception("Error", "Discord API error: " + NatToString(status) + " " + statusText))
      else if body.NotJson? then Some(Exception("SyntaxError", body.reason))
      else None
  }

  /** How the loop's catch block treats an error. */
  datatype Verdict = Cancel | Unauthorized | NotFound | Forbidden | KeepPartial

  /** The catch block: cancellation first, then the status substrings 401, 404 and 403 in that order. */
  function Classify(e: Exception): Verdict
  {
    if e.name == "AbortError" || e.message == "Request cancelled" then Cancel
    else if Contains(e.message, "401") then Unauthorized
    else if Contains(e.message, "404") then NotFound
    else if Contains(e.message, "403") then Forbidden
    else KeepPartial
  }

  /** The reply for an error the catch block returns on; None when it breaks out of the loop instead. */
  function ErrorFor(v: Verdict): (r: Option<Reply>)
    ensures r.None? <==> v == KeepPartial
    ensures r.Some? ==> r.value.ErrorReply? && r.value.details.None?
  {
    match v
    case Cancel => Some(ErrorReply(499, CancelledText, None))
    case Unauthorized => Some(ErrorReply(401, UnauthorizedText, None))
    case NotFound => Some(ErrorReply(404, NotFoundText, None))
    case Forbidden => Some(ErrorReply(403, ForbiddenText, None))
    case KeepPartial => None
  }

  /** A three-digit code occurs in three digits followed by digit-free text exactly when it is those three digits. */
  lemma DigitsThenText(d: string, rest: string, w: string)
    requires |d| == 3 && |w| == 3 && AllDigits(w) && NoDigits(rest)
    ensures Contains(d + rest, w) <==> d == w
  {
    var s := d + rest;
    assert s[..3] == d;
    if d == w {
      assert OccursAt(s, w, 0);
    }
    if Contains(s, w) {
      var i: nat :| i <= |s| && OccursAt(s, w, i);
      if i > 0 {
        NotAfterDigits(d, rest, w, i);
      }
    }
  }

  /**
   * For an HTTP error with a three-digit status and a status text without
   * digits (as the standard reason phrases are), the classification is by
   * the status alone: 401, 404 and 403 get their own replies and every
   * other status stops the loop keeping the partial results.
   */
  lemma ClassifyHttpStatus(status: nat, statusText: string, body: Body)
    requires 100 <= status <= 999 && !(200 <= status <= 299) && NoDigits(statusText)
    ensures var e := FetchException(Reply(status, statusText, body));
            && e.Some?
            && Classify(e.value) == (if status == 401 then Unauthorized else if status == 404 then NotFound
                                     else if status == 403 then Forbidden else KeepPartial)
  {
    var message := "Discord API error: " + NatToString(status) + " " + statusText;
    assert FetchException(Reply(status, statusText, body)) == Some(Exception("Error", message));
    assert |message| > |"Request cancelled"|;
    StatusCodesInMessage(status, statusText);
  }

  /** The codes 401, 404 and 403 occur in the error message for a three-digit status exactly when they are the status. */
  lemma StatusCodesInMessage(status: nat, statusText: string)
    requires 100 <= status <= 999 && NoDigits(statusText)
    ensures var message := "Discord API error: " + NatToString(status) + " " + statusText;
            && (Contains(message, "401") <==> status == 401)
            && (Contains(message, "404") <==> status == 404)
            && (Contains(message, "403") <==> status == 403)
  {
    var prefix := "Discord API error: ";
    var digits := NatToString(status);
    var tail := " " + statusText;
    ThreeDigits(status);
    assert NoDigits(tail) by {
      assert forall k :: 1 <= k < |tail| ==> tail[k] == statusText[k - 1];
    }
    assert prefix + digits + " " + statusText == prefix + (digits + tail);
    StatusInMessage(prefix, digits, tail, "401");
    StatusInMessage(prefix, digits, tail, "404");
    StatusInMessage(prefix, digits, tail, "403");
    CodeStrings();
    SameDigits(status, 401);
    SameDigits(status, 404);
    SameDigits(status, 403);
  }

  lemma CodeStrings()
    ensures NatToString(401) == "401" && NatToString(404) == "404" && NatToString(403) == "403"
  {
    ThreeDigits(401);
    ThreeDigits(404);
    ThreeDigits(403);
  }

  /** A three-digit code occurs in the error message exactly when it is the status. */
  lemma StatusInMessage(prefix: string, digits: string, tail: string, w: string)
    requires NoDigits(prefix) && NoDigits(tail) && |digits| == 3 && |w| == 3 && AllDigits(w)
    ensures Contains(prefix + (digits + tail), w) <==> digits == w
  {
    DigitsThenText(digits, tail, w);
    ContainsAfterPrefix(prefix, digits + tail, w);
  }

  /** Decimal forms are equal exactly when the numbers are. */
  lemma SameDigits(m: nat, n: nat)
    ensures NatToString(m) == NatToString(n) <==> m == n
  {
    if NatToString(m) == NatToString(n) {
      NatToStringInjective(m, n);
    }
  }

  /** A digit string cannot start inside the three digits and run into digit-free text. */
  lemma NotAfterDigits(d: string, rest: string, w: string, i: nat)
    requires |d| == 3 && |w| == 3 && AllDigits(w) && NoDigits(rest) && 0 < i
    ensures !OccursAt(d + rest, w, i)
  {
    if i + 3 <= |d + rest| {
      assert (d + rest)[i + 2] == rest[i - 1];
    }
  }

  /** A digit string cannot start inside a digit-free prefix. */
  lemma NotInPrefix(prefix: string, s: string, w: string, i: nat)
    requires NoDigits(prefix) && |w| > 0 && AllDigits(w) && i < |prefix|
    ensures !OccursAt(prefix + s, w, i)
  {
    assert (prefix + s)[i] == prefix[i];
  }

  /** A prefix without digits adds no occurrence of a digit string. */
  lemma ContainsAfterPrefix(prefix: string, s: string, w: string)
    requires NoDigits(prefix) && |w| > 0 && AllDigits(w)
    ensures Contains(prefix + s, w) <==> Contains(s, w)
  {
    var t := prefix + s;
    if Contains(t, w) {
      var i: nat :| i <= |t| && OccursAt(t, w, i);
      if i < |prefix| {
        NotInPrefix(prefix, s, w, i);
      }
      assert t[i..i + |w|] == s[i - |prefix|..i - |prefix| + |w|];
      assert OccursAt(s, w, i - |prefix|);
    }
    if Contains(s, w) {
      var i: nat :| i <= |s| && OccursAt(s, w, i);
      assert t[i + |prefix|..i + |prefix| + |w|] == s[i..i + |w|];
      assert OccursAt(t, w, i + |prefix|);
    }
  }

  // ---------------------------------------------------------------- the export loop

  /**
   * What the route meets while it runs: the response to the fetch made at
   * each batch count, whether the abort signal has fired when the loop
   * checks it before that fetch, and whether it fires during the pause
   * that follows the batch bringing the count to a given value.
   */
  datatype Client = Client(responses: nat -> Response, abortedBeforeFetch: nat -> bool, abortedDuringPause: nat -> bool)

  /*
   * Named accessors for the three client schedules: the loop's invariants
   * and the lemmas about the run mention these terms rather than the
   * datatype's fields, which keeps each proof step to one known term.
   */

  /** The response to the fetch made at a batch count. */
  function ResponseAt(env: Client, batchCount: nat): Response
  {
    env.responses(batchCount)
  }

  /** Whether the abort signal has fired when the loop checks it before the fetch at a batch count. */
  predicate AbortedBefore(env: Client, batchCount: nat)
  {
    env.abortedBeforeFetch(batchCount)
  }

  /** Whether the abort signal fires during the pause after the batch bringing the count to this value. */
  predicate AbortedDuring(env: Client, batchCount: nat)
  {
    env.abortedDuringPause(batchCount)
  }

  /** The messages of the page fetched at a batch count, or none when that fetch fails. */
  function PageAt(env: Client, batchCount: nat): seq<RawMsg>
  {
    match ResponseAt(env, batchCount)
    case Reply(_, _, Messages(items)) => items
    case _ => []
  }

  /** The reply and the page requests sent, in order. */
  datatype Outcome = Outcome(reply: Reply, requests: seq<Request>)

  /** The catch block: an error reply, or the results so far when it breaks out of the loop. */
  function Caught(e: Exception, acc: seq<ExportedMessage>, batchCount: nat, channelId: string): Reply
  {
    match ErrorFor(Classify(e))
    case Some(r) => r
    case None => Success(acc, |acc|, batchCount, channelId)
  }

  /** The page request for the current cursor. */
  function PageRequest(channelId: string, token: string, beforeId: string): Request
  {
    Request(BatchUrl(ApiBase, channelId, beforeId), token)
  }

  /**
   * The rest of the loop from a batch count, a cursor and the messages
   * gathered so far: what the route replies and the page requests it
   * still sends.
   */
  function Run(channelId: string, token: string, env: Client, maxBatches: int,
               batchCount: nat, beforeId: string, acc: seq<ExportedMessage>): Outcome
    decreases if batchCount < maxBatches then maxBatches - batchCount else 0
  {
    if batchCount >= maxBatches then Outcome(Success(acc, |acc|, batchCount, channelId), [])
    else if AbortedBefore(env, batchCount) then Outcome(ErrorReply(499, CancelledText, None), [])
    else
      var request := PageRequest(channelId, token, beforeId);
      var response := ResponseAt(env, batchCount);
      match FetchException(response)
      case Some(e) => Outcome(Caught(e, acc, batchCount, channelId), [request])
      case None =>
        var messages := response.body.items;
        if |messages| == 0 then Outcome(Success(acc, |acc|, batchCount, channelId), [request])
        else
          var gathered := acc + Normalize(messages);
          var count := batchCount + 1;
          if count < maxBatches && AbortedDuring(env, count) then
            Outcome(Caught(Exception("Error", "Request cancelled"), gathered, count, channelId), [request])
          else
            var rest := Run(channelId, token, env, maxBatches, count, LastId(messages), gathered);
            Outcome(rest.reply, [request] + rest.requests)
  }

  /** The request reaches the export loop: it parses, both credentials resolve, and the action is "export". */
  predicate Exporting(incoming: Incoming, envChannelId: string, envToken: string)
  {
    && incoming.Parsed?
    && Resolve(incoming.body.channelId, envChannelId) != ""
    && Resolve(incoming.body.discordToken, envToken) != ""
    && incoming.body.action == "export"
  }

  /** The number of pages the export may fetch. */
  function Ceiling(body: ExportRequest): int
  {
    MaxBatches(body.maxMessages.GetOr(500))
  }

  /** The POST handler: the checks on the request, then the loop from an empty cursor and no messages. */
  function PostOutcome(incoming: Incoming, envChannelId: string, envToken: string, env: Client): Outcome
  {
    match incoming
    case Unparsable(message) => Outcome(ErrorReply(500, InternalErrorText, Some(message)), [])
    case Parsed(body) =>
      var channelId := Resolve(body.channelId, envChannelId);
      var token := Resolve(body.discordToken, envToken);
      if channelId == "" || token == "" then Outcome(ErrorReply(400, MissingCredentialsText, None), [])
      else if body.action != "export" then Outcome(ErrorReply(400, InvalidActionText, None), [])
      else Run(channelId, token, env, Ceiling(body), 0, "", [])
  }

  /**
   * The POST handler as the route runs it: a loop over batches that
   * accumulates normalised messages and moves the cursor to the last raw
   * message of each page, returning early on cancellation and on the
   * 401/404/403 errors.
   */
  method Post(incoming: Incoming, envChannelId: string, envToken: string, env: Client)
    returns (reply: Reply, requests: seq<Request>)
    ensures reply == PostOutcome(incoming, envChannelId, envToken, env).reply
    ensures requests == PostOutcome(incoming, envChannelId, envToken, env).requests
  {
    requests := [];
    if incoming.Unparsable? {
      reply := ErrorReply(500, InternalErrorText, Some(incoming.message));
      return;
    }
    var body := incoming.body;
    var channelId := Resolve(body.channelId, envChannelId);
    var token := Resolve(body.discordToken, envToken);
    if channelId == "" || token == "" {
      reply := ErrorReply(400, MissingCredentialsText, None);
      return;
    }
    if body.action != "export" {
      reply := ErrorReply(400, InvalidActionText, None);
      return;
    }
    reply, requests := Gather(channelId, token, env, MaxBatches(body.maxMessages.GetOr(500)));
  }

  /** One page delivered and no abort in the pause after it: the loop goes on from the next count and the page's last id. */
  lemma PassOn(channelId: string, token: string, env: Client, maxBatches: int, batchCount: nat, beforeId: string,
               acc: seq<ExportedMessage>, request: Request, messages: seq<RawMsg>, gathered: seq<ExportedMessage>, count: nat)
    requires batchCount < maxBatches && !AbortedBefore(env, batchCount)
    requires request == PageRequest(channelId, token, beforeId)
    requires FetchException(ResponseAt(env, batchCount)).None? && messages == ResponseAt(env, batchCount).body.items
    requires |messages| > 0 && gathered == acc + Normalize(messages) && count == batchCount + 1
    requires !(count < maxBatches && AbortedDuring(env, count))
    ensures Run(channelId, token, env, maxBatches, batchCount, beforeId, acc).reply
            == Run(channelId, token, env, maxBatches, count, LastId(messages), gathered).reply
    ensures Run(channelId, token, env, maxBatches, batchCount, beforeId, acc).requests
            == [request] + Run(channelId, token, env, maxBatches, count, LastId(messages), gathered).requests
  {
  }

  /** The export loop, from an empty cursor and no messages. */
  method Gather(channelId: string, token: string, env: Client, maxBatches: int) returns (reply: Reply, requests: seq<Request>)
    ensures reply == Run(channelId, token, env, maxBatches, 0, "", []).reply
    ensures requests == Run(channelId, token, env, maxBatches, 0, "", []).requests
  {
    requests := [];
    var allMessages: seq<ExportedMessage> := [];
    var beforeId := "";
    var batchCount: nat := 0;
    ghost var goal := Run(channelId, token, env, maxBatches, 0, "", []);
    while batchCount < maxBatches
      invariant Run(channelId, token, env, maxBatches, batchCount, beforeId, allMessages).reply == goal.reply
      invariant requests + Run(channelId, token, env, maxBatches, batchCount, beforeId, allMessages).requests == goal.requests
      decreases maxBatches - batchCount
    {
      if AbortedBefore(env, batchCount) {
        reply := ErrorReply(499, CancelledText, None);
        return;
      }
      var request := PageRequest(channelId, token, beforeId);
      var response := ResponseAt(env, batchCount);
      var error := FetchException(response);
      if error.Some? {
        var failure := ErrorFor(Classify(error.value));
        requests := requests + [request];
        if failure.Some? {
          reply := failure.value;
          return;
        }
        break;
      }
      var messages := response.body.items;
      if |messages| == 0 {
        requests := requests + [request];
        break;
      }
      var gathered := allMessages + Normalize(messages);
      var count := batchCount + 1;
      if count < maxBatches && AbortedDuring(env, count) {
        // the pause's abort listener rejects with Error("Request cancelled"), which the catch block reports as a cancellation
        requests := requests + [request];
        reply := ErrorReply(499, CancelledText, None);
        return;
      }
      PassOn(channelId, token, env, maxBatches, batchCount, beforeId, allMessages, request, messages, gathered, count);
      requests := requests + [request];
      allMessages, beforeId, batchCount := gathered, LastId(messages), count;
    }
    reply := Success(allMessages, |allMessages|, batchCount, channelId);
  }

  // ---------------------------------------------------------------- properties of the handler

  /**
   * The checks before the loop, none of which fetches anything: a body that
   * does not parse gives 500 with the parser's message; missing credentials
   * give 400 whatever the action; a wrong action with credentials gives 400.
   */
  lemma RequestChecks(incoming: Incoming, envChannelId: string, envToken: string, env: Client)
    ensures incoming.Unparsable? ==>
              PostOutcome(incoming, envChannelId, envToken, env) == Outcome(ErrorReply(500, InternalErrorText, Some(incoming.message)), [])
    ensures incoming.Parsed? && (Resolve(incoming.body.channelId, envChannelId) == "" || Resolve(incoming.body.discordToken, envToken) == "") ==>
              PostOutcome(incoming, envChannelId, envToken, env) == Outcome(ErrorReply(400, MissingCredentialsText, None), [])
    ensures incoming.Parsed? && !Exporting(incoming, envChannelId, envToken) && Resolve(incoming.body.channelId, envChannelId) != ""
            && Resolve(incoming.body.discordToken, envToken) != "" ==>
              PostOutcome(incoming, envChannelId, envToken, env) == Outcome(ErrorReply(400, InvalidActionText, None), [])
  {
  }

  /**
   * From any point of the loop: at most one request per remaining batch;
   * a success carries every message gathered so far (nothing is dropped),
   * counts its messages exactly, names the channel, and reports a batch
   * count between the current one and the ceiling; an error is one of the
   * four the catch block produces.
   */
  lemma {:induction false} RunShape(channelId: string, token: string, env: Client, maxBatches: int,
                                    batchCount: nat, beforeId: string, acc: seq<ExportedMessage>)
    ensures var o := Run(channelId, token, env, maxBatches, batchCount, beforeId, acc);
            && |o.requests| <= (if batchCount < maxBatches then maxBatches - batchCount else 0)
            && (o.reply.Success? ==>
                  && o.reply.totalMessages == |o.reply.messages|
                  && o.reply.channelId == channelId
                  && acc <= o.reply.messages
                  && batchCount <= o.reply.batchesFetched <= batchCount + |o.requests|
                  && (batchCount <= maxBatches ==> o.reply.batchesFetched <= maxBatches))
            && (o.reply.ErrorReply? ==> o.reply.status in {499, 401, 404, 403} && o.reply.details.None?)
    decreases if batchCount < maxBatches then maxBatches - batchCount else 0
  {
    if batchCount < maxBatches && PassDelivers(env, maxBatches, batchCount) {
      var count := batchCount + 1;
      var gathered := acc + Normalize(PageAt(env, batchCount));
      DeliveredPass(channelId, token, env, maxBatches, batchCount, beforeId, acc, count);
      RunShape(channelId, token, env, maxBatches, count, LastId(PageAt(env, batchCount)), gathered);
      assert acc <= gathered;
    }
  }

  /**
   * The whole handler: it never sends more page requests than the ceiling,
   * and a successful reply counts its messages exactly, reports no more
   * batches than requests sent, and names the resolved channel.
   */
  lemma PostBounds(incoming: Incoming, envChannelId: string, envToken: string, env: Client)
    ensures var o := PostOutcome(incoming, envChannelId, envToken, env);
            && (incoming.Parsed? ==> |o.requests| <= (if Ceiling(incoming.body) > 0 then Ceiling(incoming.body) else 0))
            && (incoming.Unparsable? ==> o.requests == [])
            && (o.reply.Success? ==>
                  && Exporting(incoming, envChannelId, envToken)
                  && o.reply.totalMessages == |o.reply.messages|
                  && o.reply.batchesFetched <= |o.requests|
                  && o.reply.channelId == Resolve(incoming.body.channelId, envChannelId))
  {
    if Exporting(incoming, envChannelId, envToken) {
      RunShape(Resolve(incoming.body.channelId, envChannelId), Resolve(incoming.body.discordToken, envToken), env,
               Ceiling(incoming.body), 0, "", []);
    }
  }

  /** A ceiling of zero or less (maxMessages of zero or less) fetches nothing and succeeds with no messages. */
  lemma NoBatches(incoming: Incoming, envChannelId: string, envToken: string, env: Client)
    requires Exporting(incoming, envChannelId, envToken) && Ceiling(incoming.body) <= 0
    ensures PostOutcome(incoming, envChannelId, envToken, env)
            == Outcome(Success([], 0, 0, Resolve(incoming.body.channelId, envChannelId)), [])
  {
  }

  // ---------------------------------------------------------------- runs of delivered pages

  /** The pass at a batch count goes through: no abort before the fetch, a non-empty page, and no abort in the pause after it. */
  predicate PassDelivers(env: Client, maxBatches: int, batchCount: nat)
  {
    && !AbortedBefore(env, batchCount)
    && FetchException(ResponseAt(env, batchCount)).None?
    && |PageAt(env, batchCount)| > 0
    && !(batchCount + 1 < maxBatches && AbortedDuring(env, batchCount + 1))
  }

  /** The normalised messages of the pages fetched at counts lo..hi-1, in order. */
  function Collected(env: Client, lo: nat, hi: nat): seq<ExportedMessage>
    decreases hi
  {
    if hi <= lo then [] else Collected(env, lo, hi - 1) + Normalize(PageAt(env, hi - 1))
  }

  /** The cursor after the pages at counts lo..hi-1: the last raw id of the last of them, or the starting cursor. */
  function CursorAfter(env: Client, lo: nat, hi: nat, before: string): string
  {
    if hi <= lo || PageAt(env, hi - 1) == [] then before else LastId(PageAt(env, hi - 1))
  }

  /** The page requests for counts lo..hi-1, each with the cursor the pages before it left. */
  function RequestsBetween(channelId: string, token: string, env: Client, lo: nat, hi: nat, before: string): seq<Request>
    decreases hi
  {
    if hi <= lo then [] else RequestsBetween(channelId, token, env, lo, hi - 1, before) + [PageRequest(channelId, token, CursorAfter(env, lo, hi - 1, before))]
  }

  /** Each request carries the cursor of the page before it; the first carries the starting cursor. */
  lemma {:induction false} RequestCursors(channelId: string, token: string, env: Client, lo: nat, hi: nat, before: string)
    ensures |RequestsBetween(channelId, token, env, lo, hi, before)| == (if hi <= lo then 0 else hi - lo)
    ensures forall i :: lo <= i < hi ==>
              RequestsBetween(channelId, token, env, lo, hi, before)[i - lo] == PageRequest(channelId, token, CursorAfter(env, lo, i, before))
    decreases hi
  {
    if lo < hi {
      RequestCursors(channelId, token, env, lo, hi - 1, before);
    }
  }

  /** A pass that delivers: the loop goes on from the next count with the page's last id as cursor and its messages gathered. */
  lemma DeliveredPass(channelId: string, token: string, env: Client, maxBatches: int, batchCount: nat, beforeId: string,
                      acc: seq<ExportedMessage>, count: nat)
    requires batchCount < maxBatches && PassDelivers(env, maxBatches, batchCount) && count == batchCount + 1
    ensures Run(channelId, token, env, maxBatches, batchCount, beforeId, acc).reply
            == Run(channelId, token, env, maxBatches, count, LastId(PageAt(env, batchCount)), acc + Normalize(PageAt(env, batchCount))).reply
    ensures Run(channelId, token, env, maxBatches, batchCount, beforeId, acc).requests
            == [PageRequest(channelId, token, beforeId)]
               + Run(channelId, token, env, maxBatches, count, LastId(PageAt(env, batchCount)), acc + Normalize(PageAt(env, batchCount))).requests
  {
    assert PageAt(env, batchCount) == ResponseAt(env, batchCount).body.items;
  }

  /** One more delivered page: its messages are appended, its last id becomes the cursor, and its request is appended. */
  lemma RunOfDelivered(channelId: string, token: string, env: Client, lo: nat, k: nat, hi: nat, before: string)
    requires lo <= k && hi == k + 1 && PageAt(env, k) != []
    ensures Collected(env, lo, hi) == Collected(env, lo, k) + Normalize(PageAt(env, k))
    ensures CursorAfter(env, lo, hi, before) == LastId(PageAt(env, k))
    ensures RequestsBetween(channelId, token, env, lo, hi, before)
            == RequestsBetween(channelId, token, env, lo, k, before) + [PageRequest(channelId, token, CursorAfter(env, lo, k, before))]
  {
  }

  /** Consecutive delivered passes: the loop reaches the count after them with their pages gathered and their requests sent. */
  lemma {:induction false} FastForward(channelId: string, token: string, env: Client, maxBatches: int,
                                       lo: nat, before: string, acc: seq<ExportedMessage>, hi: nat)
    requires lo <= hi <= maxBatches
    requires forall i :: lo <= i < hi ==> PassDelivers(env, maxBatches, i)
    ensures Run(channelId, token, env, maxBatches, lo, before, acc).reply
            == Run(channelId, token, env, maxBatches, hi, CursorAfter(env, lo, hi, before), acc + Collected(env, lo, hi)).reply
    ensures Run(channelId, token, env, maxBatches, lo, before, acc).requests
            == RequestsBetween(channelId, token, env, lo, hi, before)
               + Run(channelId, token, env, maxBatches, hi, CursorAfter(env, lo, hi, before), acc + Collected(env, lo, hi)).requests
    decreases hi
  {
    if lo < hi {
      var k := hi - 1;
      FastForward(channelId, token, env, maxBatches, lo, before, acc, k);
      var cursor := CursorAfter(env, lo, k, before);
      var sofar := acc + Collected(env, lo, k);
      DeliveredPass(channelId, token, env, maxBatches, k, cursor, sofar, hi);
      RunOfDelivered(channelId, token, env, lo, k, hi, before);
      AppendAssoc(acc, Collected(env, lo, k), Normalize(PageAt(env, k)));
      var tail := Run(channelId, token, env, maxBatches, hi, CursorAfter(env, lo, hi, before), acc + Collected(env, lo, hi)).requests;
      AppendAssoc(RequestsBetween(channelId, token, env, lo, k, before), [PageRequest(channelId, token, cursor)], tail);
    } else {
      assert acc + Collected(env, lo, hi) == acc;
    }
  }

  // ---------------------------------------------------------------- how an export ends

  /** Every pass up to the ceiling delivers: the reply holds all their normalised messages and reports the ceiling as the batch count. */
  lemma ExportCompletes(incoming: Incoming, envChannelId: string, envToken: string, env: Client)
    requires Exporting(incoming, envChannelId, envToken) && 0 <= Ceiling(incoming.body)
    requires forall i :: 0 <= i < Ceiling(incoming.body) ==> PassDelivers(env, Ceiling(incoming.body), i)
    ensures var channelId, token, c := Resolve(incoming.body.channelId, envChannelId), Resolve(incoming.body.discordToken, envToken), Ceiling(incoming.body);
            PostOutcome(incoming, envChannelId, envToken, env)
            == Outcome(Success(Collected(env, 0, c), |Collected(env, 0, c)|, c, channelId), RequestsBetween(channelId, token, env, 0, c, ""))
  {
    var channelId, token, c := Resolve(incoming.body.channelId, envChannelId), Resolve(incoming.body.discordToken, envToken), Ceiling(incoming.body);
    FastForward(channelId, token, env, c, 0, "", [], c);
    assert [] + Collected(env, 0, c) == Collected(env, 0, c);
    assert RequestsBetween(channelId, token, env, 0, c, "") + [] == RequestsBetween(channelId, token, env, 0, c, "");
  }

  /** The loop after k delivered passes, with their messages gathered and their requests sent. */
  lemma AfterDelivered(incoming: Incoming, envChannelId: string, envToken: string, env: Client, k: nat)
    requires Exporting(incoming, envChannelId, envToken) && k < Ceiling(incoming.body)
    requires forall i :: 0 <= i < k ==> PassDelivers(env, Ceiling(incoming.body), i)
    ensures var channelId, token, c := Resolve(incoming.body.channelId, envChannelId), Resolve(incoming.body.discordToken, envToken), Ceiling(incoming.body);
            var o := Run(channelId, token, env, c, k, CursorAfter(env, 0, k, ""), Collected(env, 0, k));
            PostOutcome(incoming, envChannelId, envToken, env) == Outcome(o.reply, RequestsBetween(channelId, token, env, 0, k, "") + o.requests)
  {
    var channelId, token, c := Resolve(incoming.body.channelId, envChannelId), Resolve(incoming.body.discordToken, envToken), Ceiling(incoming.body);
    FastForward(channelId, token, env, c, 0, "", [], k);
    assert [] + Collected(env, 0, k) == Collected(env, 0, k);
  }

  /** An abort seen before the fetch after k delivered passes: 499, the gathered messages are dropped, and no further request goes out. */
  lemma ExportCancelled(incoming: Incoming, envChannelId: string, envToken: string, env: Client, k: nat)
    requires Exporting(incoming, envChannelId, envToken) && k < Ceiling(incoming.body)
    requires forall i :: 0 <= i < k ==> PassDelivers(env, Ceiling(incoming.body), i)
    requires AbortedBefore(env, k)
    ensures var channelId, token := Resolve(incoming.body.channelId, envChannelId), Resolve(incoming.body.discordToken, envToken);
            PostOutcome(incoming, envChannelId, envToken, env)
            == Outcome(ErrorReply(499, CancelledText, None), RequestsBetween(channelId, token, env, 0, k, ""))
  {
    AfterDelivered(incoming, envChannelId, envToken, env, k);
  }

  /** An abort during the pause after the (k+1)-th delivered page: 499, and every request made so far stands. */
  lemma ExportCancelledInPause(incoming: Incoming, envChannelId: string, envToken: string, env: Client, k: nat)
    requires Exporting(incoming, envChannelId, envToken) && k + 1 < Ceiling(incoming.body)
    requires forall i :: 0 <= i < k ==> PassDelivers(env, Ceiling(incoming.body), i)
    requires !AbortedBefore(env, k) && FetchException(ResponseAt(env, k)).None? && PageAt(env, k) != []
    requires AbortedDuring(env, k + 1)
    ensures var channelId, token := Resolve(incoming.body.channelId, envChannelId), Resolve(incoming.body.discordToken, envToken);
            PostOutcome(incoming, envChannelId, envToken, env)
            == Outcome(ErrorReply(499, CancelledText, None), RequestsBetween(channelId, token, env, 0, k + 1, ""))
  {
    AfterDelivered(incoming, envChannelId, envToken, env, k);
  }

  /** An empty page after k delivered passes ends the export successfully with what was gathered. */
  lemma ExportEmptyPage(incoming: Incoming, envChannelId: string, envToken: string, env: Client, k: nat)
    requires Exporting(incoming, envChannelId, envToken) && k < Ceiling(incoming.body)
    requires forall i :: 0 <= i < k ==> PassDelivers(env, Ceiling(incoming.body), i)
    requires !AbortedBefore(env, k) && FetchException(ResponseAt(env, k)).None? && PageAt(env, k) == []
    ensures var channelId, token := Resolve(incoming.body.channelId, envChannelId), Resolve(incoming.body.discordToken, envToken);
            PostOutcome(incoming, envChannelId, envToken, env)
            == Outcome(Success(Collected(env, 0, k), |Collected(env, 0, k)|, k, channelId), RequestsBetween(channelId, token, env, 0, k + 1, ""))
  {
    AfterDelivered(incoming, envChannelId, envToken, env, k);
  }

  /**
   * A failed fetch after k delivered passes: the catch block's verdict
   * decides; 499, 401, 404 and 403 drop the gathered messages, and any
   * other error ends the export successfully with what was gathered.
   */
  lemma ExportFetchFails(incoming: Incoming, envChannelId: string, envToken: string, env: Client, k: nat)
    requires Exporting(incoming, envChannelId, envToken) && k < Ceiling(incoming.body)
    requires forall i :: 0 <= i < k ==> PassDelivers(env, Ceiling(incoming.body), i)
    requires !AbortedBefore(env, k) && FetchException(ResponseAt(env, k)).Some?
    ensures var channelId, token := Resolve(incoming.body.channelId, envChannelId), Resolve(incoming.body.discordToken, envToken);
            var verdict := Classify(FetchException(ResponseAt(env, k)).value);
            var o := PostOutcome(incoming, envChannelId, envToken, env);
            && o.requests == RequestsBetween(channelId, token, env, 0, k + 1, "")
            && (verdict != KeepPartial ==> o.reply == ErrorFor(verdict).value)
            && (verdict == KeepPartial ==> o.reply == Success(Collected(env, 0, k), |Collected(env, 0, k)|, k, channelId))
  {
    AfterDelivered(incoming, envChannelId, envToken, env, k);
  }

  /**
   * An HTTP error status after k delivered passes (three digits, a reason
   * phrase without digits): 401, 404 and 403 get their replies, and every
   * other status, a 429 or a 500 say, keeps the messages gathered so far.
   */
  lemma ExportHttpError(incoming: Incoming, envChannelId: string, envToken: string, env: Client, k: nat)
    requires Exporting(incoming, envChannelId, envToken) && k < Ceiling(incoming.body)
    requires forall i :: 0 <= i < k ==> PassDelivers(env, Ceiling(incoming.body), i)
    requires !AbortedBefore(env, k) && ResponseAt(env, k).Reply?
    requires 100 <= ResponseAt(env, k).status <= 999 && !(200 <= ResponseAt(env, k).status <= 299)
    requires NoDigits(ResponseAt(env, k).statusText)
    ensures var status, reply := ResponseAt(env, k).status, PostOutcome(incoming, envChannelId, envToken, env).reply;
            && (status == 401 ==> reply == ErrorReply(401, UnauthorizedText, None))
            && (status == 404 ==> reply == ErrorReply(404, NotFoundText, None))
            && (status == 403 ==> reply == ErrorReply(403, ForbiddenText, None))
            && (status !in {401, 404, 403} ==>
                  reply == Success(Collected(env, 0, k), |Collected(env, 0, k)|, k, Resolve(incoming.body.channelId, envChannelId)))
  {
    var r := ResponseAt(env, k);
    ClassifyHttpStatus(r.status, r.statusText, r.body);
    ExportFetchFails(incoming, envChannelId, envToken, env, k);
  }

  /** A fetch that the abort cuts short (its error is an AbortError) after k delivered passes: 499, the gathered messages dropped. */
  lemma ExportAbortedFetch(incoming: Incoming, envChannelId: string, envToken: string, env: Client, k: nat)
    requires Exporting(incoming, envChannelId, envToken) && k < Ceiling(incoming.body)
    requires forall i :: 0 <= i < k ==> PassDelivers(env, Ceiling(incoming.body), i)
    requires !AbortedBefore(env, k) && ResponseAt(env, k).NetworkError? && ResponseAt(env, k).name == "AbortError"
    ensures PostOutcome(incoming, envChannelId, envToken, env).reply == ErrorReply(499, CancelledText, None)
  {
    ExportFetchFails(incoming, envChannelId, envToken, env, k);
  }
}
