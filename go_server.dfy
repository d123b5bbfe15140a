/**
 * The Go backend's server state and handlers (apps/backend/main.go): the
 * WebSocket origin check, the export handler that drives the page fetches
 * and stores the result, and the download handler that serves it.
 *
 * The store of finished exports is the map scrapedData, a field of Server
 * that handleExport updates in place.
 */
module GoServer {
  import opened Wrappers
  import opened Seqs
  import opened Text
  import opened Discord
  import opened GoFetch
  import opened GoExport

  /** The origins the WebSocket upgrader accepts, besides a missing Origin header. */
  const AllowedOrigins: seq<string> := [
    "http://localhost:3000",
    "https://localhost:3000",
    "https://discord.nermalcat69.dev",
    "http://discord.nermalcat69.dev"
  ]

  /** The upgrader's CheckOrigin: an exact match with an allowed origin, or no Origin header at all. */
  method CheckOrigin(origin: string) returns (allowed: bool)
    ensures allowed <==> origin in AllowedOrigins || origin == ""
  {
    var i := 0;
    while i < |AllowedOrigins|
      invariant 0 <= i <= |AllowedOrigins|
      invariant origin !in AllowedOrigins[..i]
    {
      if origin == AllowedOrigins[i] {
        return true;
      }
      i := i + 1;
    }
    assert AllowedOrigins[..i] == AllowedOrigins;
    allowed := origin == "";
  }

  /** A finished export kept for download: its text, when it was stored, and its channel. */
  datatype ScrapedContent = ScrapedContent(content: string, timestamp: nat, channelID: string)

  /** The download handler's answer: an HTTP error with its status and message, or the stored text. */
  datatype DownloadReply =
    | Failed(status: nat, message: string)
    | Served(content: string, channelID: string)

  const DownloadPrefix := "/download/"

  /** handleDownload: the id is the path after /download/; it must be non-empty and known. */
  function HandleDownload(scrapedData: map<string, ScrapedContent>, path: string): DownloadReply
  {
    var downloadID := TrimPrefix(path, DownloadPrefix);
    if downloadID == "" then Failed(400, "Download ID required")
    else if downloadID !in scrapedData then Failed(404, "Download not found or expired")
    else Served(scrapedData[downloadID].content, scrapedData[downloadID].channelID)
  }

  /**
   * The download URL of an id reaches exactly that id: an empty id is a
   * bad request, an unknown one is not found, and a known one serves its
   * stored text with its channel id.
   */
  lemma DownloadById(scrapedData: map<string, ScrapedContent>, id: string)
    ensures id == "" ==> HandleDownload(scrapedData, DownloadPrefix + id) == Failed(400, "Download ID required")
    ensures id != "" && id !in scrapedData ==> HandleDownload(scrapedData, DownloadPrefix + id) == Failed(404, "Download not found or expired")
    ensures id != "" && id in scrapedData ==> HandleDownload(scrapedData, DownloadPrefix + id) == Served(scrapedData[id].content, scrapedData[id].channelID)
  {
    var path := DownloadPrefix + id;
    assert path[..|DownloadPrefix|] == DownloadPrefix;
    assert TrimPrefix(path, DownloadPrefix) == id by {
      assert DownloadPrefix + TrimPrefix(path, DownloadPrefix) == path;
      assert path[|DownloadPrefix|..] == id;
    }
  }

  /** The lines appended to the content builder: each line, then a newline. */
  method WriteLines(content: string, lines: seq<string>) returns (result: string)
    ensures result == content + Joined(lines)
  {
    result := content;
    var j := 0;
    while j < |lines|
      invariant 0 <= j <= |lines|
      invariant result == content + Joined(lines[..j])
    {
      assert lines[..j + 1][..j] == lines[..j];
      result := result + lines[j] + "\n";
      j := j + 1;
    }
    assert lines[..j] == lines;
  }

  /**
   * One more delivered page: its lines become one more batch, the total,
   * the text, the events and the requests grow by that page's share, and
   * the cursor moves to the page's last raw message. The pass number and
   * the new running total are parameters so that callers can name them in
   * their own terms.
   */
  lemma PassStep(channelID: string, authToken: string, pages: seq<seq<RawMsg>>, page: seq<RawMsg>, ceiling: int,
                 setNumber: int, running: int)
    requires NonEmptyPages(pages) && page != []
    requires setNumber == |pages| + 1 && running == Total(PageLines(pages)) + |Lines(page)|
    ensures NonEmptyPages(pages + [page])
    ensures Total(PageLines(pages + [page])) == running
    ensures StoredText(PageLines(pages + [page])) == StoredText(PageLines(pages)) + Joined(Lines(page))
    ensures Passes(PageLines(pages + [page]), ceiling) == Passes(PageLines(pages), ceiling) + PassEvents(setNumber, Lines(page), running, ceiling)
    ensures Requests(channelID, authToken, pages + [page]) == Requests(channelID, authToken, pages) + [PageRequest(channelID, authToken, Cursor(pages))]
    ensures Cursor(pages + [page]) == LastId(page)
  {
    NonEmptyStep(pages, page);
    PageLinesStep(pages, page);
    BatchStep(PageLines(pages), Lines(page), ceiling, setNumber, running);
    assert (pages + [page])[..|pages|] == pages;
  }

  /** Appending a non-empty page keeps every page non-empty. */
  lemma NonEmptyStep(pages: seq<seq<RawMsg>>, page: seq<RawMsg>)
    requires NonEmptyPages(pages) && page != []
    ensures NonEmptyPages(pages + [page])
  {
    forall j | 0 <= j < |pages + [page]|
      ensures (pages + [page])[j] != []
    {
      if j < |pages| {
        assert (pages + [page])[j] == pages[j];
      }
    }
  }

  /** The lines of one more page are one more batch. */
  lemma PageLinesStep(pages: seq<seq<RawMsg>>, page: seq<RawMsg>)
    ensures PageLines(pages + [page]) == PageLines(pages) + [Lines(page)]
  {
    assert (pages + [page])[..|pages|] == pages;
  }

  /** One more batch adds its count to the total, its lines to the text and its pass to the events. */
  lemma BatchStep(batches: seq<seq<string>>, lines: seq<string>, ceiling: int, setNumber: int, running: int)
    requires setNumber == |batches| + 1 && running == Total(batches) + |lines|
    ensures Total(batches + [lines]) == running
    ensures StoredText(batches + [lines]) == StoredText(batches) + Joined(lines)
    ensures Passes(batches + [lines], ceiling) == Passes(batches, ceiling) + PassEvents(setNumber, lines, running, ceiling)
  {
    assert (batches + [lines])[..|batches|] == batches;
  }

  /**
   * The export loop's state after fetching the given pages: the cursor, the
   * running total, the accumulated text, the events sent and the requests
   * made are those of these pages.
   */
  predicate AfterPages(channelID: string, authToken: string, ceiling: int, pages: seq<seq<RawMsg>>,
                       beforeID: string, totalMessages: int, allContent: string, events: seq<Event>, requests: seq<Request>)
  {
    && NonEmptyPages(pages)
    && beforeID == Cursor(pages)
    && totalMessages == Total(PageLines(pages))
    && allContent == StoredText(PageLines(pages))
    && events == Passes(PageLines(pages), ceiling)
    && requests == Requests(channelID, authToken, pages)
  }

  /** The loop state after n passes that each found a page. */
  predicate AfterPasses(channelID: string, authToken: string, upstream: nat -> Response, ceiling: int, n: nat,
                        beforeID: string, totalMessages: int, allContent: string, events: seq<Event>, requests: seq<Request>)
  {
    && DeliveredUpTo(upstream, n)
    && AfterPages(channelID, authToken, ceiling, Pages(upstream, n), beforeID, totalMessages, allContent, events, requests)
  }

  /**
   * The response to the fetch numbered k, counting from 0. A named
   * accessor so that the loop's invariants and the step lemmas they call
   * mention one and the same term for the current page.
   */
  function At(upstream: nat -> Response, k: nat): Response
  {
    upstream(k)
  }

  /** One more delivered page extends the pages by exactly that page. */
  lemma PagesStep(upstream: nat -> Response, n: nat, next: nat)
    requires DeliveredUpTo(upstream, n) && Delivers(At(upstream, n)) && next == n + 1
    ensures DeliveredUpTo(upstream, next)
    ensures Pages(upstream, next) == Pages(upstream, n) + [At(upstream, n).body.items]
  {
  }

  /**
   * One pass of the export loop that finds page n: given what fetchBatch
   * returned for it, the new cursor, total, text, events and requests are
   * the state after n + 1 passes. Every argument is passed as the loop
   * computes it.
   */
  lemma PassUpdate(channelID: string, authToken: string, upstream: nat -> Response, ceiling: int, n: nat, next: nat,
                   beforeID: string, totalMessages: int, allContent: string, events: seq<Event>, requests: seq<Request>,
                   request: Request, newBeforeID: string, running: int, newContent: seq<string>, allContent': string, pass: seq<Event>)
    requires AfterPasses(channelID, authToken, upstream, ceiling, n, beforeID, totalMessages, allContent, events, requests)
    requires Delivers(At(upstream, n)) && next == n + 1
    requires request == Request(BatchUrl(ApiBase, channelID, beforeID), authToken)
    requires newContent == Lines(At(upstream, n).body.items) && newBeforeID == LastId(At(upstream, n).body.items)
    requires running == totalMessages + |newContent|
    requires allContent' == allContent + Joined(newContent)
    requires pass == PassEvents(next, newContent, running, ceiling)
    ensures AfterPasses(channelID, authToken, upstream, ceiling, next, newBeforeID, running, allContent', events + pass, requests + [request])
  {
    PagesStep(upstream, n, next);
    PageUpdate(channelID, authToken, ceiling, Pages(upstream, n), At(upstream, n).body.items, next,
               beforeID, totalMessages, allContent, events, requests, request, newBeforeID, running, newContent, allContent', pass);
  }

  /** PassUpdate over the pages themselves, apart from where they come from. */
  lemma PageUpdate(channelID: string, authToken: string, ceiling: int, pages: seq<seq<RawMsg>>, page: seq<RawMsg>, next: int,
                   beforeID: string, totalMessages: int, allContent: string, events: seq<Event>, requests: seq<Request>,
                   request: Request, newBeforeID: string, running: int, newContent: seq<string>, allContent': string, pass: seq<Event>)
    requires AfterPages(channelID, authToken, ceiling, pages, beforeID, totalMessages, allContent, events, requests)
    requires page != [] && next == |pages| + 1
    requires request == Request(BatchUrl(ApiBase, channelID, beforeID), authToken)
    requires newContent == Lines(page) && newBeforeID == LastId(page)
    requires running == totalMessages + |newContent|
    requires allContent' == allContent + Joined(newContent)
    requires pass == PassEvents(next, newContent, running, ceiling)
    ensures AfterPages(channelID, authToken, ceiling, pages + [page], newBeforeID, running, allContent', events + pass, requests + [request])
  {
    PassStep(channelID, authToken, pages, page, ceiling, next, running);
  }

  /** The events of a pass, as handleExport sends them one after another. */
  lemma PassEventsAsSent(setNumber: int, messagesCount: int, running: int, lines: seq<string>, ceiling: int)
    requires messagesCount == |lines|
    ensures setNumber + 1 <= ceiling ==>
      PassEvents(setNumber, lines, running, ceiling) ==
        [Log(FetchingBatch(setNumber, ceiling)), Log(SavedLines(setNumber, messagesCount))]
        + [Progress(setNumber, messagesCount, running, lines)] + [Log(WaitingBeforeNextBatch)]
    ensures setNumber + 1 > ceiling ==>
      PassEvents(setNumber, lines, running, ceiling) ==
        [Log(FetchingBatch(setNumber, ceiling)), Log(SavedLines(setNumber, messagesCount))]
        + [Progress(setNumber, messagesCount, running, lines)]
  {
  }

  /** A valid export's events: the opening logs, the passes with the stop, and the closing summary. */
  lemma ExportEventsParts(config: StartExportMessage, upstream: nat -> Response, now: nat)
    requires Valid(config)
    ensures var ceiling, k := MaxBatches(config.maxMessages), Processed(config, upstream);
            ExportEvents(config, upstream, now) ==
              Opening(config.channelID) + (Passes(ProcessedLines(config, upstream), ceiling) + StopEvents(upstream, k, ceiling))
              + ClosingEvents(Total(ProcessedLines(config, upstream)), k, ExportText(config, upstream), DownloadId(config.channelID, now))
  {
    var ceiling, k := MaxBatches(config.maxMessages), Processed(config, upstream);
    AppendAssoc(Opening(config.channelID), Passes(ProcessedLines(config, upstream), ceiling), StopEvents(upstream, k, ceiling));
  }

  /**
   * One pass that found a page: add its line count to the running total,
   * write its lines to the text, send its events (the wait only when
   * another batch is allowed) and record its request. The pass count
   * becomes the set number.
   */
  method Advance(channelID: string, authToken: string, upstream: nat -> Response, maxBatches: int, passes: nat, setNumber: int,
                 beforeID: string, totalMessages: int, allContent: string, sent: seq<Event>, requests: seq<Request>,
                 request: Request, newBeforeID: string, messagesCount: int, newContent: seq<string>)
    returns (next: nat, running: int, content: string, sent': seq<Event>, requests': seq<Request>)
    requires setNumber == passes + 1
    requires AfterPasses(channelID, authToken, upstream, maxBatches, passes, beforeID, totalMessages, allContent, sent, requests)
    requires Delivers(At(upstream, passes))
    requires request == Request(BatchUrl(ApiBase, channelID, beforeID), authToken)
    requires newContent == Lines(At(upstream, passes).body.items) && newBeforeID == LastId(At(upstream, passes).body.items)
    requires messagesCount == |newContent|
    ensures next == setNumber
    ensures AfterPasses(channelID, authToken, upstream, maxBatches, next, newBeforeID, running, content, sent', requests')
  {
    next := setNumber;
    running := totalMessages + messagesCount;
    content := allContent;
    if |newContent| > 0 {
      content := WriteLines(allContent, newContent);
    } else {
      assert Joined(newContent) == "";
    }
    PassEventsAsSent(setNumber, messagesCount, running, newContent, maxBatches);
    var pass := [Log(FetchingBatch(setNumber, maxBatches)), Log(SavedLines(setNumber, messagesCount))]
      + [Progress(setNumber, messagesCount, running, newContent)];
    if setNumber + 1 <= maxBatches {
      pass := pass + [Log(WaitingBeforeNextBatch)];
    }
    PassUpdate(channelID, authToken, upstream, maxBatches, passes, next, beforeID, totalMessages, allContent, sent, requests,
      request, newBeforeID, running, newContent, content, pass);
    requests' := requests + [request];
    sent' := sent + pass;
  }

  /**
   * The batch loop of handleExport: fetch page after page, following the
   * cursor, until a fetch fails, a page is empty or the ceiling is reached.
   * It counts the passes that found a page alongside the pass number, and
   * returns that count, the running total,
   * the accumulated text, the events it sent and the requests it made,
   * which are exactly those of the export's processed pages and the pass
   * that stopped it, if any.
   */
  method RunBatches(config: StartExportMessage, upstream: nat -> Response, maxBatches: int)
    returns (batches: nat, totalMessages: int, allContent: string, sent: seq<Event>, requests: seq<Request>)
    requires Valid(config) && maxBatches == MaxBatches(config.maxMessages)
    ensures batches == Processed(config, upstream)
    ensures totalMessages == Total(ProcessedLines(config, upstream))
    ensures allContent == ExportText(config, upstream)
    ensures sent == Passes(ProcessedLines(config, upstream), maxBatches) + StopEvents(upstream, batches, maxBatches)
    ensures requests == ExportRequests(config, upstream)
  {
    var channelID, authToken := config.channelID, config.discordToken;
    var beforeID := "";
    var setNumber := 1;
    totalMessages, allContent, sent, requests := 0, "", [], [];
    var passes: nat := 0;
    while setNumber <= maxBatches
      invariant setNumber == passes + 1 && (passes == 0 || passes <= maxBatches)
      invariant AfterPasses(channelID, authToken, upstream, maxBatches, passes, beforeID, totalMessages, allContent, sent, requests)
      decreases maxBatches - setNumber
    {
      var response := At(upstream, passes);
      var request, hasMore, newBeforeID, messagesCount, newContent, err := FetchBatch(channelID, authToken, beforeID, response);
      if err.Some? || !hasMore {
        var stop := [Log(FetchingBatch(setNumber, maxBatches)),
                     if err.Some? then Error(BatchFailed(setNumber, err.value)) else Log(NoMoreMessages)];
        StoppedAt(config, upstream, passes, setNumber, beforeID, totalMessages, allContent, sent, requests, request, err, stop);
        batches, sent, requests := passes, sent + stop, requests + [request];
        return;
      }
      passes, totalMessages, allContent, sent, requests := Advance(channelID, authToken, upstream, maxBatches, passes, setNumber,
        beforeID, totalMessages, allContent, sent, requests, request, newBeforeID, messagesCount, newContent);
      beforeID := newBeforeID;
      setNumber := setNumber + 1;
    }
    ReachedCeiling(config, upstream, passes, setNumber, beforeID, totalMessages, allContent, sent, requests);
    batches := passes;
  }

  /** The pass after k delivered ones finds no page: the export has processed k pages, and this pass's events and request close the loop. */
  lemma StoppedAt(config: StartExportMessage, upstream: nat -> Response, k: nat, setNumber: int,
                  beforeID: string, totalMessages: int, allContent: string, events: seq<Event>, requests: seq<Request>,
                  request: Request, err: Option<FetchFailure>, stop: seq<Event>)
    requires Valid(config) && setNumber == k + 1 && setNumber <= MaxBatches(config.maxMessages)
    requires AfterPasses(config.channelID, config.discordToken, upstream, MaxBatches(config.maxMessages), k, beforeID, totalMessages, allContent, events, requests)
    requires !Delivers(At(upstream, k)) && err == Failure(At(upstream, k))
    requires request == Request(BatchUrl(ApiBase, config.channelID, beforeID), config.discordToken)
    requires stop == [Log(FetchingBatch(setNumber, MaxBatches(config.maxMessages))),
                      if err.Some? then Error(BatchFailed(setNumber, err.value)) else Log(NoMoreMessages)]
    ensures k == Processed(config, upstream)
    ensures totalMessages == Total(ProcessedLines(config, upstream))
    ensures allContent == ExportText(config, upstream)
    ensures events + stop == Passes(ProcessedLines(config, upstream), MaxBatches(config.maxMessages)) + StopEvents(upstream, k, MaxBatches(config.maxMessages))
    ensures requests + [request] == ExportRequests(config, upstream)
  {
    ScanStopsAt(upstream, 0, k, MaxBatches(config.maxMessages));
    ProcessedState(config, upstream, k, beforeID, totalMessages, allContent, events, requests);
  }

  /** The loop ran out of batches: every pass found a page, and nothing more is sent or requested. */
  lemma ReachedCeiling(config: StartExportMessage, upstream: nat -> Response, k: nat, setNumber: int,
                       beforeID: string, totalMessages: int, allContent: string, events: seq<Event>, requests: seq<Request>)
    requires Valid(config) && setNumber == k + 1 && setNumber > MaxBatches(config.maxMessages)
    requires k == 0 || k <= MaxBatches(config.maxMessages)
    requires AfterPasses(config.channelID, config.discordToken, upstream, MaxBatches(config.maxMessages), k, beforeID, totalMessages, allContent, events, requests)
    ensures k == Processed(config, upstream)
    ensures totalMessages == Total(ProcessedLines(config, upstream))
    ensures allContent == ExportText(config, upstream)
    ensures events == Passes(ProcessedLines(config, upstream), MaxBatches(config.maxMessages)) + StopEvents(upstream, k, MaxBatches(config.maxMessages))
    ensures requests == ExportRequests(config, upstream)
  {
    CeilingProcessed(config, upstream, k, setNumber);
    ProcessedState(config, upstream, k, beforeID, totalMessages, allContent, events, requests);
    CeilingRequests(config, upstream, k);
    StopEventsEnd(upstream, k, MaxBatches(config.maxMessages));
    AppendEmpty(events, StopEvents(upstream, k, MaxBatches(config.maxMessages)));
  }

  /** An export that ran to the ceiling makes exactly the requests of its pages. */
  lemma CeilingRequests(config: StartExportMessage, upstream: nat -> Response, k: nat)
    requires Valid(config) && k == Processed(config, upstream) && k >= MaxBatches(config.maxMessages)
    ensures ExportRequests(config, upstream) == Requests(config.channelID, config.discordToken, Pages(upstream, k))
  {
    var rs := Requests(config.channelID, config.discordToken, Pages(upstream, k));
    assert rs + [] == rs;
  }

  /** The loop state after all the processed passes: its total, text, events and requests are those of the processed pages. */
  lemma ProcessedState(config: StartExportMessage, upstream: nat -> Response, k: nat,
                       beforeID: string, totalMessages: int, allContent: string, events: seq<Event>, requests: seq<Request>)
    requires Valid(config) && k == Processed(config, upstream)
    requires AfterPasses(config.channelID, config.discordToken, upstream, MaxBatches(config.maxMessages), k, beforeID, totalMessages, allContent, events, requests)
    ensures totalMessages == Total(ProcessedLines(config, upstream)) && allContent == ExportText(config, upstream)
    ensures events == Passes(ProcessedLines(config, upstream), MaxBatches(config.maxMessages))
    ensures beforeID == Cursor(Pages(upstream, k)) && requests == Requests(config.channelID, config.discordToken, Pages(upstream, k))
  {
  }

  /** Passes that all found a page and ran the set number past the ceiling are all the export processes. */
  lemma CeilingProcessed(config: StartExportMessage, upstream: nat -> Response, k: nat, setNumber: int)
    requires setNumber == k + 1 && setNumber > MaxBatches(config.maxMessages)
    requires k == 0 || k <= MaxBatches(config.maxMessages)
    requires DeliveredUpTo(upstream, k)
    ensures k == Processed(config, upstream)
  {
    var ceiling := MaxBatches(config.maxMessages);
    if k > 0 {
      assert k == ceiling;
      ScanReachesCeiling(upstream, 0, ceiling);
    } else {
      assert Scan(upstream, 0, ceiling) == 0;
    }
  }

  class Server {
    /** The finished exports, by download id. */
    var scrapedData: map<string, ScrapedContent>

    constructor()
      ensures scrapedData == map[]
    {
      scrapedData := map[];
    }

    /**
     * handleExport. The events sent and the requests made are those of the
     * specification functions; an invalid request stores nothing, and a
     * valid one stores the export's text under its download id, whatever
     * was stored there before, and leaves every other entry as it was.
     * `now` is the clock reading that names the download, `storedAt` the
     * later one kept with it.
     */
    method HandleExport(config: StartExportMessage, upstream: nat -> Response, now: nat, storedAt: nat)
      returns (events: seq<Event>, requests: seq<Request>)
      modifies this
      ensures events == ExportEvents(config, upstream, now)
      ensures requests == ExportRequests(config, upstream)
      ensures !Valid(config) ==> scrapedData == old(scrapedData)
      ensures Valid(config) ==>
        scrapedData == old(scrapedData)[DownloadId(config.channelID, now) := ScrapedContent(ExportText(config, upstream), storedAt, config.channelID)]
    {
      var channelID, authToken, maxMessages := config.channelID, config.discordToken, config.maxMessages;
      if maxMessages == 0 {
        maxMessages := 500;
      }
      if channelID == "" || authToken == "" {
        events, requests := [Error(MissingCredentials)], [];
        return;
      }
      var downloadID := channelID + "-" + NatToString(now);
      events := [Log(StartingScrape), Log(ChannelIs(channelID))];
      var maxBatches := GoDiv(Wrap64(maxMessages as int + 49) as int, 50);
      var batches, totalMessages, allContent, sent;
      batches, totalMessages, allContent, sent, requests := RunBatches(config, upstream, maxBatches);
      events := events + sent;
      ExportEventsParts(config, upstream, now);
      events := events + [
        Log(ExportCompleted),
        Log(TotalExported(totalMessages)),
        Log(BatchesProcessed(batches)),
        Log(ContentReady(|allContent|))];
      scrapedData := scrapedData[downloadID := ScrapedContent(allContent, storedAt, channelID)];
      events := events + [Complete(true, totalMessages, batches, downloadID)];
    }
  }

  /**
   * After an export, the download URL of its id serves exactly the text
   * the export streamed, and every other download is unchanged.
   */
  lemma DownloadAfterExport(before: map<string, ScrapedContent>, config: StartExportMessage, upstream: nat -> Response, now: nat, storedAt: nat, otherId: string)
    requires Valid(config)
    ensures var id := DownloadId(config.channelID, now);
            var after := before[id := ScrapedContent(ExportText(config, upstream), storedAt, config.channelID)];
            && HandleDownload(after, DownloadPrefix + id) == Served(StreamedText(ExportEvents(config, upstream, now)), config.channelID)
            && (otherId != id ==> HandleDownload(after, DownloadPrefix + otherId) == HandleDownload(before, DownloadPrefix + otherId))
  {
    var id := DownloadId(config.channelID, now);
    var after := before[id := ScrapedContent(ExportText(config, upstream), storedAt, config.channelID)];
    ExportStream(config, upstream, now);
    DownloadById(after, id);
    DownloadById(after, otherId);
    DownloadById(before, otherId);
  }

  /** Exports of different channels, or in different seconds, are stored under different ids and never overwrite each other. */
  lemma DistinctExportsDistinctIds(c1: StartExportMessage, now1: nat, c2: StartExportMessage, now2: nat)
    requires c1.channelID != c2.channelID || now1 != now2
    ensures DownloadId(c1.channelID, now1) != DownloadId(c2.channelID, now2)
  {
    if DownloadId(c1.channelID, now1) == DownloadId(c2.channelID, now2) {
      DownloadIdInjective(c1.channelID, now1, c2.channelID, now2);
    }
  }
}
