/**
 * What handleExport in apps/backend/main.go does, stated as functions of its
 * inputs: the request, the responses its successive fetches receive, and
 * the clock reading that names the download.
 *
 * With a valid request the export fetches page after page until the batch
 * ceiling is reached, a page comes back empty or a fetch fails. Then it
 * always closes with a summary and a `complete` event. The functions below
 * give the event stream, the requests sent and the stored download text.
 * The lemmas give the properties of the stream an observer relies on.
 */
module GoExport {
  import opened Wrappers
  import opened Text
  import opened Discord
  import opened GoFetch

  /** The WebSocket message that starts an export. */
  datatype StartExportMessage = StartExportMessage(action: string, channelID: string, discordToken: string, maxMessages: Int64)

  /** Go's `int` on a 64-bit platform, the type maxMessages is decoded into. */
  newtype Int64 = x: int | -0x8000_0000_0000_0000 <= x < 0x8000_0000_0000_0000

  /** The `log` events, one constructor per message the exporter writes. */
  datatype LogLine =
    | StartingScrape
    | ChannelIs(channelID: string)
    | FetchingBatch(setNumber: int, maxBatches: int)
    | NoMoreMessages
    | SavedLines(setNumber: int, count: int)
    | WaitingBeforeNextBatch
    | ExportCompleted
    | TotalExported(total: int)
    | BatchesProcessed(batches: int)
    | ContentReady(length: nat)

  /** The payload of an `error` event. */
  datatype ErrorReport = MissingCredentials | BatchFailed(setNumber: int, failure: FetchFailure)

  /** The events sent to the WebSocket client, in the order they are sent. */
  datatype Event =
    | Log(line: LogLine)
    | Error(report: ErrorReport)
    | Progress(setNumber: int, messagesFound: int, totalMessages: int, newContent: seq<string>)
    | Complete(success: bool, totalMessages: int, batchesTotal: int, downloadId: string)

  // ------------------------------------------------------------------ the ceiling

  /** Go's integer division, which truncates toward zero. */
  function GoDiv(a: int, b: int): int
    requires b > 0
  {
    if a >= 0 then a / b else -((-a) / b)
  }

  /**
   * Go's 64-bit addition: the exact sum reduced into the Int64 range
   * modulo 2^64, so that a sum past the largest Int64 wraps around to a
   * negative number.
   */
  function Wrap64(x: int): (r: Int64)
    ensures -0x8000_0000_0000_0000 <= x < 0x8000_0000_0000_0000 ==> r as int == x
    ensures 0x8000_0000_0000_0000 <= x < 0x1_8000_0000_0000_0000 ==> r as int == x - 0x1_0000_0000_0000_0000
  {
    ((x + 0x8000_0000_0000_0000) % 0x1_0000_0000_0000_0000 - 0x8000_0000_0000_0000) as Int64
  }

  /** The largest maxMessages for which maxMessages + 49 does not overflow. */
  const LargestUnwrapped: Int64 := 0x7FFF_FFFF_FFFF_FFCE

  /**
   * The batch ceiling: maxMessages defaults to 500 when it is 0, and the
   * ceiling is (maxMessages + 49) / 50 in Go's 64-bit arithmetic. For a
   * positive count that is the number of 50-message pages needed to hold
   * it, as long as the sum does not overflow; a count so large that it does,
   * or a negative count, allows no fetch at all.
   */
  function MaxBatches(maxMessages: Int64): (c: int)
    ensures maxMessages == 0 ==> c == 10
    ensures 0 < maxMessages <= LargestUnwrapped ==> 50 * (c - 1) < maxMessages as int <= 50 * c
    ensures maxMessages > LargestUnwrapped ==> c < 0
    ensures maxMessages < 0 ==> c <= 0
  {
    var m := if maxMessages == 0 then 500 else maxMessages as int;
    GoDiv(Wrap64(m + 49) as int, 50)
  }

  // ------------------------------------------------------------------ how far the loop gets

  /** The first n fetches all delivered a non-empty page. */
  predicate DeliveredUpTo(upstream: nat -> Response, n: nat)
  {
    forall j :: 0 <= j < n ==> Delivers(upstream(j))
  }

  /**
   * The number of the pass at which the loop stops, counting from i: the
   * first fetch at or after i that does not deliver a page, or the ceiling.
   */
  function Scan(upstream: nat -> Response, i: nat, ceiling: int): (k: nat)
    ensures i <= k
    ensures k == i || k <= ceiling
    ensures forall j :: i <= j < k ==> Delivers(upstream(j))
    ensures k < ceiling ==> !Delivers(upstream(k))
    decreases ceiling - i
  {
    if i < ceiling && Delivers(upstream(i)) then Scan(upstream, i + 1, ceiling) else i
  }

  /** Every page of a sequence of delivered pages holds at least one raw message. */
  predicate NonEmptyPages(pages: seq<seq<RawMsg>>)
  {
    forall j :: 0 <= j < |pages| ==> pages[j] != []
  }

  /** The pages the first n fetches delivered, in fetch order. */
  function Pages(upstream: nat -> Response, n: nat): (pages: seq<seq<RawMsg>>)
    requires DeliveredUpTo(upstream, n)
    ensures |pages| == n && NonEmptyPages(pages)
    ensures forall j :: 0 <= j < n ==> pages[j] == upstream(j).body.items
  {
    if n == 0 then [] else Pages(upstream, n - 1) + [upstream(n - 1).body.items]
  }

  /** The lines of each page, page by page. */
  function PageLines(pages: seq<seq<RawMsg>>): (batches: seq<seq<string>>)
    ensures |batches| == |pages|
    ensures forall j :: 0 <= j < |pages| ==> batches[j] == Lines(pages[j])
  {
    seq(|pages|, j requires 0 <= j < |pages| => Lines(pages[j]))
  }

  /** The running total after the given batches of lines: the sum of their line counts. */
  function Total(batches: seq<seq<string>>): int
  {
    if batches == [] then 0 else Total(batches[..|batches| - 1]) + |batches[|batches| - 1]|
  }

  /** Lines written to the download text: each line followed by a newline. */
  function Joined(lines: seq<string>): string
  {
    if lines == [] then "" else Joined(lines[..|lines| - 1]) + lines[|lines| - 1] + "\n"
  }

  /** The download text after the given batches of lines. */
  function StoredText(batches: seq<seq<string>>): string
  {
    if batches == [] then "" else StoredText(batches[..|batches| - 1]) + Joined(batches[|batches| - 1])
  }

  /** The cursor after the given pages: none at first, then the id of the last raw message of the last page. */
  function Cursor(pages: seq<seq<RawMsg>>): string
    requires NonEmptyPages(pages)
  {
    if pages == [] then "" else LastId(pages[|pages| - 1])
  }

  /** The request for one page: the page URL for the cursor, with the token as Authorization header. */
  function PageRequest(channelID: string, authToken: string, cursor: string): Request
  {
    Request(BatchUrl(ApiBase, channelID, cursor), authToken)
  }

  /** The requests that fetched the given pages: each carries the cursor of the pages before it. */
  function Requests(channelID: string, authToken: string, pages: seq<seq<RawMsg>>): (rs: seq<Request>)
    requires NonEmptyPages(pages)
    ensures |rs| == |pages|
  {
    if pages == [] then []
    else
      var before := pages[..|pages| - 1];
      Requests(channelID, authToken, before) + [PageRequest(channelID, authToken, Cursor(before))]
  }

  /**
   * The events of one pass that finds a non-empty page: the fetch and save
   * logs, the `progress` event with the running total, and the pause when
   * another pass is still allowed.
   */
  function PassEvents(setNumber: int, lines: seq<string>, running: int, ceiling: int): seq<Event>
  {
    [Log(FetchingBatch(setNumber, ceiling)), Log(SavedLines(setNumber, |lines|))]
    + [Progress(setNumber, |lines|, running, lines)]
    + (if setNumber < ceiling then [Log(WaitingBeforeNextBatch)] else [])
  }

  /** The events of the passes that delivered the given batches of lines. */
  function Passes(batches: seq<seq<string>>, ceiling: int): seq<Event>
  {
    if batches == [] then []
    else Passes(batches[..|batches| - 1], ceiling) + PassEvents(|batches|, batches[|batches| - 1], Total(batches), ceiling)
  }

  /** The events of the pass that stops the loop before the ceiling: a failed fetch, or an empty page. */
  function StopEvents(upstream: nat -> Response, k: nat, ceiling: int): seq<Event>
  {
    if k < ceiling then
      [ Log(FetchingBatch(k + 1, ceiling)),
        match Failure(upstream(k))
        case Some(f) => Error(BatchFailed(k + 1, f))
        case None => Log(NoMoreMessages) ]
    else []
  }

  /** A stretch of `log` and `error` events only. */
  predicate Quiet(events: seq<Event>)
  {
    forall i :: 0 <= i < |events| ==> events[i].Log? || events[i].Error?
  }

  /** The summary after the loop, ending with the `complete` event. */
  function ClosingEvents(total: int, batches: int, text: string, downloadId: string): seq<Event>
  {
    [ Log(ExportCompleted),
      Log(TotalExported(total)),
      Log(BatchesProcessed(batches)),
      Log(ContentReady(|text|)),
      Complete(true, total, batches, downloadId) ]
  }

  // ------------------------------------------------------------------ the whole export

  /** A request names a channel and carries a token. */
  predicate Valid(config: StartExportMessage)
  {
    config.channelID != "" && config.discordToken != ""
  }

  /** The download id: the channel id, a dash and the Unix time in seconds. */
  function DownloadId(channelID: string, now: nat): string
  {
    channelID + "-" + NatToString(now)
  }

  /** The download id ends in a dash followed by exactly the digits of the time, and begins with the channel id. */
  lemma DownloadIdParts(channelID: string, now: nat)
    ensures var s, n := DownloadId(channelID, now), NatToString(now);
            && |s| == |channelID| + 1 + |n|
            && s[..|channelID|] == channelID
            && s[|s| - |n| - 1] == '-'
            && s[|s| - |n|..] == n
  {
  }

  /**
   * Download ids do not collide across channels or seconds: the id
   * determines both the channel id and the time, even when channel ids
   * themselves contain dashes.
   */
  lemma DownloadIdInjective(c1: string, t1: nat, c2: string, t2: nat)
    requires DownloadId(c1, t1) == DownloadId(c2, t2)
    ensures c1 == c2 && t1 == t2
  {
    DownloadIdParts(c1, t1);
    DownloadIdParts(c2, t2);
    NatToStringInjective(t1, t2);
  }

  /** The number of pages the export processes. */
  function Processed(config: StartExportMessage, upstream: nat -> Response): nat
  {
    Scan(upstream, 0, MaxBatches(config.maxMessages))
  }

  /** The lines of the pages the export processes, page by page. */
  function ProcessedLines(config: StartExportMessage, upstream: nat -> Response): seq<seq<string>>
  {
    PageLines(Pages(upstream, Processed(config, upstream)))
  }

  /** The two logs every valid export opens with. */
  function Opening(channelID: string): seq<Event>
  {
    [Log(StartingScrape), Log(ChannelIs(channelID))]
  }

  /**
   * The events of an export that processed the given batches: the opening
   * logs, one pass per batch, the events of the pass that stopped the loop
   * (if any), and the closing summary.
   */
  function Stream(channelID: string, batches: seq<seq<string>>, stop: seq<Event>, ceiling: int, downloadId: string): seq<Event>
  {
    Opening(channelID)
    + Passes(batches, ceiling)
    + stop
    + ClosingEvents(Total(batches), |batches|, StoredText(batches), downloadId)
  }

  /** The requests of an export that fetched the given pages, plus the one that found nothing, if it was made. */
  function Fetches(channelID: string, authToken: string, pages: seq<seq<RawMsg>>, stopped: bool): seq<Request>
    requires NonEmptyPages(pages)
  {
    Requests(channelID, authToken, pages) + (if stopped then [PageRequest(channelID, authToken, Cursor(pages))] else [])
  }

  /** The events handleExport sends. */
  function ExportEvents(config: StartExportMessage, upstream: nat -> Response, now: nat): seq<Event>
  {
    if !Valid(config) then [Error(MissingCredentials)]
    else
      var ceiling := MaxBatches(config.maxMessages);
      var k := Processed(config, upstream);
      Stream(config.channelID, PageLines(Pages(upstream, k)), StopEvents(upstream, k, ceiling), ceiling, DownloadId(config.channelID, now))
  }

  /** The page requests handleExport sends upstream. */
  function ExportRequests(config: StartExportMessage, upstream: nat -> Response): seq<Request>
  {
    if !Valid(config) then []
    else
      var ceiling := MaxBatches(config.maxMessages);
      var k := Processed(config, upstream);
      Fetches(config.channelID, config.discordToken, Pages(upstream, k), k < ceiling)
  }

  /** The text handleExport stores for download. */
  function ExportText(config: StartExportMessage, upstream: nat -> Response): string
  {
    StoredText(ProcessedLines(config, upstream))
  }

  // ------------------------------------------------------------------ properties of the export

  /** An invalid request gets exactly one `error` event, and nothing is fetched. */
  lemma InvalidRequestOnlyErrors(config: StartExportMessage, upstream: nat -> Response, now: nat)
    requires config.channelID == "" || config.discordToken == ""
    ensures ExportEvents(config, upstream, now) == [Error(MissingCredentials)]
    ensures ExportRequests(config, upstream) == []
  {
  }

  /** The loop never fetches more pages than the ceiling allows, and processes at most that many. */
  lemma FetchesWithinCeiling(config: StartExportMessage, upstream: nat -> Response)
    requires Valid(config)
    ensures var c := MaxBatches(config.maxMessages);
            Processed(config, upstream) <= (if c < 0 then 0 else c) &&
            |ExportRequests(config, upstream)| <= (if c < 0 then 0 else c)
  {
  }

  /** The loop stops at the first page that is not delivered. */
  lemma {:induction false} ScanStopsAt(upstream: nat -> Response, i: nat, k: nat, ceiling: int)
    requires i <= k < ceiling
    requires forall j :: i <= j < k ==> Delivers(upstream(j))
    requires !Delivers(upstream(k))
    ensures Scan(upstream, i, ceiling) == k
    decreases k - i
  {
    if i < k {
      ScanStopsAt(upstream, i + 1, k, ceiling);
    }
  }

  /** The loop reaches the ceiling when every page up to it is delivered. */
  lemma {:induction false} ScanReachesCeiling(upstream: nat -> Response, i: nat, ceiling: nat)
    requires i <= ceiling
    requires forall j :: i <= j < ceiling ==> Delivers(upstream(j))
    ensures Scan(upstream, i, ceiling) == ceiling
    decreases ceiling - i
  {
    if i < ceiling {
      ScanReachesCeiling(upstream, i + 1, ceiling);
    }
  }

  /**
   * When every fetch delivers a page, the export makes exactly as many
   * fetches as the ceiling allows: ten for the default of 500 messages,
   * one for any maxMessages from 1 to 50, none when the ceiling is not
   * positive.
   */
  lemma AllPagesDelivered(config: StartExportMessage, upstream: nat -> Response)
    requires Valid(config)
    requires forall j: nat :: Delivers(upstream(j))
    ensures var c := MaxBatches(config.maxMessages);
            Processed(config, upstream) == (if c < 0 then 0 else c) &&
            |ExportRequests(config, upstream)| == (if c < 0 then 0 else c)
    ensures config.maxMessages == 0 ==> |ExportRequests(config, upstream)| == 10
    ensures 1 <= config.maxMessages <= 50 ==> |ExportRequests(config, upstream)| == 1
  {
    var c := MaxBatches(config.maxMessages);
    if c >= 0 {
      ScanReachesCeiling(upstream, 0, c);
    }
  }

  /**
   * A maxMessages within 49 of the largest Int64 overflows the ceiling
   * computation: the export fetches nothing and reports zero batches.
   */
  lemma OverflowFetchesNothing(config: StartExportMessage, upstream: nat -> Response, now: nat)
    requires Valid(config) && config.maxMessages > LargestUnwrapped
    ensures ExportRequests(config, upstream) == []
    ensures ExportEvents(config, upstream, now) == Opening(config.channelID) + ClosingEvents(0, 0, "", DownloadId(config.channelID, now))
  {
    var k := Processed(config, upstream);
    assert k == 0;
    assert StopEvents(upstream, k, MaxBatches(config.maxMessages)) == [];
    assert PageLines(Pages(upstream, k)) == [];
  }

  /** The i-th request that fetched a page carries the cursor of the pages before it. */
  lemma {:induction false} RequestsAt(channelID: string, authToken: string, pages: seq<seq<RawMsg>>, i: nat)
    requires NonEmptyPages(pages) && i < |pages|
    ensures Requests(channelID, authToken, pages)[i] == PageRequest(channelID, authToken, Cursor(pages[..i]))
  {
    var before := pages[..|pages| - 1];
    if i < |pages| - 1 {
      RequestsAt(channelID, authToken, before, i);
      assert before[..i] == pages[..i];
    } else {
      assert before == pages[..i];
    }
  }

  /** The request list's cursors: none at first, then the last raw message id of the page before. */
  lemma FetchesCursor(channelID: string, authToken: string, pages: seq<seq<RawMsg>>, stopped: bool, i: nat)
    requires NonEmptyPages(pages) && i < |Fetches(channelID, authToken, pages, stopped)|
    ensures i == 0 ==> Fetches(channelID, authToken, pages, stopped)[i] == PageRequest(channelID, authToken, "")
    ensures i > 0 ==> Fetches(channelID, authToken, pages, stopped)[i] == PageRequest(channelID, authToken, LastId(pages[i - 1]))
  {
    if i < |pages| {
      RequestsAt(channelID, authToken, pages, i);
      assert i > 0 ==> pages[..i][i - 1] == pages[i - 1];
    }
  }

  /**
   * Cursor rule: the first request has no `before` parameter, and each later
   * request asks for the messages before the last raw message of the
   * previous page, even when that page contributed no lines.
   */
  lemma ExportCursor(config: StartExportMessage, upstream: nat -> Response, i: nat)
    requires Valid(config) && i < |ExportRequests(config, upstream)|
    ensures i == 0 ==> ExportRequests(config, upstream)[i] == PageRequest(config.channelID, config.discordToken, "")
    ensures i > 0 ==>
      Delivers(upstream(i - 1)) &&
      ExportRequests(config, upstream)[i] == PageRequest(config.channelID, config.discordToken, LastId(upstream(i - 1).body.items))
  {
    var k := Processed(config, upstream);
    FetchesCursor(config.channelID, config.discordToken, Pages(upstream, k), k < MaxBatches(config.maxMessages), i);
  }

  // --- the event stream, read as an observer reads it

  /**
   * Consistent(events, next, total): reading the events in order, each
   * `progress` event carries the next set number, a count equal to its
   * number of lines and the running total including it; each `complete`
   * event reports the total and the number of sets seen so far.
   */
  predicate Consistent(events: seq<Event>, nextSet: int, total: int)
    decreases |events|
  {
    events == [] ||
    match events[0]
    case Progress(setNumber, found, running, lines) =>
      setNumber == nextSet && found == |lines| && running == total + found && Consistent(events[1..], nextSet + 1, running)
    case Complete(_, t, b, _) =>
      t == total && b == nextSet - 1 && Consistent(events[1..], nextSet, total)
    case _ => Consistent(events[1..], nextSet, total)
  }

  /** The number of `progress` events. */
  function ProgressCount(events: seq<Event>): nat
  {
    if events == [] then 0 else (if events[0].Progress? then 1 else 0) + ProgressCount(events[1..])
  }

  /** The sum of the counts carried by the `progress` events. */
  function FoundSum(events: seq<Event>): int
  {
    if events == [] then 0 else (if events[0].Progress? then events[0].messagesFound else 0) + FoundSum(events[1..])
  }

  /** The text an observer assembles from the `progress` events: every line followed by a newline. */
  function StreamedText(events: seq<Event>): string
  {
    if events == [] then "" else (if events[0].Progress? then Joined(events[0].newContent) else "") + StreamedText(events[1..])
  }

  /** The number of `complete` events. */
  function CompleteCount(events: seq<Event>): nat
  {
    if events == [] then 0 else (if events[0].Complete? then 1 else 0) + CompleteCount(events[1..])
  }

  lemma {:induction false} ConsistentAppend(a: seq<Event>, b: seq<Event>, nextSet: int, total: int)
    requires Consistent(a, nextSet, total)
    requires Consistent(b, nextSet + ProgressCount(a), total + FoundSum(a))
    ensures Consistent(a + b, nextSet, total)
    decreases |a|
  {
    if a != [] {
      assert (a + b)[0] == a[0] && (a + b)[1..] == a[1..] + b;
      match a[0]
      case Progress(_, found, _, _) => ConsistentAppend(a[1..], b, nextSet + 1, total + found);
      case _ => ConsistentAppend(a[1..], b, nextSet, total);
    } else {
      assert a + b == b;
    }
  }

  lemma {:induction false} ProgressCountAppend(a: seq<Event>, b: seq<Event>)
    ensures ProgressCount(a + b) == ProgressCount(a) + ProgressCount(b)
    decreases |a|
  {
    if a == [] {
      assert a + b == b;
    } else {
      assert (a + b)[1..] == a[1..] + b;
      ProgressCountAppend(a[1..], b);
    }
  }

  lemma {:induction false} FoundSumAppend(a: seq<Event>, b: seq<Event>)
    ensures FoundSum(a + b) == FoundSum(a) + FoundSum(b)
    decreases |a|
  {
    if a == [] {
      assert a + b == b;
    } else {
      assert (a + b)[1..] == a[1..] + b;
      FoundSumAppend(a[1..], b);
    }
  }

  lemma {:induction false} StreamedTextAppend(a: seq<Event>, b: seq<Event>)
    ensures StreamedText(a + b) == StreamedText(a) + StreamedText(b)
    decreases |a|
  {
    if a == [] {
      assert a + b == b;
    } else {
      assert (a + b)[1..] == a[1..] + b;
      StreamedTextAppend(a[1..], b);
    }
  }

  lemma {:induction false} CompleteCountAppend(a: seq<Event>, b: seq<Event>)
    ensures CompleteCount(a + b) == CompleteCount(a) + CompleteCount(b)
    decreases |a|
  {
    if a == [] {
      assert a + b == b;
    } else {
      assert (a + b)[1..] == a[1..] + b;
      CompleteCountAppend(a[1..], b);
    }
  }

  /** Reading two stretches of events one after the other: every tally adds up. */
  lemma AppendFacts(a: seq<Event>, b: seq<Event>, nextSet: int, total: int)
    requires Consistent(a, nextSet, total)
    requires Consistent(b, nextSet + ProgressCount(a), total + FoundSum(a))
    ensures Consistent(a + b, nextSet, total)
    ensures ProgressCount(a + b) == ProgressCount(a) + ProgressCount(b)
    ensures FoundSum(a + b) == FoundSum(a) + FoundSum(b)
    ensures StreamedText(a + b) == StreamedText(a) + StreamedText(b)
    ensures CompleteCount(a + b) == CompleteCount(a) + CompleteCount(b)
  {
    ConsistentAppend(a, b, nextSet, total);
    ProgressCountAppend(a, b);
    FoundSumAppend(a, b);
    StreamedTextAppend(a, b);
    CompleteCountAppend(a, b);
  }

  /** A stretch of `log` and `error` events adds nothing to any tally and reads as consistent from any point. */
  lemma {:induction false} QuietFacts(e: seq<Event>, nextSet: int, total: int)
    requires forall i :: 0 <= i < |e| ==> e[i].Log? || e[i].Error?
    ensures Consistent(e, nextSet, total)
    ensures ProgressCount(e) == 0 && FoundSum(e) == 0 && StreamedText(e) == "" && CompleteCount(e) == 0
    decreases |e|
  {
    if e != [] {
      QuietFacts(e[1..], nextSet, total);
    }
  }

  /** One `progress` event carrying the next set number, its line count and the new running total. */
  lemma ProgressFacts(lines: seq<string>, nextSet: int, total: int)
    ensures var e := [Progress(nextSet, |lines|, total + |lines|, lines)];
            && Consistent(e, nextSet, total)
            && ProgressCount(e) == 1 && FoundSum(e) == |lines| && StreamedText(e) == Joined(lines) && CompleteCount(e) == 0
  {
    var e := [Progress(nextSet, |lines|, total + |lines|, lines)];
    assert e[1..] == [];
  }

  /** One pass: its events are consistent and add one set, its lines' count and its lines' text. */
  lemma PassFacts(setNumber: int, lines: seq<string>, total: int, ceiling: int)
    ensures var e := PassEvents(setNumber, lines, total + |lines|, ceiling);
            && Consistent(e, setNumber, total)
            && ProgressCount(e) == 1 && FoundSum(e) == |lines| && StreamedText(e) == Joined(lines) && CompleteCount(e) == 0
  {
    var q1 := [Log(FetchingBatch(setNumber, ceiling)), Log(SavedLines(setNumber, |lines|))];
    var p := [Progress(setNumber, |lines|, total + |lines|, lines)];
    var q2: seq<Event> := if setNumber < ceiling then [Log(WaitingBeforeNextBatch)] else [];
    QuietFacts(q1, setNumber, total);
    ProgressFacts(lines, setNumber, total);
    QuietFacts(q2, setNumber + 1, total + |lines|);
    AppendFacts(q1, p, setNumber, total);
    AppendFacts(q1 + p, q2, setNumber, total);
  }

  /** The passes over the given batches: consistent, one set per batch, the running total and the stored text. */
  lemma {:induction false} PassesFacts(batches: seq<seq<string>>, ceiling: int)
    ensures Consistent(Passes(batches, ceiling), 1, 0)
    ensures ProgressCount(Passes(batches, ceiling)) == |batches|
    ensures FoundSum(Passes(batches, ceiling)) == Total(batches)
    ensures StreamedText(Passes(batches, ceiling)) == StoredText(batches)
    ensures CompleteCount(Passes(batches, ceiling)) == 0
  {
    if batches != [] {
      var before, last := batches[..|batches| - 1], batches[|batches| - 1];
      PassesFacts(before, ceiling);
      PassFacts(|batches|, last, Total(before), ceiling);
      AppendFacts(Passes(before, ceiling), PassEvents(|batches|, last, Total(batches), ceiling), 1, 0);
    }
  }

  /** The end of any export stream: the stopping pass and the closing summary add one `complete` event and nothing else. */
  lemma ClosingFacts(stop: seq<Event>, total: int, batches: int, text: string, downloadId: string)
    requires Quiet(stop)
    ensures var e := stop + ClosingEvents(total, batches, text, downloadId);
            && Consistent(e, batches + 1, total)
            && ProgressCount(e) == 0 && FoundSum(e) == 0 && StreamedText(e) == "" && CompleteCount(e) == 1
  {
    var summary := [Log(ExportCompleted), Log(TotalExported(total)), Log(BatchesProcessed(batches)), Log(ContentReady(|text|))];
    var done := [Complete(true, total, batches, downloadId)];
    assert ClosingEvents(total, batches, text, downloadId) == summary + done;
    QuietFacts(stop, batches + 1, total);
    QuietFacts(summary, batches + 1, total);
    assert Consistent(done, batches + 1, total) && ProgressCount(done) == 0 && FoundSum(done) == 0 && StreamedText(done) == "" && CompleteCount(done) == 1 by {
      assert done[1..] == [];
    }
    AppendFacts(summary, done, batches + 1, total);
    AppendFacts(stop, summary + done, batches + 1, total);
  }

  /**
   * Any export stream: consistent from set 1 and total 0, exactly one
   * `complete` event, last, reporting success with the total and the
   * number of batches; the `progress` events carry one set per batch and
   * deliver exactly the stored text.
   */
  lemma StreamFacts(channelID: string, batches: seq<seq<string>>, stop: seq<Event>, ceiling: int, downloadId: string)
    requires Quiet(stop)
    ensures var e := Stream(channelID, batches, stop, ceiling, downloadId);
            && Consistent(e, 1, 0)
            && CompleteCount(e) == 1
            && e[|e| - 1] == Complete(true, Total(batches), |batches|, downloadId)
            && ProgressCount(e) == |batches|
            && FoundSum(e) == Total(batches)
            && StreamedText(e) == StoredText(batches)
  {
    var pre := Opening(channelID);
    var mid := Passes(batches, ceiling);
    var tail := stop + ClosingEvents(Total(batches), |batches|, StoredText(batches), downloadId);
    assert Stream(channelID, batches, stop, ceiling, downloadId) == pre + (mid + tail);
    QuietFacts(pre, 1, 0);
    PassesFacts(batches, ceiling);
    ClosingFacts(stop, Total(batches), |batches|, StoredText(batches), downloadId);
    AppendFacts(mid, tail, 1, 0);
    AppendFacts(pre, mid + tail, 1, 0);
  }

  /**
   * The stream of a valid export: every `progress` event carries its set
   * number (1, 2, ...), its line count and the running total; there is
   * exactly one `complete` event, it is the last one, and it reports
   * success with the final total and the number of sets. The text the
   * `progress` events deliver, line by line and in order, is exactly the
   * text stored for download.
   */
  lemma ExportStream(config: StartExportMessage, upstream: nat -> Response, now: nat)
    requires Valid(config)
    ensures var e := ExportEvents(config, upstream, now);
            var k := Processed(config, upstream);
            var batches := ProcessedLines(config, upstream);
            && Consistent(e, 1, 0)
            && CompleteCount(e) == 1
            && e[|e| - 1] == Complete(true, Total(batches), k, DownloadId(config.channelID, now))
            && ProgressCount(e) == k
            && FoundSum(e) == Total(batches)
            && StreamedText(e) == ExportText(config, upstream)
  {
    var ceiling := MaxBatches(config.maxMessages);
    var k := Processed(config, upstream);
    StreamFacts(config.channelID, PageLines(Pages(upstream, k)), StopEvents(upstream, k, ceiling), ceiling, DownloadId(config.channelID, now));
  }

  /**
   * A failed fetch is reported as an `error` event for its set, and the
   * export still stores what it has and still ends with `complete`
   * reporting success.
   */
  lemma FailureStillCompletes(config: StartExportMessage, upstream: nat -> Response, now: nat, i: nat)
    requires Valid(config) && i < MaxBatches(config.maxMessages)
    requires DeliveredUpTo(upstream, i) && Failure(upstream(i)).Some?
    ensures Processed(config, upstream) == i
    ensures var e := ExportEvents(config, upstream, now);
            && e[|e| - 6] == Error(BatchFailed(i + 1, Failure(upstream(i)).value))
            && e[|e| - 1] == Complete(true, Total(PageLines(Pages(upstream, i))), i, DownloadId(config.channelID, now))
  {
    var ceiling := MaxBatches(config.maxMessages);
    ScanStopsAt(upstream, 0, i, ceiling);
    var stop := StopEvents(upstream, i, ceiling);
    StreamEnds(config.channelID, PageLines(Pages(upstream, i)), stop, ceiling, DownloadId(config.channelID, now));
  }

  /**
   * The last six events of a valid export: the closing summary, ending with
   * `complete`, after the last event of the opening, the passes and the stop.
   */
  lemma StreamEnds(channelID: string, batches: seq<seq<string>>, stop: seq<Event>, ceiling: int, downloadId: string)
    ensures var e, front := Stream(channelID, batches, stop, ceiling, downloadId), Opening(channelID) + Passes(batches, ceiling) + stop;
            && |e| == |front| + 5 && |front| >= 2
            && e[|e| - 5..] == ClosingEvents(Total(batches), |batches|, StoredText(batches), downloadId)
            && e[|e| - 6] == front[|front| - 1]
            && e[|e| - 1] == Complete(true, Total(batches), |batches|, downloadId)
  {
    var front := Opening(channelID) + Passes(batches, ceiling) + stop;
    var e := Stream(channelID, batches, stop, ceiling, downloadId);
    assert e == front + ClosingEvents(Total(batches), |batches|, StoredText(batches), downloadId);
  }

  /**
   * No trailing wait: the event before the closing summary is never the
   * `waiting` log, and every `waiting` log is followed at once by the log
   * of a further fetch.
   */
  lemma NoTrailingWait(config: StartExportMessage, upstream: nat -> Response, now: nat)
    requires Valid(config)
    ensures var e := ExportEvents(config, upstream, now);
            && |e| >= 7 && e[|e| - 6] != Log(WaitingBeforeNextBatch)
            && forall i :: 0 <= i < |e| && e[i] == Log(WaitingBeforeNextBatch) ==>
                 i + 1 < |e| && e[i + 1].Log? && e[i + 1].line.FetchingBatch?
  {
    var ceiling := MaxBatches(config.maxMessages);
    var k := Processed(config, upstream);
    var batches := PageLines(Pages(upstream, k));
    var stop := StopEvents(upstream, k, ceiling);
    var downloadId := DownloadId(config.channelID, now);
    StreamEnds(config.channelID, batches, stop, ceiling, downloadId);
    StopEventsEnd(upstream, k, ceiling);
    LastBeforeClosing(config.channelID, batches, stop, ceiling, k);
    StreamWaits(config.channelID, batches, upstream, k, ceiling, downloadId);
  }

  /**
   * The stop events are there exactly when the loop stopped before the
   * ceiling: the log of the fetch that did not deliver, then the error
   * when the fetch failed or the no-more-messages log when the page was
   * empty.
   */
  lemma StopEventsEnd(upstream: nat -> Response, k: nat, ceiling: int)
    ensures StopEvents(upstream, k, ceiling) == [] <==> k >= ceiling
    ensures var stop := StopEvents(upstream, k, ceiling);
            stop != [] ==>
              && |stop| == 2 && stop[0] == Log(FetchingBatch(k + 1, ceiling))
              && (stop[1].Error? || stop[1] == Log(NoMoreMessages))
              && (stop[1].Error? <==> Failure(upstream(k)).Some?)
  {
  }

  /** The event before the closing summary: the stop's last event, the last pass's progress, or the channel log. */
  lemma LastBeforeClosing(channelID: string, batches: seq<seq<string>>, stop: seq<Event>, ceiling: int, k: nat)
    requires |batches| == k && (stop == [] ==> k == 0 || k >= ceiling)
    ensures var front := Opening(channelID) + Passes(batches, ceiling) + stop;
            && |front| >= 2
            && (stop != [] ==> front[|front| - 1] == stop[|stop| - 1])
            && (stop == [] && k > 0 ==> front[|front| - 1] == Progress(k, |batches[k - 1]|, Total(batches), batches[k - 1]))
            && (stop == [] && k == 0 ==> front[|front| - 1] == Log(ChannelIs(channelID)))
  {
    var mid := Passes(batches, ceiling);
    var front := Opening(channelID) + mid + stop;
    if stop == [] {
      assert front == Opening(channelID) + mid;
      if k > 0 {
        var last := PassEvents(k, batches[k - 1], Total(batches), ceiling);
        assert mid == Passes(batches[..k - 1], ceiling) + last;
        assert front[|front| - 1] == last[|last| - 1];
      }
    }
  }

  // ------------------------------------------------------------------ every pause leads to a fetch

  /** Every `waiting` log, except a last one, is followed at once by the log of a further fetch. */
  predicate WaitsFollowed(events: seq<Event>)
  {
    forall i :: 0 <= i < |events| - 1 && events[i] == Log(WaitingBeforeNextBatch) ==>
      events[i + 1].Log? && events[i + 1].line.FetchingBatch?
  }

  /** Two streams joined keep every wait followed by a fetch, provided the second starts with a fetch when the first ends with a wait. */
  lemma WaitsFollowedAppend(a: seq<Event>, b: seq<Event>)
    requires WaitsFollowed(a) && WaitsFollowed(b)
    requires a != [] && b != [] && a[|a| - 1] == Log(WaitingBeforeNextBatch) ==> b[0].Log? && b[0].line.FetchingBatch?
    ensures WaitsFollowed(a + b)
  {
    forall i | 0 <= i < |a + b| - 1 && (a + b)[i] == Log(WaitingBeforeNextBatch)
      ensures (a + b)[i + 1].Log? && (a + b)[i + 1].line.FetchingBatch?
    {
      if i < |a| - 1 {
        assert (a + b)[i] == a[i] && (a + b)[i + 1] == a[i + 1];
      } else if i == |a| - 1 {
        assert (a + b)[i + 1] == b[0];
      } else {
        assert (a + b)[i] == b[i - |a|] && (a + b)[i + 1] == b[i + 1 - |a|];
      }
    }
  }

  /**
   * Within the passes every wait is followed by the next pass's fetch, and
   * the passes end with a wait exactly when the last pass was below the
   * ceiling.
   */
  lemma {:induction false} PassesWaits(batches: seq<seq<string>>, ceiling: int)
    ensures WaitsFollowed(Passes(batches, ceiling))
    ensures var p := Passes(batches, ceiling);
            && (p == [] <==> batches == [])
            && (p != [] ==> (p[|p| - 1] == Log(WaitingBeforeNextBatch) <==> |batches| < ceiling))
  {
    if batches != [] {
      var n := |batches|;
      var before := Passes(batches[..n - 1], ceiling);
      var last := PassEvents(n, batches[n - 1], Total(batches), ceiling);
      PassesWaits(batches[..n - 1], ceiling);
      assert Passes(batches, ceiling) == before + last;
      WaitsFollowedAppend(before, last);
    }
  }

  /** In the stream of an export every wait but a last one is followed by a fetch. */
  lemma StreamWaits(channelID: string, batches: seq<seq<string>>, upstream: nat -> Response, k: nat, ceiling: int, downloadId: string)
    requires |batches| == k
    ensures WaitsFollowed(Stream(channelID, batches, StopEvents(upstream, k, ceiling), ceiling, downloadId))
  {
    var opening, passes, stop := Opening(channelID), Passes(batches, ceiling), StopEvents(upstream, k, ceiling);
    var closing := ClosingEvents(Total(batches), |batches|, StoredText(batches), downloadId);
    PassesWaits(batches, ceiling);
    StopEventsEnd(upstream, k, ceiling);
    WaitsFollowedAppend(opening, passes);
    WaitsFollowedAppend(opening + passes, stop);
    LastBeforeClosing(channelID, batches, stop, ceiling, k);
    WaitsFollowedAppend(opening + passes + stop, closing);
  }
}
