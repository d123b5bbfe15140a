/**
 * Where the two backends agree and where they part: the batch ceiling,
 * and which messages survive normalisation and in what form.
 */
module Compare {
  import opened Wrappers
  import opened Text
  import opened Discord
  import GoFetch
  import GoExport
  import WebRoute

  /**
   * For a positive maxMessages both backends fetch at most the same number
   * of pages, as long as the Go backend's ceiling computation does not
   * overflow.
   */
  lemma SameCeiling(maxMessages: int)
    requires 0 < maxMessages <= GoExport.LargestUnwrapped as int
    ensures GoExport.MaxBatches(maxMessages as GoExport.Int64) == WebRoute.MaxBatches(maxMessages)
  {
    var g, w := GoExport.MaxBatches(maxMessages as GoExport.Int64), WebRoute.MaxBatches(maxMessages);
    assert 50 * (g - 1) < maxMessages <= 50 * g;
    assert 50 * (w - 1) < maxMessages <= 50 * w;
  }

  /** Past that point the Go ceiling wraps to a negative number while the route's stays positive. */
  lemma OverflowCeilingDiffers(maxMessages: int)
    requires GoExport.LargestUnwrapped as int < maxMessages < 0x8000_0000_0000_0000
    ensures GoExport.MaxBatches(maxMessages as GoExport.Int64) < 0 < WebRoute.MaxBatches(maxMessages)
  {
    var w := WebRoute.MaxBatches(maxMessages);
    assert maxMessages <= 50 * w;
  }

  /** A maxMessages of 0 means the default 500 (ten pages) to the Go backend and no pages at all to the route. */
  lemma ZeroCeilingDiffers()
    ensures GoExport.MaxBatches(0) == 10 && WebRoute.MaxBatches(0) == 0
  {
  }

  /** No NEL (U+0085) and no byte order mark (U+FEFF): the characters on which Go's and ECMAScript's whitespace disagree. */
  predicate SameSpaces(s: string)
  {
    forall k :: 0 <= k < |s| ==> s[k] != '\U{0085}' && s[k] != '\U{FEFF}'
  }

  lemma {:induction false} SkipSpaceAgrees(s: string, i: nat)
    requires SameSpaces(s) && i <= |s|
    ensures SkipSpace(s, GoSpace, i) == SkipSpace(s, JsSpace, i)
    decreases |s| - i
  {
    if i < |s| {
      assert IsSpace(GoSpace, s[i]) == IsSpace(JsSpace, s[i]);
      SkipSpaceAgrees(s, i + 1);
    }
  }

  lemma {:induction false} SkipSpaceBackAgrees(s: string, lo: nat, j: nat)
    requires SameSpaces(s) && lo <= j <= |s|
    ensures SkipSpaceBack(s, GoSpace, lo, j) == SkipSpaceBack(s, JsSpace, lo, j)
    decreases j
  {
    if lo < j {
      assert IsSpace(GoSpace, s[j - 1]) == IsSpace(JsSpace, s[j - 1]);
      SkipSpaceBackAgrees(s, lo, j - 1);
    }
  }

  /** Without NEL or a byte order mark, Go's TrimSpace and ECMAScript's trim give the same string. */
  lemma TrimAgrees(s: string)
    requires SameSpaces(s)
    ensures Trim(s, GoSpace) == Trim(s, JsSpace)
  {
    SkipSpaceAgrees(s, 0);
    SkipSpaceBackAgrees(s, SkipSpace(s, GoSpace, 0), |s|);
  }

  /** The contents of the route's exported messages, trimmed as the Go backend trims. */
  function TrimmedContents(es: seq<WebRoute.ExportedMessage>): (r: seq<string>)
    ensures |r| == |es|
    ensures forall i :: 0 <= i < |es| ==> r[i] == GoFetch.TrimSpace(es[i].content)
  {
    if es == [] then [] else TrimmedContents(es[..|es| - 1]) + [GoFetch.TrimSpace(es[|es| - 1].content)]
  }

  /**
   * On pages whose contents hold no NEL and no byte order mark, both
   * backends keep the same messages in the same order; the Go backend's
   * line is the route's content trimmed.
   */
  lemma {:induction false} SameMessagesKept(ms: seq<RawMsg>)
    requires forall i :: 0 <= i < |ms| ==> SameSpaces(ms[i].content)
    ensures GoFetch.Lines(ms) == TrimmedContents(WebRoute.Normalize(ms))
  {
    if ms != [] {
      var init, m := ms[..|ms| - 1], ms[|ms| - 1];
      SameMessagesKept(init);
      TrimAgrees(m.content);
      var kept := WebRoute.Normalize(init);
      if WebRoute.Keep(m) {
        assert WebRoute.Normalize(ms) == kept + [WebRoute.Exported(m)];
        assert (kept + [WebRoute.Exported(m)])[..|kept|] == kept;
      } else {
        assert WebRoute.Normalize(ms) == kept;
      }
    }
  }

  /** A content that is a lone NEL is blank to Go and kept by the route. */
  lemma NelDiffers(id: string, author: Author, timestamp: string)
    ensures var m := RawMsg(id, "\U{0085}", author, timestamp);
            GoFetch.Lines([m]) == [] && |WebRoute.Normalize([m])| == 1
  {
    var m := RawMsg(id, "\U{0085}", author, timestamp);
    assert [m][..0] == [];
    assert Trim(m.content, GoSpace) == [] by {
      TrimEmptyIffBlank(m.content, GoSpace);
    }
    assert WebRoute.Keep(m) by {
      WebRoute.KeepIffNotBlank(m);
    }
  }

  /** A content that is a lone byte order mark is a line to Go and dropped by the route. */
  lemma BomDiffers(id: string, author: Author, timestamp: string)
    ensures var m := RawMsg(id, "\U{FEFF}", author, timestamp);
            GoFetch.Lines([m]) == ["\U{FEFF}"] && WebRoute.Normalize([m]) == []
  {
    var m := RawMsg(id, "\U{FEFF}", author, timestamp);
    assert [m][..0] == [];
    assert !WebRoute.Keep(m) by {
      WebRoute.KeepIffNotBlank(m);
    }
    assert SkipSpace(m.content, GoSpace, 0) == 0;
    assert SkipSpaceBack(m.content, GoSpace, 0, 1) == 1;
    assert Trim(m.content, GoSpace) == "\U{FEFF}";
  }
}
