/**
 Backward history pages on the server and the browser loop that stitches them. A session's rows are listed by ascending
 sequence number; each request may see a later snapshot of them.
 */
module HistorySync {
  import opened Wrappers

  datatype Message = Message(id: string, seqNo: int)

  datatype Page = Page(messages: seq<Message>, hasMore: bool, nextBeforeSeq: int)

  const DEFAULT_LIMIT := 50
  const MAX_LIMIT := 100
  const MAX_PAGES := 10000

  /** Distinct positive numbers in ascending order. */
  predicate Table(t: seq<Message>)
  {
    (forall i | 0 <= i < |t| :: t[i].seqNo > 0) && (forall i, j | 0 <= i < j < |t| :: t[i].seqNo < t[j].seqNo)
  }

  function PageLimit(limit: int): (n: nat)
    ensures 1 <= n <= MAX_LIMIT
  {
    if limit <= 0 then DEFAULT_LIMIT else if limit > MAX_LIMIT then MAX_LIMIT else limit
  }

  /** How many rows lie below the cursor; a cursor of zero or less means all. */
  function Below(t: seq<Message>, before: int): (k: nat)
    requires Table(t)
    ensures k <= |t|
    ensures before <= 0 ==> k == |t|
    ensures before > 0 ==> forall i | 0 <= i < |t| :: t[i].seqNo < before <==> i < k
  {
    if before <= 0 || |t| == 0 || t[|t| - 1].seqNo < before then |t| else Below(t[..|t| - 1], before)
  }

  function Reversed(s: seq<Message>): (r: seq<Message>)
    ensures |r| == |s| && forall i | 0 <= i < |s| :: r[i] == s[|s| - 1 - i]
  {
    if |s| == 0 then [] else Reversed(s[1..]) + [s[0]]
  }

  /** The query: rows below the cursor, newest first, at most `n`. */
  function NewestBelow(t: seq<Message>, before: int, n: nat): seq<Message>
    requires Table(t)
  {
    var k := Below(t, before);
    Reversed(t[if k > n then k - n else 0..k])
  }

  /** One page ends just below the cursor, ascends, and is short only at the beginning of the session. */
  predicate IsPage(t: seq<Message>, before: int, limit: nat, page: Page)
    requires Table(t)
  {
    var k := Below(t, before);
    var lo: nat := if k > limit then k - limit else 0;
    && page.messages == t[lo..k]
    && (page.hasMore <==> lo > 0)
    && page.nextBeforeSeq == if page.hasMore && lo < k then t[lo].seqNo else 0
  }

  /** GetHistory: query one row too many, drop it again, and turn the rest round in place. */
  method GetHistory(t: seq<Message>, beforeSeq: int, reqLimit: int) returns (page: Page)
    requires Table(t)
    ensures IsPage(t, beforeSeq, if reqLimit <= 0 then 50 else if reqLimit > 100 then 100 else reqLimit, page)
  {
    var limit := reqLimit;
    if limit <= 0 {
      limit := DEFAULT_LIMIT;
    }
    if limit > MAX_LIMIT {
      limit := MAX_LIMIT;
    }
    hide NewestBelow, IsPage, Reversed, Table;
    var rows := NewestBelow(t, beforeSeq, limit + 1);
    MakesPage(t, beforeSeq, limit);
    var hasMore := |rows| > limit;
    if hasMore {
      rows := rows[..limit];
    }
    var res := ReversePage(rows);
    page := Page(res, hasMore, 0);
    if |res| > 0 && hasMore {
      page := page.(nextBeforeSeq := res[0].seqNo);
    }
  }

  /** Dropping the extra, oldest row and turning the rest round gives the page. */
  lemma TurnedRound(t: seq<Message>, k: nat, limit: nat)
    requires k <= |t|
    ensures var rows := Reversed(t[if k > limit + 1 then k - (limit + 1) else 0..k]);
            && (|rows| > limit <==> k > limit)
            && Reversed(if |rows| > limit then rows[..limit] else rows) == t[if k > limit then k - limit else 0..k]
  {
  }

  lemma MakesPage(t: seq<Message>, before: int, limit: nat)
    requires Table(t)
    ensures var rows := NewestBelow(t, before, limit + 1);
            var res := Reversed(if |rows| > limit then rows[..limit] else rows);
            IsPage(t, before, limit, Page(res, |rows| > limit, if |res| > 0 && |rows| > limit then res[0].seqNo else 0))
  {
    hide Below, Reversed, Table;
    TurnedRound(t, Below(t, before), limit);
  }

  method ReversePage(rows: seq<Message>) returns (page: seq<Message>)
    ensures page == Reversed(rows)
  {
    var res := new Message[|rows|](i requires 0 <= i < |rows| => rows[i]);
    assert res[..] == rows;
    ReverseInPlace(res);
    return res[..];
  }

  method ReverseInPlace(res: array<Message>)
    modifies res
    ensures res[..] == Reversed(old(res[..]))
  {
    var i, j := 0, res.Length - 1;
    while i < j
      invariant 0 <= i && j == res.Length - 1 - i && i <= j + 1
      invariant forall k | 0 <= k < i || j < k < res.Length :: res[k] == old(res[res.Length - 1 - k])
      invariant forall k | i <= k <= j :: res[k] == old(res[k])
    {
      res[i], res[j] := res[j], res[i];
      i, j := i + 1, j - 1;
    }
  }

  // ---------- the client ----------

  datatype Synced = Synced(messages: seq<Message>, newestSeq: int, added: nat, pages: nat)

  datatype SyncError = CursorStuck

  function MaxSeq(newest: int, page: seq<Message>): (m: int)
    ensures m >= newest && forall i | 0 <= i < |page| :: page[i].seqNo <= m
    ensures m == newest || exists i :: 0 <= i < |page| && page[i].seqNo == m
  {
    if |page| == 0 then newest
    else
      var rest := MaxSeq(newest, page[..|page| - 1]);
      if page[|page| - 1].seqNo > rest then page[|page| - 1].seqNo else rest
  }

  function MinSeq(page: seq<Message>): (m: int)
    requires |page| > 0
    ensures forall i | 0 <= i < |page| :: m <= page[i].seqNo
    ensures exists i :: 0 <= i < |page| && page[i].seqNo == m
  {
    if |page| == 1 then page[0].seqNo
    else
      var rest := MinSeq(page[..|page| - 1]);
      if page[|page| - 1].seqNo < rest then page[|page| - 1].seqNo else rest
  }

  function Above(messages: seq<Message>, baseline: int): nat
  {
    if |messages| == 0 then 0
    else Above(messages[..|messages| - 1], baseline) + if messages[|messages| - 1].seqNo > baseline then 1 else 0
  }

  /** Later snapshots keep every earlier row. */
  ghost predicate Growing(tables: nat -> seq<Message>)
  {
    && (forall k: nat :: Table(tables(k)))
    && (forall k: nat, m :: m in tables(0) ==> m in tables(k))
  }

  /** Later snapshots only add rows newer than all of the first. */
  ghost predicate Appending(tables: nat -> seq<Message>)
  {
    forall k: nat :: tables(0) <= tables(k)
  }

  ghost predicate Distinct(messages: seq<Message>)
  {
    forall i, j | 0 <= i < j < |messages| :: messages[i].seqNo != messages[j].seqNo
  }

  /**
   What has been fetched when the next page will end below `before`: everything the first snapshot has from there on.
   */
  ghost predicate Fetched(t0: seq<Message>, messages: seq<Message>, before: int)
  {
    && Distinct(messages)
    && (before > 0 ==> forall i | 0 <= i < |messages| :: messages[i].seqNo >= before)
    && (before > 0 ==> forall m | m in t0 && m.seqNo >= before :: m in messages)
    && (before <= 0 ==> messages == [])
  }

  lemma MinOfAscending(page: seq<Message>)
    requires |page| > 0 && forall i, j | 0 <= i < j < |page| :: page[i].seqNo < page[j].seqNo
    ensures MinSeq(page) == page[0].seqNo
  {
  }

  lemma PageShape(t: seq<Message>, before: int, limit: nat, page: Page)
    requires Table(t) && IsPage(t, before, limit, page) && |page.messages| > 0 && limit > 0
    ensures MinSeq(page.messages) == page.messages[0].seqNo > 0
    ensures forall i | 0 <= i < |page.messages| :: page.messages[i].seqNo >= page.messages[0].seqNo
    ensures Distinct(page.messages)
    ensures before > 0 ==> forall i | 0 <= i < |page.messages| :: page.messages[i].seqNo < before
    ensures page.hasMore ==> page.nextBeforeSeq == page.messages[0].seqNo && |page.messages| == limit
    ensures |page.messages| <= limit
  {
    hide MinSeq;
    var k := Below(t, before);
    var lo: nat := if k > limit then k - limit else 0;
    forall i | 0 <= i < |page.messages| ensures page.messages[i] == t[lo + i] { }
    MinOfAscending(page.messages);
  }

  lemma PageCovers(t: seq<Message>, before: int, limit: nat, page: Page, m: Message)
    requires Table(t) && IsPage(t, before, limit, page) && limit > 0 && m in t && (before <= 0 || m.seqNo < before)
    requires |page.messages| == 0 || m.seqNo >= page.messages[0].seqNo || !page.hasMore
    ensures m in page.messages
  {
    var k := Below(t, before);
    var lo: nat := if k > limit then k - limit else 0;
    var i :| 0 <= i < |t| && t[i] == m;
    assert lo <= i < k;
    assert page.messages[i - lo] == m;
  }

  lemma PageFetched(t0: seq<Message>, t: seq<Message>, messages: seq<Message>, before: int, limit: nat, page: Page)
    requires Table(t0) && Table(t) && (forall m | m in t0 :: m in t)
    requires IsPage(t, before, limit, page) && |page.messages| > 0 && limit > 0
    requires Fetched(t0, messages, before)
    ensures Fetched(t0, messages + page.messages, page.messages[0].seqNo)
    ensures !page.hasMore ==> forall m | m in t0 :: m in messages + page.messages
  {
    hide Table, IsPage;
    PageShape(t, before, limit, page);
    var oldest, all := page.messages[0].seqNo, messages + page.messages;
    forall m | m in t0 && (m.seqNo >= oldest || !page.hasMore) ensures m in all {
      if before <= 0 || m.seqNo < before {
        PageCovers(t, before, limit, page, m);
      }
    }
  }

  /**
   Nothing the first snapshot has above the baseline is missing or repeated, so the new high-water mark may commit.
   */
  ghost predicate Complete(t0: seq<Message>, baseline: int, s: Synced)
  {
    && Distinct(s.messages)
    && (baseline != 0 ==> forall m | m in t0 && m.seqNo > baseline :: m in s.messages)
    && s.newestSeq == MaxSeq(baseline, s.messages)
    && s.added == Above(s.messages, baseline)
    && (|t0| > 0 ==> |s.messages| > 0)
  }

  /** More rows above the baseline than the page budget covers, and still older rows behind them. */
  ghost predicate TooFar(t0: seq<Message>, baseline: int, limit: nat)
  {
    var budget: nat := 10_000 * limit;
    0 < budget < |t0| && t0[|t0| - budget].seqNo > baseline
  }

  /** With rows only appended, what has been fetched is exactly the tail of the first snapshot. */
  ghost predicate TailOf(t0: seq<Message>, messages: seq<Message>, before: int)
    requires Table(t0)
  {
    (forall m | m in messages :: m in t0) && |messages| == |t0| - Below(t0, before)
  }

  lemma BelowIs(t: seq<Message>, before: int, k: nat)
    requires Table(t) && k <= |t| && before > 0
    requires forall i | 0 <= i < |t| :: t[i].seqNo < before <==> i < k
    ensures Below(t, before) == k
  {
  }

  lemma SameBelow(t0: seq<Message>, t: seq<Message>, before: int)
    requires Table(t0) && Table(t) && t0 <= t && before > 0 && Below(t0, before) < |t0|
    ensures Below(t, before) == Below(t0, before)
  {
    var k := Below(t0, before);
    assert t[k] == t0[k];
  }

  /** A page of a later snapshot is a page of the first. */
  lemma SamePage(t0: seq<Message>, t: seq<Message>, before: int, limit: nat, page: Page)
    requires Table(t0) && Table(t) && t0 <= t && limit > 0
    requires before > 0 || t == t0
    requires before > 0 ==> Below(t0, before) < |t0|
    requires IsPage(t, before, limit, page)
    ensures IsPage(t0, before, limit, page)
  {
    hide Table, Below, IsPage;
    if before > 0 {
      SameBelow(t0, t, before);
      SameRows(t0, t, before, limit, page);
    }
  }

  lemma SameRows(t0: seq<Message>, t: seq<Message>, before: int, limit: nat, page: Page)
    requires Table(t0) && Table(t) && t0 <= t && Below(t, before) == Below(t0, before)
    requires IsPage(t, before, limit, page)
    ensures IsPage(t0, before, limit, page)
  {
    hide Table, Below;
    var k := Below(t0, before);
    var lo: nat := if k > limit then k - limit else 0;
    assert t[lo..k] == t0[lo..k];
    if lo < k { assert t[lo] == t0[lo]; }
  }

  lemma TailGrows(t0: seq<Message>, messages: seq<Message>, before: int, limit: nat, page: Page)
    requires Table(t0) && IsPage(t0, before, limit, page) && |page.messages| > 0 && limit > 0
    requires TailOf(t0, messages, before)
    ensures var all := messages + page.messages;
            && TailOf(t0, all, page.messages[0].seqNo)
            && (page.hasMore <==> |all| < |t0|)
            && 0 < |all| <= |t0| && t0[|t0| - |all|] == page.messages[0]
  {
    var k := Below(t0, before);
    var lo: nat := if k > limit then k - limit else 0;
    BelowIs(t0, page.messages[0].seqNo, lo);
  }

  /** The newest rows, at most `limit` of them. */
  function Newest(t: seq<Message>, limit: nat): seq<Message>
  {
    t[if |t| > limit then |t| - limit else 0..]
  }

  /** Every message is a row of some snapshot. */
  ghost predicate Known(tables: nat -> seq<Message>, messages: seq<Message>)
  {
    forall m | m in messages :: exists k: nat :: m in tables(k)
  }

  /** All pages but the last are full, and none is empty. */
  predicate Counted(messages: seq<Message>, pages: nat, limit: nat)
  {
    if pages == 0 then messages == [] else (pages - 1) * limit < |messages| <= pages * limit
  }

  lemma CountsPages(messages: seq<Message>, page: seq<Message>, pages: nat, limit: nat)
    requires |messages| == pages * limit && limit > 0 && |page| <= limit
    ensures |page| > 0 ==> Counted(messages + page, pages + 1, limit)
    ensures Counted(messages, pages, limit)
  {
    Distribute(pages, 1, limit);
    if pages > 0 { Distribute(pages - 1, 1, limit); }
  }

  /** The loop is about to ask for page number `pages`. */
  ghost predicate Going(tables: nat -> seq<Message>, limit: nat, baseline: int, pages: nat, messages: seq<Message>,
      before: int)
    requires Growing(tables)
  {
    && pages < MAX_PAGES && before >= 0 && (pages == 0 <==> before == 0)
    && |messages| == pages * limit
    && (pages > 0 ==> baseline != 0 && before > baseline)
    && Fetched(tables(0), messages, before)
    && (Appending(tables) ==> TailOf(tables(0), messages, before))
  }

  /** The loop may stop with these messages. */
  ghost predicate Closed(tables: nat -> seq<Message>, limit: nat, baseline: int, messages: seq<Message>)
  {
    var t0 := tables(0);
    && Distinct(messages)
    && (baseline != 0 ==> forall m | m in t0 && m.seqNo > baseline :: m in messages)
    && (|t0| > 0 ==> |messages| > 0)
    && (Appending(tables) ==> (forall m | m in messages :: m in t0) && (baseline == 0 || !TooFar(t0, baseline, limit)))
  }

  lemma PageStep(tables: nat -> seq<Message>, limit: nat, baseline: int, pages: nat, messages: seq<Message>,
      before: int, page: Page)
    requires Growing(tables) && Going(tables, limit, baseline, pages, messages, before) && limit > 0
    requires IsPage(tables(pages), before, limit, page) && |page.messages| > 0
    ensures var oldest, all := MinSeq(page.messages), messages + page.messages;
            && oldest > 0 && (before > 0 ==> oldest < before) && (page.hasMore ==> page.nextBeforeSeq == oldest)
            && (if baseline == 0 || oldest <= baseline || !page.hasMore then Closed(tables, limit, baseline, all)
                else if pages + 1 < MAX_PAGES then Going(tables, limit, baseline, pages + 1, all, oldest)
                else Appending(tables) ==> TooFar(tables(0), baseline, limit))
  {
    hide IsPage, Fetched, TailOf, Table, MinSeq, Appending, TooFar, Distinct;
    var t0, t := tables(0), tables(pages);
    var all, oldest := messages + page.messages, page.messages[0].seqNo;
    PageShape(t, before, limit, page);
    PageFetched(t0, t, messages, before, limit, page);
    FetchedHas(t0, all, oldest);
    Distribute(pages, 1, limit);
    if Appending(tables) {
      AppendedStep(tables, limit, baseline, pages, messages, before, page);
    }
  }

  lemma FetchedOnce(t0: seq<Message>, messages: seq<Message>, before: int)
    requires Fetched(t0, messages, before)
    ensures Distinct(messages)
  {
  }

  lemma TailIsThere(t0: seq<Message>, messages: seq<Message>, before: int)
    requires Table(t0) && TailOf(t0, messages, before)
    ensures forall m | m in messages :: m in t0
  {
  }

  lemma NothingIsNear(t0: seq<Message>, baseline: int, limit: nat)
    ensures |t0| == 0 ==> !TooFar(t0, baseline, limit)
  {
  }

  lemma FetchedHas(t0: seq<Message>, messages: seq<Message>, before: int)
    requires Fetched(t0, messages, before) && before > 0
    ensures Distinct(messages) && forall m | m in t0 && m.seqNo >= before :: m in messages
  {
  }

  lemma AppendedStep(tables: nat -> seq<Message>, limit: nat, baseline: int, pages: nat, messages: seq<Message>,
      before: int, page: Page)
    requires Growing(tables) && Appending(tables) && Going(tables, limit, baseline, pages, messages, before)
               && limit > 0
    requires IsPage(tables(pages), before, limit, page) && |page.messages| > 0
    ensures var t0, oldest, all := tables(0), page.messages[0].seqNo, messages + page.messages;
            && TailOf(t0, all, oldest) && (forall m | m in all :: m in t0)
            && (oldest <= baseline || !page.hasMore ==> !TooFar(t0, baseline, limit))
            && (oldest > baseline && page.hasMore && pages + 1 == MAX_PAGES ==> TooFar(t0, baseline, limit))
  {
    hide IsPage, Fetched, TailOf, Table, MinSeq, Appending, TooFar;
    var t0, all := tables(0), messages + page.messages;
    PageShape(tables(pages), before, limit, page);
    StillTail(tables, pages, messages, before, limit, page);
    WithinBudget(pages, limit);
    Budget(t0, all, pages * limit + limit, limit, baseline, pages + 1 == MAX_PAGES);
    TailIsThere(t0, all, page.messages[0].seqNo);
  }

  lemma WithinBudget(pages: nat, limit: nat)
    requires pages < MAX_PAGES
    ensures pages * limit + limit <= MAX_PAGES * limit
    ensures pages + 1 == MAX_PAGES ==> pages * limit + limit == MAX_PAGES * limit
  {
    Distribute(pages, 1, limit);
    Distribute(pages + 1, MAX_PAGES - 1 - pages, limit);
  }

  lemma Distribute(a: nat, b: nat, c: nat)
    ensures (a + b) * c == a * c + b * c
    ensures b * c >= 0
  {
  }

  /** The budget reaches exactly as far as the pages fetched, or further. */
  lemma Budget(t0: seq<Message>, all: seq<Message>, fetched: nat, limit: nat, baseline: int, last: bool)
    requires Table(t0) && 0 < |all| <= |t0| && |all| <= fetched
    requires fetched <= MAX_PAGES * limit && (last ==> fetched == MAX_PAGES * limit)
    ensures t0[|t0| - |all|].seqNo <= baseline || |all| == |t0| ==> !TooFar(t0, baseline, limit)
    ensures last && |all| == fetched && |all| < |t0| && t0[|t0| - |all|].seqNo > baseline ==>
              TooFar(t0, baseline, limit)
  {
  }

  lemma EmptyStep(tables: nat -> seq<Message>, limit: nat, baseline: int, pages: nat, messages: seq<Message>,
      before: int, page: Page)
    requires Growing(tables) && Going(tables, limit, baseline, pages, messages, before) && limit > 0
    requires IsPage(tables(pages), before, limit, page) && page.messages == []
    ensures Closed(tables, limit, baseline, messages)
  {
    hide IsPage, Fetched, TailOf, Table, MinSeq, Appending, TooFar;
    var t0 := tables(0);
    EmptyPage(t0, tables(pages), messages, before, limit, page);
    if |t0| > 0 { assert t0[0] in messages; }
    FetchedOnce(t0, messages, before);
    if Appending(tables) {
      TailIsThere(t0, messages, before);
      EmptyTail(tables, pages, messages, before, limit, page);
      NothingIsNear(t0, baseline, limit);
      if |messages| > 0 {
        WithinBudget(pages, limit);
        Budget(t0, messages, pages * limit + limit, limit, baseline, pages + 1 == MAX_PAGES);
      }
    }
  }

  ghost function SetAbove(messages: seq<Message>, baseline: int): set<Message>
  {
    set m | m in messages && m.seqNo > baseline
  }

  lemma AllAreCounted(messages: seq<Message>, t0: seq<Message>, baseline: int)
    requires Distinct(messages) && Table(t0)
    requires forall m | m in messages :: m in t0
    requires forall m | m in t0 && m.seqNo > baseline :: m in messages
    ensures Above(messages, baseline) == Above(t0, baseline)
  {
    AboveIsCard(messages, baseline);
    AboveIsCard(t0, baseline);
    assert SetAbove(messages, baseline) == SetAbove(t0, baseline);
  }

  lemma OneMore(front: seq<Message>, last: Message, baseline: int)
    ensures SetAbove(front + [last], baseline)
              == SetAbove(front, baseline) + if last.seqNo > baseline then {last} else {}
  {
  }

  lemma NoneYet(baseline: int)
    ensures SetAbove([], baseline) == {}
  {
  }

  lemma LastIsNew(front: seq<Message>, last: Message, baseline: int)
    requires Distinct(front + [last])
    ensures Distinct(front) && last !in SetAbove(front, baseline)
  {
    var all := front + [last];
    forall i | 0 <= i < |front| ensures front[i] != last { assert all[i].seqNo != all[|front|].seqNo; }
    forall i, j | 0 <= i < j < |front| ensures front[i].seqNo != front[j].seqNo { assert all[i].seqNo != all[j].seqNo; }
  }

  lemma {:induction false} AboveIsCard(messages: seq<Message>, baseline: int)
    requires Distinct(messages)
    ensures Above(messages, baseline) == |SetAbove(messages, baseline)|
  {
    hide SetAbove, Distinct;
    if |messages| == 0 {
      NoneYet(baseline);
    } else {
      var front, last := messages[..|messages| - 1], messages[|messages| - 1];
      assert messages == front + [last];
      LastIsNew(front, last, baseline);
      AboveIsCard(front, baseline);
      OneMore(front, last, baseline);
    }
  }

  /** collectMissingPages */
  method CollectMissingPages(tables: nat -> seq<Message>, reqLimit: int, baseline: int)
    returns (r: Result<Synced, SyncError>)
    requires Growing(tables)
    ensures r.Success? ==> Complete(tables(0), baseline, r.value)
    ensures r.Success? ==> Known(tables, r.value.messages)
    ensures r.Success? ==> Counted(r.value.messages, r.value.pages, PageLimit(reqLimit))
    ensures baseline == 0 ==> r.Success? && r.value.messages == Newest(tables(0), PageLimit(reqLimit))
    ensures Appending(tables) ==> (r.Failure? <==> baseline != 0 && TooFar(tables(0), baseline, PageLimit(reqLimit)))
    ensures Appending(tables) && r.Success? ==>
              (forall m | m in r.value.messages :: m in tables(0))
                && (baseline != 0 ==> r.value.added == Above(tables(0), baseline))
  {
    hide IsPage, MinSeq, MaxSeq, Above, Fetched, TailOf, Table, Appending, TooFar, Closed, Distinct, Known, Newest,
      Counted, Complete;
    var messages: seq<Message> := [];
    var beforeSeq := 0;
    var newestSeq := baseline;
    var pages: nat := 0;
    ghost var limit := PageLimit(reqLimit);
    Nothing(tables, baseline);
    while true
      invariant Going(tables, limit, baseline, pages, messages, beforeSeq) && newestSeq == MaxSeq(baseline, messages)
      invariant Known(tables, messages)
      decreases MAX_PAGES - pages
    {
      var payload := GetHistory(tables(pages), beforeSeq, reqLimit);
      var page := payload.messages;
      PageAdds(tables, limit, pages, messages, beforeSeq, payload);
      if |page| == 0 {
        EmptyStep(tables, limit, baseline, pages, messages, beforeSeq, payload);
        break;
      }
      PageStep(tables, limit, baseline, pages, messages, beforeSeq, payload);
      MaxConcat(baseline, messages, page);
      pages := pages + 1;
      messages := messages + page;
      newestSeq := MaxSeq(newestSeq, page);
      var oldestSeq := MinSeq(page);
      if baseline == 0 || oldestSeq <= baseline || !payload.hasMore {
        break;
      }
      var next := payload.nextBeforeSeq;
      if next <= 0 || (beforeSeq != 0 && next >= beforeSeq) || pages >= MAX_PAGES {
        return Failure(CursorStuck);
      }
      beforeSeq := next;
    }
    Finish(tables, limit, baseline, messages, pages);
    return Success(Synced(messages, newestSeq, Above(messages, baseline), pages));
  }

  /** What page number `pages` adds: rows of its snapshot, at most `limit`, at first the newest ones. */
  lemma PageAdds(tables: nat -> seq<Message>, limit: nat, pages: nat, messages: seq<Message>, before: int, page: Page)
    requires Table(tables(pages)) && IsPage(tables(pages), before, limit, page) && limit > 0
    requires Known(tables, messages) && |messages| == pages * limit && (pages == 0 ==> before == 0)
    ensures Known(tables, messages + page.messages)
    ensures Counted(messages, pages, limit)
    ensures |page.messages| > 0 ==> Counted(messages + page.messages, pages + 1, limit)
    ensures pages == 0 ==> messages + page.messages == Newest(tables(0), limit)
  {
    hide Counted;
    CountsPages(messages, page.messages, pages, limit);
    forall m | m in messages + page.messages ensures exists k: nat :: m in tables(k) {
      if m in page.messages { assert m in tables(pages); }
    }
  }

  lemma Finish(tables: nat -> seq<Message>, limit: nat, baseline: int, messages: seq<Message>, pages: nat)
    requires Growing(tables) && Closed(tables, limit, baseline, messages)
    ensures var synced := Synced(messages, MaxSeq(baseline, messages), Above(messages, baseline), pages);
            Complete(tables(0), baseline, synced)
    ensures Appending(tables) ==>
              && (forall m | m in messages :: m in tables(0))
              && (baseline != 0 ==>
                    && !TooFar(tables(0), baseline, limit)
                    && Above(messages, baseline) == Above(tables(0), baseline))
  {
    hide Above, TooFar, Appending;
    if Appending(tables) && baseline != 0 {
      AllAreCounted(messages, tables(0), baseline);
    }
  }

  lemma EmptyTail(tables: nat -> seq<Message>, pages: nat, messages: seq<Message>, before: int, limit: nat, page: Page)
    requires Growing(tables) && Appending(tables) && limit > 0
    requires pages == 0 <==> before == 0
    requires before >= 0 && |messages| == pages * limit
    requires IsPage(tables(pages), before, limit, page) && page.messages == []
    requires TailOf(tables(0), messages, before)
    ensures |messages| == |tables(0)|
  {
    if pages > 0 { Distribute(pages - 1, 1, limit); }
    SamePage(tables(0), tables(pages), before, limit, page);
  }

  lemma StillTail(tables: nat -> seq<Message>, pages: nat, messages: seq<Message>, before: int, limit: nat, page: Page)
    requires Growing(tables) && Appending(tables) && limit > 0
    requires pages == 0 <==> before == 0
    requires before >= 0 && |messages| == pages * limit
    requires IsPage(tables(pages), before, limit, page) && |page.messages| > 0
    requires TailOf(tables(0), messages, before)
    ensures var t0, all := tables(0), messages + page.messages;
            && TailOf(t0, all, page.messages[0].seqNo)
            && (page.hasMore <==> |all| < |t0|)
            && 0 < |all| <= |t0| && t0[|t0| - |all|] == page.messages[0]
  {
    hide Table, IsPage, Below;
    if pages > 0 { Distribute(pages - 1, 1, limit); }
    SamePage(tables(0), tables(pages), before, limit, page);
    TailGrows(tables(0), messages, before, limit, page);
  }

  lemma Nothing(tables: nat -> seq<Message>, baseline: int)
    requires Table(tables(0))
    ensures var t0 := tables(0);
            Known(tables, []) && Fetched(t0, [], 0) && TailOf(t0, [], 0) && MaxSeq(baseline, []) == baseline
  {
  }

  lemma EmptyPage(t0: seq<Message>, t: seq<Message>, messages: seq<Message>, before: int, limit: nat, page: Page)
    requires Table(t0) && Table(t) && (forall m | m in t0 :: m in t) && limit > 0
    requires IsPage(t, before, limit, page) && page.messages == []
    requires Fetched(t0, messages, before)
    ensures forall m | m in t0 :: m in messages
  {
    forall m | m in t0 ensures m in messages {
      var i :| 0 <= i < |t| && t[i] == m;
    }
  }

  lemma {:induction false} MaxConcat(newest: int, a: seq<Message>, b: seq<Message>)
    ensures MaxSeq(newest, a + b) == MaxSeq(MaxSeq(newest, a), b)
    decreases b
  {
    if |b| == 0 {
      assert a + b == a;
    } else {
      assert (a + b)[..|a + b| - 1] == a + b[..|b| - 1];
      MaxConcat(newest, a, b[..|b| - 1]);
    }
  }
}
