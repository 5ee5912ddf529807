/**
 Reconnect replay: unacknowledged messages from Redis, then the session timeline from Redis, then the session table from
 MySQL in batches, over one connection. A message that was written successfully once is never written again.
 */
module Replay {
  import opened Wrappers

  datatype Frame = Frame(id: string, body: string)

  datatype Row = Row(id: string, seqNo: int, body: string)

  const BATCH := 200
  const MAX_ROWS := 1000

  /** One session's rows in ascending order of their distinct numbers; message ids are unique. */
  predicate Table(t: seq<Row>)
  {
    forall i, j | 0 <= i < j < |t| :: t[i].seqNo < t[j].seqNo && t[i].id != t[j].id
  }

  /** Every later snapshot keeps the rows of the earlier ones. */
  ghost predicate Growing(tables: nat -> seq<Row>)
  {
    (forall k: nat :: Table(tables(k))) && (forall k: nat :: Keeps(tables(k), tables(k + 1)))
  }

  ghost predicate Keeps(t: seq<Row>, u: seq<Row>)
  {
    forall r | r in t :: r in u
  }

  lemma {:induction false} FirstIsKept(tables: nat -> seq<Row>, k: nat)
    requires Growing(tables)
    ensures Keeps(tables(0), tables(k))
  {
    if k > 0 {
      FirstIsKept(tables, k - 1);
      assert Keeps(tables(k - 1), tables(k - 1 + 1));
    }
  }

  /** The connection: which write attempts it will accept, and what it has sent. */
  class Connection {
    const accepts: nat -> bool
    var attempts: nat
    var sent: seq<Frame>

    constructor (accepts: nat -> bool)
      ensures this.accepts == accepts && attempts == 0 && sent == []
    {
      this.accepts, attempts, sent := accepts, 0, [];
    }

    method WriteBinary(f: Frame) returns (ok: bool)
      modifies this
      ensures ok == accepts(old(attempts)) && attempts == old(attempts) + 1
      ensures sent == if ok then old(sent) + [f] else old(sent)
    {
      ok := accepts(attempts);
      attempts := attempts + 1;
      if ok {
        sent := sent + [f];
      }
    }
  }

  /** A write attempt since `from` was refused. */
  ghost predicate Refused(accepts: nat -> bool, from: nat, to: nat)
  {
    exists k :: from <= k < to && !accepts(k)
  }

  /** The frames carry exactly these ids, each once. */
  ghost predicate Once(frames: seq<Frame>, ids: set<string>)
  {
    && (forall i | 0 <= i < |frames| :: frames[i].id in ids)
    && (forall id | id in ids :: exists i :: 0 <= i < |frames| && frames[i].id == id)
    && (forall i, j | 0 <= i < j < |frames| :: frames[i].id != frames[j].id)
  }

  lemma OneMore(frames: seq<Frame>, ids: set<string>, f: Frame)
    requires Once(frames, ids) && f.id !in ids
    ensures Once(frames + [f], ids + {f.id})
  {
    var more := frames + [f];
    forall id | id in ids + {f.id} ensures exists i :: 0 <= i < |more| && more[i].id == id {
      if id == f.id {
        assert more[|frames|].id == id;
      } else {
        var i :| 0 <= i < |frames| && frames[i].id == id;
        assert more[i].id == id;
      }
    }
  }

  ghost predicate Unique(ids: seq<string>)
  {
    forall i, j | 0 <= i < j < |ids| :: ids[i] != ids[j]
  }

  /** What a list of ids adds: the ones not yet replayed whose payload can be read. */
  ghost predicate Covers(ids: seq<string>, payload: string -> Option<string>, replayed: set<string>)
  {
    forall i | 0 <= i < |ids| && payload(ids[i]).Some? :: ids[i] in replayed
  }

  ghost predicate CarryPayload(frames: seq<Frame>, payload: string -> Option<string>)
  {
    forall i | 0 <= i < |frames| :: payload(frames[i].id) == Some(frames[i].body)
  }

  /** The frames of a list of ids: those whose payload could be read, in order. */
  function FramesOf(ids: seq<string>, payload: string -> Option<string>): seq<Frame>
  {
    if |ids| == 0 then []
    else
      var last := ids[|ids| - 1];
      FramesOf(ids[..|ids| - 1], payload) + (if payload(last).Some? then [Frame(last, payload(last).value)] else [])
  }

  lemma FramesOfMore(ids: seq<string>, payload: string -> Option<string>, i: nat)
    requires i < |ids|
    ensures FramesOf(ids[..i + 1], payload) ==
            FramesOf(ids[..i], payload) + (if payload(ids[i]).Some? then [Frame(ids[i], payload(ids[i]).value)] else [])
  {
    assert ids[..i + 1][..i] == ids[..i];
  }

  lemma {:induction false} FramesOfPrefix(ids: seq<string>, payload: string -> Option<string>, i: nat)
    requires i <= |ids|
    ensures FramesOf(ids[..i], payload) <= FramesOf(ids, payload)
    decreases |ids| - i
  {
    if i == |ids| {
      assert ids[..i] == ids;
    } else {
      FramesOfMore(ids, payload, i);
      FramesOfPrefix(ids, payload, i + 1);
    }
  }

  ghost predicate Wrote(frames: seq<Frame>, id: string)
  {
    exists i :: 0 <= i < |frames| && frames[i].id == id
  }

  /** One frame carries the id and no other frame does. */
  ghost predicate WroteOnce(frames: seq<Frame>, id: string)
  {
    exists i :: 0 <= i < |frames| && frames[i].id == id && forall j | 0 <= j < |frames| && j != i :: frames[j].id != id
  }

  /** The frames name exactly the listed ids with a payload, each with that payload. */
  lemma {:induction false} FramesOfNames(ids: seq<string>, payload: string -> Option<string>, id: string)
    ensures Wrote(FramesOf(ids, payload), id) <==> id in ids && payload(id).Some?
    ensures forall f | f in FramesOf(ids, payload) :: payload(f.id) == Some(f.body)
    ensures id in ids && payload(id).Some? ==> Frame(id, payload(id).value) in FramesOf(ids, payload)
  {
    if |ids| > 0 {
      var front, last := ids[..|ids| - 1], ids[|ids| - 1];
      FramesOfNames(front, payload, id);
      assert ids == front + [last];
      var before, all := FramesOf(front, payload), FramesOf(ids, payload);
      if Wrote(before, id) {
        var i :| 0 <= i < |before| && before[i].id == id;
        assert all[i].id == id;
      }
      if id == last && payload(last).Some? {
        assert all[|before|].id == id;
      }
    }
  }

  /**
   syncPendingMessages: the frames of all pending ids, stopping at the first refused write. Each id is read once, by a
   command of its own; `answers` is what those commands answer, each at its own time.
   */
  method SyncPendingMessages(pending: Option<seq<string>>, answers: string -> Option<string>, conn: Connection)
    returns (ok: bool, replayed: set<string>, ghost frames: seq<Frame>)
    requires pending.Some? ==> Unique(pending.value)
    modifies conn
    ensures conn.sent == old(conn.sent) + frames && Once(frames, replayed)
    ensures pending.None? ==> !ok && frames == [] && conn.attempts == old(conn.attempts)
    ensures pending.Some? && ok ==>
              frames == FramesOf(pending.value, answers) && conn.attempts == old(conn.attempts) + |frames|
    ensures pending.Some? && !ok ==>
              && frames < FramesOf(pending.value, answers) && conn.attempts == old(conn.attempts) + |frames| + 1
              && !conn.accepts(old(conn.attempts) + |frames|)
    ensures pending.Some? && ok ==>
              forall id | id in pending.value && answers(id).Some? :: Frame(id, answers(id).value) in conn.sent
  {
    hide Once, FramesOf;
    replayed, frames := {}, [];
    NothingOnce();
    if pending.None? {
      return false, replayed, frames;
    }
    var ids := pending.value;
    FramesOfNothing(ids, answers);
    for i := 0 to |ids|
      invariant conn.sent == old(conn.sent) + frames && Once(frames, replayed)
      invariant conn.attempts == old(conn.attempts) + |frames|
      invariant frames == FramesOf(ids[..i], answers)
      invariant forall id | id in replayed :: id in ids[..i]
    {
      assert ids[..i + 1] == ids[..i] + [ids[i]];
      FramesOfMore(ids, answers, i);
      FramesOfPrefix(ids, answers, i + 1);
      if answers(ids[i]).Some? {
        var f := Frame(ids[i], answers(ids[i]).value);
        var written := conn.WriteBinary(f);
        if !written {
          return false, replayed, frames;
        }
        OneMore(frames, replayed, f);
        replayed, frames := replayed + {ids[i]}, frames + [f];
      }
    }
    assert ids[..|ids|] == ids;
    forall id | id in ids && answers(id).Some? ensures Frame(id, answers(id).value) in frames {
      FramesOfNames(ids, answers, id);
    }
    return true, replayed, frames;
  }

  lemma NothingOnce()
    ensures Once([], {})
  {
  }

  lemma FramesOfNothing(ids: seq<string>, payload: string -> Option<string>)
    ensures FramesOf(ids[..0], payload) == []
  {
  }

  lemma NothingCarried(payload: string -> Option<string>, replayed: set<string>)
    ensures CarryPayload([], payload) && Covers([], payload, replayed)
  {
  }

  lemma CarryOneMore(frames: seq<Frame>, f: Frame, payload: string -> Option<string>)
    requires CarryPayload(frames, payload) && payload(f.id) == Some(f.body)
    ensures CarryPayload(frames + [f], payload)
  {
  }

  lemma CoversOneMore(ids: seq<string>, id: string, payload: string -> Option<string>, replayed: set<string>)
    requires Covers(ids, payload, replayed)
    ensures Covers(ids + [id], payload, replayed + {id})
    ensures id in replayed || payload(id).None? ==> Covers(ids + [id], payload, replayed)
  {
  }

  datatype Member = Member(id: string, score: int)

  /** The ids whose score is above `lastSeq`, in score order. */
  function IdsAfter(timeline: seq<Member>, lastSeq: int): seq<string>
  {
    if |timeline| == 0 then []
    else (if timeline[0].score > lastSeq then [timeline[0].id] else []) + IdsAfter(timeline[1..], lastSeq)
  }

  function FirstBatch(ids: seq<string>): seq<string>
  {
    if |ids| > BATCH then ids[..BATCH] else ids
  }

  /** How many of the first `n` entries have a score above `lastSeq`. */
  function Above(timeline: seq<Member>, n: nat, lastSeq: int): nat
    requires n <= |timeline|
  {
    if n == 0 then 0 else Above(timeline, n - 1, lastSeq) + if timeline[n - 1].score > lastSeq then 1 else 0
  }

  lemma {:induction false} AboveTail(timeline: seq<Member>, n: nat, lastSeq: int)
    requires 1 <= n <= |timeline|
    ensures Above(timeline, n, lastSeq)
              == (if timeline[0].score > lastSeq then 1 else 0) + Above(timeline[1..], n - 1, lastSeq)
    decreases n
  {
    if n > 1 { AboveTail(timeline, n - 1, lastSeq); }
  }

  /** Every entry above `lastSeq` is at the place that the number of such entries before it gives. */
  lemma {:induction false} AfterIs(timeline: seq<Member>, lastSeq: int, i: nat)
    requires i < |timeline| && timeline[i].score > lastSeq
    ensures Above(timeline, i, lastSeq) < |IdsAfter(timeline, lastSeq)|
    ensures IdsAfter(timeline, lastSeq)[Above(timeline, i, lastSeq)] == timeline[i].id
    decreases i
  {
    if i > 0 {
      AfterIs(timeline[1..], lastSeq, i - 1);
      AboveTail(timeline, i, lastSeq);
    }
  }

  /** And every place holds such an entry. */
  lemma {:induction false} EntryAt(timeline: seq<Member>, lastSeq: int, k: nat) returns (i: nat)
    requires k < |IdsAfter(timeline, lastSeq)|
    ensures i < |timeline| && timeline[i].score > lastSeq && Above(timeline, i, lastSeq) == k
    ensures timeline[i].id == IdsAfter(timeline, lastSeq)[k]
  {
    var first := if timeline[0].score > lastSeq then 1 else 0;
    if k < first {
      i := 0;
    } else {
      i := EntryAt(timeline[1..], lastSeq, k - first);
      i := i + 1;
      AboveTail(timeline, i, lastSeq);
    }
  }

  /** An id is in the first batch exactly if one of its entries is above the cursor and among the first 200 that are. */
  lemma FirstBatchIs(timeline: seq<Member>, lastSeq: int, id: string)
    ensures id in FirstBatch(IdsAfter(timeline, lastSeq)) <==>
              exists i :: 0 <= i < |timeline| && timeline[i].id == id && timeline[i].score > lastSeq
                          && Above(timeline, i, lastSeq) < 200
  {
    hide IdsAfter;
    var ids := IdsAfter(timeline, lastSeq);
    if id in FirstBatch(ids) {
      var k :| 0 <= k < |FirstBatch(ids)| && FirstBatch(ids)[k] == id;
      var i := EntryAt(timeline, lastSeq, k);
    }
    forall i | 0 <= i < |timeline| && timeline[i].id == id && timeline[i].score > lastSeq
               && Above(timeline, i, lastSeq) < 200
      ensures id in FirstBatch(ids)
    {
      AfterIs(timeline, lastSeq, i);
      assert FirstBatch(ids)[Above(timeline, i, lastSeq)] == id;
    }
  }

  /** The frames stand at these increasing places of the list. */
  ghost predicate Follows(frames: seq<Frame>, ids: seq<string>, places: seq<nat>)
  {
    && |places| == |frames|
    && (forall i | 0 <= i < |places| :: places[i] < |ids| && frames[i].id == ids[places[i]])
    && (forall i, j | 0 <= i < j < |places| :: places[i] < places[j])
  }

  /** The frames are in the order of the list, some of its ids left out. */
  ghost predicate InOrder(frames: seq<Frame>, ids: seq<string>)
  {
    exists places :: Follows(frames, ids, places)
  }

  lemma NothingInOrder(ids: seq<string>)
    ensures InOrder([], ids)
  {
    assert Follows([], ids, []);
  }

  lemma OneMoreInOrder(frames: seq<Frame>, ids: seq<string>, f: Frame)
    requires InOrder(frames, ids)
    ensures InOrder(frames + [f], ids + [f.id]) && forall id :: InOrder(frames, ids + [id])
  {
    var places: seq<nat> :| Follows(frames, ids, places);
    assert Follows(frames + [f], ids + [f.id], places + [|ids|]);
    forall id ensures InOrder(frames, ids + [id]) {
      assert Follows(frames, ids + [id], places);
    }
  }

  lemma PrefixInOrder(frames: seq<Frame>, ids: seq<string>, n: nat)
    requires n <= |ids| && InOrder(frames, ids[..n])
    ensures InOrder(frames, ids)
  {
    var places: seq<nat> :| Follows(frames, ids[..n], places);
    assert Follows(frames, ids, places);
  }

  /** syncSessionMessagesAfterSeq: the first timeline entries after `lastSeq`, less what was replayed already. */
  method SyncTimeline(timeline: Option<seq<Member>>, payload: string -> Option<string>, conn: Connection,
                      sessionID: string, lastSeq: int, before: set<string>, ghost start: seq<Frame>)
    returns (ok: bool, replayed: set<string>, ghost frames: seq<Frame>)
    requires Once(start, before)
    modifies conn
    ensures conn.sent == old(conn.sent) + frames && before <= replayed && Once(start + frames, replayed)
    ensures CarryPayload(frames, payload) && conn.attempts >= old(conn.attempts)
    ensures sessionID == "" || lastSeq < 0 ==> ok && frames == [] && conn.attempts == old(conn.attempts)
    ensures !ok ==> timeline.None? || Refused(conn.accepts, old(conn.attempts), conn.attempts)
    ensures frames != [] ==> timeline.Some?
    ensures forall f | f in frames :: f.id !in before
    ensures timeline.Some? ==> InOrder(frames, FirstBatch(IdsAfter(timeline.value, lastSeq)))
    ensures ok && sessionID != "" && lastSeq >= 0 ==>
              timeline.Some? && Covers(FirstBatch(IdsAfter(timeline.value, lastSeq)), payload, replayed)
  {
    hide Once, IdsAfter, Covers, CarryPayload, InOrder;
    replayed, frames := before, [];
    assert start + frames == start;
    NothingCarried(payload, replayed);
    if timeline.Some? { NothingInOrder(FirstBatch(IdsAfter(timeline.value, lastSeq))); }
    if sessionID == "" || lastSeq < 0 {
      return true, replayed, frames;
    }
    if timeline.None? {
      return false, replayed, frames;
    }
    var ids := FirstBatch(IdsAfter(timeline.value, lastSeq));
    assert ids[..0] == [];
    NothingInOrder(ids[..0]);
    for i := 0 to |ids|
      invariant conn.sent == old(conn.sent) + frames && before <= replayed && Once(start + frames, replayed)
      invariant CarryPayload(frames, payload) && conn.attempts >= old(conn.attempts)
      invariant Covers(ids[..i], payload, replayed)
      invariant InOrder(frames, ids[..i]) && forall f | f in frames :: f.id !in before
    {
      assert ids[..i + 1] == ids[..i] + [ids[i]];
      CoversOneMore(ids[..i], ids[i], payload, replayed);
      OneMoreInOrder(frames, ids[..i], Frame(ids[i], if payload(ids[i]).Some? then payload(ids[i]).value else ""));
      if ids[i] !in replayed && payload(ids[i]).Some? {
        var f := Frame(ids[i], payload(ids[i]).value);
        var written := conn.WriteBinary(f);
        if !written {
          assert !conn.accepts(conn.attempts - 1);
          PrefixInOrder(frames, ids, i + 1);
          return false, replayed, frames;
        }
        OneMore(start + frames, replayed, f);
        assert start + (frames + [f]) == start + frames + [f];
        CarryOneMore(frames, f, payload);
        replayed, frames := replayed + {ids[i]}, frames + [f];
      }
    }
    assert ids[..|ids|] == ids;
    return true, replayed, frames;
  }

  // ---------- the MySQL cursor ----------

  /** The first row above the cursor. */
  function Start(t: seq<Row>, cursor: int): (k: nat)
    requires Table(t)
    ensures k <= |t|
    ensures forall i | 0 <= i < |t| :: t[i].seqNo <= cursor <==> i < k
  {
    if |t| == 0 || t[|t| - 1].seqNo <= cursor then |t| else Start(t[..|t| - 1], cursor)
  }

  function RowsAfter(t: seq<Row>, cursor: int): (rows: seq<Row>)
    requires Table(t)
  {
    var k := Start(t, cursor);
    t[k..if |t| - k > BATCH then k + BATCH else |t|]
  }

  /** Every row of the table between the two numbers has been replayed. */
  ghost predicate Covered(t: seq<Row>, lastSeq: int, cursor: int, replayed: set<string>)
  {
    forall r | r in t && lastSeq < r.seqNo <= cursor :: r.id in replayed
  }

  /** The ids belong to rows at or before the cursor, so they cannot turn up again. */
  ghost predicate Behind(t: seq<Row>, cursor: int, ids: set<string>)
  {
    forall id | id in ids :: exists r :: r in t && r.id == id && r.seqNo <= cursor
  }

  lemma BatchRows(t: seq<Row>, cursor: int)
    requires Table(t)
    ensures var rows := RowsAfter(t, cursor);
            && |rows| <= BATCH && Table(rows)
            && (forall i | 0 <= i < |rows| :: rows[i] in t && rows[i].seqNo > cursor)
            && (forall r | r in t && r.seqNo > cursor && (|rows| < BATCH || r.seqNo <= rows[|rows| - 1].seqNo) ::
                   r in rows)
  {
    var rows := RowsAfter(t, cursor);
    var k := Start(t, cursor);
    forall i | 0 <= i < |rows| ensures rows[i] == t[k + i] { }
    forall r | r in t && r.seqNo > cursor && (|rows| < BATCH || r.seqNo <= rows[|rows| - 1].seqNo) ensures r in rows {
      var j :| 0 <= j < |t| && t[j] == r;
      assert k <= j < k + |rows|;
      assert rows[j - k] == r;
    }
  }

  lemma NotBehind(t: seq<Row>, cursor: int, ids: set<string>, r: Row)
    requires Table(t) && Behind(t, cursor, ids) && r in t && r.seqNo > cursor
    ensures r.id !in ids
  {
    forall q | q in t && q.seqNo <= cursor ensures q.id != r.id {
      var i :| 0 <= i < |t| && t[i] == q;
      var j :| 0 <= j < |t| && t[j] == r;
      assert t[i].id != t[j].id;
    }
  }

  lemma BehindLater(t: seq<Row>, u: seq<Row>, cursor: int, ids: set<string>)
    requires Behind(t, cursor, ids) && Keeps(t, u)
    ensures Behind(u, cursor, ids)
  {
    forall id | id in ids ensures exists r :: r in u && r.id == id && r.seqNo <= cursor {
      var r :| r in t && r.id == id && r.seqNo <= cursor;
      assert r in u;
    }
  }

  lemma BehindOneMore(t: seq<Row>, cursor: int, ids: set<string>, r: Row)
    requires Behind(t, cursor, ids) && r in t && r.seqNo >= cursor
    ensures Behind(t, r.seqNo, ids + {r.id})
  {
    forall id | id in ids + {r.id} ensures exists q :: q in t && q.id == id && q.seqNo <= r.seqNo {
      if id in ids {
        var q :| q in t && q.id == id && q.seqNo <= cursor;
        assert q in t && q.id == id && q.seqNo <= r.seqNo;
      } else {
        assert r in t && r.id == id && r.seqNo <= r.seqNo;
      }
    }
  }

  function FrameOf(r: Row): Frame
  {
    Frame(r.id, r.body)
  }

  function RowFrames(rows: seq<Row>): (frames: seq<Frame>)
    ensures |frames| == |rows|
  {
    seq(|rows|, i requires 0 <= i < |rows| => FrameOf(rows[i]))
  }

  /** Rows of the table between the two numbers, in ascending order. */
  ghost predicate Ascend(rows: seq<Row>, t: seq<Row>, low: int, high: int)
  {
    && (forall i | 0 <= i < |rows| :: rows[i] in t && low < rows[i].seqNo <= high)
    && (forall i, j | 0 <= i < j < |rows| :: rows[i].seqNo < rows[j].seqNo)
  }

  lemma AscendLater(rows: seq<Row>, t: seq<Row>, u: seq<Row>, low: int, high: int)
    requires Ascend(rows, t, low, high) && Keeps(t, u)
    ensures Ascend(rows, u, low, high)
  {
  }

  lemma AscendBoth(a: seq<Row>, b: seq<Row>, t: seq<Row>, low: int, mid: int, high: int)
    requires Ascend(a, t, low, mid) && Ascend(b, t, mid, high) && low <= mid <= high
    ensures Ascend(a + b, t, low, high) && RowFrames(a + b) == RowFrames(a) + RowFrames(b)
  {
    forall i | 0 <= i < |a + b| ensures (a + b)[i] in t && low < (a + b)[i].seqNo <= high {
      if i < |a| {
        assert a[i] in t;
      } else {
        assert (a + b)[i] == b[i - |a|];
        assert b[i - |a|] in t;
      }
    }
  }

  /**
   Everything replayed lies behind the cursor except the ids in `waiting`: replayed early, their row still to come.
   */
  ghost predicate Waiting(t: seq<Row>, cursor: int, replayed: set<string>, waiting: set<string>)
  {
    waiting <= replayed && Behind(t, cursor, replayed - waiting)
  }

  lemma SkipRow(t: seq<Row>, cursor: int, replayed: set<string>, waiting: set<string>, r: Row)
    requires Table(t) && Waiting(t, cursor, replayed, waiting) && r in t && r.seqNo > cursor && r.id in replayed
    ensures r.id in waiting && Waiting(t, r.seqNo, replayed, waiting - {r.id})
  {
    hide Behind, Table;
    NotBehind(t, cursor, replayed - waiting, r);
    BehindOneMore(t, cursor, replayed - waiting, r);
    assert replayed - (waiting - {r.id}) == replayed - waiting + {r.id};
  }

  lemma PassRow(t: seq<Row>, cursor: int, replayed: set<string>, waiting: set<string>, r: Row)
    requires Table(t) && Waiting(t, cursor, replayed, waiting) && r in t && r.seqNo > cursor && r.id !in replayed
    ensures Waiting(t, r.seqNo, replayed + {r.id}, waiting)
  {
    hide Behind, Table;
    BehindOneMore(t, cursor, replayed - waiting, r);
    assert replayed + {r.id} - waiting == replayed - waiting + {r.id};
  }

  lemma AscendOneMore(rows: seq<Row>, t: seq<Row>, low: int, high: int, r: Row)
    requires Ascend(rows, t, low, high) && r in t && low <= high < r.seqNo
    ensures Ascend(rows + [r], t, low, r.seqNo) && RowFrames(rows + [r]) == RowFrames(rows) + [FrameOf(r)]
    ensures Ascend(rows, t, low, r.seqNo)
  {
  }

  /** Before anything is written everything is still to come. */
  lemma NothingYet(t: seq<Row>, lastSeq: int, before: set<string>)
    ensures RowFrames([]) == [] && Ascend([], t, lastSeq, lastSeq)
    ensures Covered(t, lastSeq, lastSeq, before) && Waiting(t, lastSeq, before, before)
  {
  }

  /** The rows seen so far, the last of them at `maxSeq`. */
  predicate Through(rows: seq<Row>, i: nat, cursor: int, maxSeq: int)
    requires i <= |rows|
  {
    maxSeq == if i > 0 then rows[i - 1].seqNo else cursor
  }

  ghost predicate AllIn(rows: seq<Row>, i: nat, replayed: set<string>)
    requires i <= |rows|
  {
    forall j | 0 <= j < i :: rows[j].id in replayed
  }

  /** One batch: write the rows that were not replayed. */
  method WriteBatch(ghost t: seq<Row>, rows: seq<Row>, conn: Connection, cursor: int, before: set<string>,
                    ghost start: seq<Frame>, ghost waiting0: set<string>)
    returns (ok: bool, replayed: set<string>, written: nat, maxSeq: int, ghost sent: seq<Row>,
      ghost waiting: set<string>)
    requires Table(t) && Table(rows) && (forall i | 0 <= i < |rows| :: rows[i] in t && rows[i].seqNo > cursor)
    requires Once(start, before) && Waiting(t, cursor, before, waiting0)
    modifies conn
    ensures conn.sent == old(conn.sent) + RowFrames(sent) && before <= replayed
    ensures Once(start + RowFrames(sent), replayed) && conn.attempts >= old(conn.attempts)
    ensures Ascend(sent, t, cursor, maxSeq) && cursor <= maxSeq && |sent| == written <= |rows|
    ensures !ok ==> Refused(conn.accepts, old(conn.attempts), conn.attempts)
    ensures ok ==>
              && AllIn(rows, |rows|, replayed) && Through(rows, |rows|, cursor, maxSeq)
              && Waiting(t, maxSeq, replayed, waiting) && (|waiting0| - |waiting|) + written == |rows|
  {
    hide Once, Ascend, RowFrames, Waiting;
    NothingYet(t, cursor, before);
    replayed, written, maxSeq, sent, waiting := before, 0, cursor, [], waiting0;
    assert start + RowFrames(sent) == start;
    for i := 0 to |rows|
      invariant conn.sent == old(conn.sent) + RowFrames(sent) && before <= replayed
      invariant Once(start + RowFrames(sent), replayed) && conn.attempts >= old(conn.attempts)
      invariant Ascend(sent, t, cursor, maxSeq) && cursor <= maxSeq && |sent| == written <= i
      invariant AllIn(rows, i, replayed) && Through(rows, i, cursor, maxSeq)
      invariant Waiting(t, maxSeq, replayed, waiting)
      invariant (|waiting0| - |waiting|) + written == i
    {
      var r := rows[i];
      assert r.seqNo > maxSeq;
      AscendOneMore(sent, t, cursor, maxSeq, r);
      if r.id in replayed {
        SkipRow(t, maxSeq, replayed, waiting, r);
        waiting := waiting - {r.id};
      } else {
        var accepted := conn.WriteBinary(FrameOf(r));
        if !accepted {
          assert !conn.accepts(conn.attempts - 1);
          return false, replayed, written, maxSeq, sent, waiting;
        }
        PassRow(t, maxSeq, replayed, waiting, r);
        OneMore(start + RowFrames(sent), replayed, FrameOf(r));
        assert start + (RowFrames(sent) + [FrameOf(r)]) == start + RowFrames(sent) + [FrameOf(r)];
        replayed, sent, written := replayed + {r.id}, sent + [r], written + 1;
      }
      if r.seqNo > maxSeq {
        maxSeq := r.seqNo;
      }
    }
    return true, replayed, written, maxSeq, sent, waiting;
  }

  /** After a batch everything up to its last row is covered; after a short one, everything. */
  lemma BatchCovers(t0: seq<Row>, t: seq<Row>, lastSeq: int, cursor: int, replayed: set<string>, maxSeq: int)
    requires Table(t) && Keeps(t0, t) && Covered(t0, lastSeq, cursor, replayed)
    requires var rows := RowsAfter(t, cursor);
             AllIn(rows, |rows|, replayed) && Through(rows, |rows|, cursor, maxSeq)
    ensures Covered(t0, lastSeq, maxSeq, replayed) && (|RowsAfter(t, cursor)| == BATCH ==> maxSeq > cursor)
    ensures |RowsAfter(t, cursor)| < BATCH ==> forall r | r in t0 && r.seqNo > lastSeq :: r.id in replayed
  {
    hide RowsAfter, Table;
    BatchRows(t, cursor);
    var rows := RowsAfter(t, cursor);
    forall r | r in t0 && r.seqNo > cursor && (|rows| < BATCH || r.seqNo <= maxSeq) ensures r.id in replayed {
      assert r in t;
      assert r in rows;
      var i :| 0 <= i < |rows| && rows[i] == r;
    }
  }

  /** The next query sees a later snapshot. */
  lemma NextSnapshot(t: seq<Row>, u: seq<Row>, lastSeq: int, cursor: int, replayed: set<string>,
      waiting: set<string>, rows: seq<Row>)
    requires Keeps(t, u) && Waiting(t, cursor, replayed, waiting) && Ascend(rows, t, lastSeq, cursor)
    ensures Waiting(u, cursor, replayed, waiting) && Ascend(rows, u, lastSeq, cursor)
  {
    BehindLater(t, u, cursor, replayed - waiting);
    AscendLater(rows, t, u, lastSeq, cursor);
  }

  lemma MoreCovered(t0: seq<Row>, lastSeq: int, cursor: int, before: set<string>, replayed: set<string>)
    requires Covered(t0, lastSeq, cursor, before) && before <= replayed
    ensures Covered(t0, lastSeq, cursor, replayed)
  {
  }

  /** syncMySQLMessagesAfterSeq: batches until one is short or enough rows were written; query `k` sees snapshot `k`. */
  method SyncMySQL(tables: nat -> seq<Row>, queryFails: nat -> bool, conn: Connection, lastSeq: int,
                   before: set<string>, ghost start: seq<Frame>)
    returns (ok: bool, ghost replayed: set<string>, ghost sent: seq<Row>, ghost cutOff: Option<int>)
    requires Growing(tables) && Once(start, before)
    modifies conn
    ensures conn.sent == old(conn.sent) + RowFrames(sent) && before <= replayed
    ensures Once(start + RowFrames(sent), replayed) && conn.attempts >= old(conn.attempts)
    ensures |sent| < MAX_ROWS + BATCH && exists k: nat, high :: Ascend(sent, tables(k), lastSeq, high)
    ensures ok && cutOff == None ==> forall r | r in tables(0) && r.seqNo > lastSeq :: r.id in replayed
    ensures ok && cutOff.Some? ==> |sent| >= MAX_ROWS && Covered(tables(0), lastSeq, cutOff.value, replayed)
    ensures !ok ==> Refused(conn.accepts, old(conn.attempts), conn.attempts) || exists k: nat :: queryFails(k)
  {
    hide Once, Ascend, RowFrames, Waiting, Covered, Table, Keeps, RowsAfter, AllIn, Through;
    NothingYet(tables(0), lastSeq, before);
    var seen := before;
    var cursor, count: nat := lastSeq, 0;
    var query: nat := 0;
    ghost var waiting := before;
    sent := [];
    assert start + RowFrames(sent) == start;
    while count < MAX_ROWS
      invariant conn.sent == old(conn.sent) + RowFrames(sent) && before <= seen
      invariant Once(start + RowFrames(sent), seen) && conn.attempts >= old(conn.attempts)
      invariant Ascend(sent, tables(query), lastSeq, cursor) && lastSeq <= cursor
      invariant |sent| == count < MAX_ROWS + BATCH
      invariant Covered(tables(0), lastSeq, cursor, seen)
      invariant Waiting(tables(query), cursor, seen, waiting)
      decreases |waiting| + MAX_ROWS + BATCH - count
    {
      ghost var t := tables(query);
      if queryFails(query) {
        return false, seen, sent, None;
      }
      var rows := RowsAfter(tables(query), cursor);
      BatchRows(t, cursor);
      FirstIsKept(tables, query);
      var accepted, seen', written, maxSeq;
      ghost var more, waiting';
      accepted, seen', written, maxSeq, more, waiting' :=
        WriteBatch(t, rows, conn, cursor, seen, start + RowFrames(sent), waiting);
      assert start + RowFrames(sent) + RowFrames(more) == start + (RowFrames(sent) + RowFrames(more));
      AscendBoth(sent, more, t, lastSeq, cursor, maxSeq);
      sent := sent + more;
      if !accepted {
        return false, seen', sent, None;
      }
      MoreCovered(tables(0), lastSeq, cursor, seen, seen');
      BatchCovers(tables(0), t, lastSeq, cursor, seen', maxSeq);
      seen, count := seen', count + written;
      if |rows| == 0 || maxSeq <= cursor || |rows| < BATCH {
        return true, seen, sent, None;
      }
      cursor, waiting := maxSeq, waiting';
      assert Keeps(t, tables(query + 1));
      NextSnapshot(t, tables(query + 1), lastSeq, cursor, seen, waiting, sent);
      query := query + 1;
    }
    return true, seen, sent, Some(cursor);
  }

  /** What Redis answers: the lists, and each payload when its turn comes. None stands for an error. */
  datatype Redis = Redis(pending: Option<seq<string>>, index: string -> Option<string>,
                         timeline: Option<seq<Member>>, payloads: string -> Option<string>)

  datatype Database = Database(tables: nat -> seq<Row>, queryFails: nat -> bool)

  /** The rows replay is asked for: above the cursor and, if MySQL replay stopped early, up to the cut-off. */
  predicate Wanted(r: Row, lastSeq: int, cutOff: Option<int>)
  {
    lastSeq < r.seqNo && (cutOff.Some? ==> r.seqNo <= cutOff.value)
  }

  /** The timeline and the session table are only consulted with a session and a cursor of zero or more. */
  predicate Consulted(sessionID: string, lastSeq: int)
  {
    sessionID != "" && lastSeq >= 0
  }

  /** All pending messages were sent: the list could be read and no write was refused. */
  ghost predicate PendingSent(redis: Redis, attempts: int, frames: seq<Frame>)
  {
    redis.pending.Some? && attempts == |frames|
  }

  /** What was written, by source. */
  datatype Parts = Parts(pending: seq<Frame>, timeline: seq<Frame>, rows: seq<Row>) {
    function Frames(): seq<Frame>
    {
      pending + timeline + RowFrames(rows)
    }
  }

  /** The timeline entries are among the first 200 above the cursor, in their order and with their payload. */
  ghost predicate FromTimeline(frames: seq<Frame>, redis: Redis, consulted: bool, lastSeq: int)
  {
    && (forall f | f in frames :: redis.payloads(f.id) == Some(f.body))
    && (redis.timeline.None? || !consulted ==> frames == [])
    && (redis.timeline.Some? ==> InOrder(frames, FirstBatch(IdsAfter(redis.timeline.value, lastSeq))))
  }

  /** The rows are in the table, above the cursor and in their order. */
  ghost predicate FromTable(rows: seq<Row>, db: Option<Database>, consulted: bool, lastSeq: int)
  {
    if db.Some? && consulted then exists k: nat, high :: Ascend(rows, db.value.tables(k), lastSeq, high) else rows == []
  }

  ghost predicate FromPending(frames: seq<Frame>, redis: Redis)
  {
    if redis.pending.Some? then frames <= FramesOf(redis.pending.value, redis.index) else frames == []
  }

  /** Something went wrong: a list or a query was not answered, or a write was refused. */
  ghost predicate Fault(redis: Redis, db: Option<Database>, consulted: bool, refused: bool)
  {
    match db
    case None => redis.pending.None? || (consulted && redis.timeline.None?) || refused
    case Some(d) => consulted && (refused || exists k: nat :: d.queryFails(k))
  }

  /** SyncSessionMessagesAfterSeqWithDB: the timeline, then the session table. */
  method SyncSession(redis: Redis, db: Option<Database>, conn: Connection, sessionID: string, lastSeq: int,
                     before: set<string>, ghost start: seq<Frame>)
    returns (ok: bool, ghost replayed: set<string>, ghost timeline: seq<Frame>, ghost rows: seq<Row>,
      ghost cutOff: Option<int>)
    requires db.Some? ==> Growing(db.value.tables)
    requires Once(start, before)
    modifies conn
    ensures conn.sent == old(conn.sent) + timeline + RowFrames(rows) && conn.attempts >= old(conn.attempts)
    ensures before <= replayed && Once(start + timeline + RowFrames(rows), replayed)
    ensures FromTimeline(timeline, redis, Consulted(sessionID, lastSeq), lastSeq)
    ensures FromTable(rows, db, Consulted(sessionID, lastSeq), lastSeq)
    ensures |rows| < MAX_ROWS + BATCH && (cutOff.Some? ==> |rows| >= MAX_ROWS)
    ensures !ok ==>
              && Consulted(sessionID, lastSeq)
              && (Refused(conn.accepts, old(conn.attempts), conn.attempts)
                  || (db.None? && redis.timeline.None?) || (db.Some? && exists k: nat :: db.value.queryFails(k)))
    ensures ok && db.Some? && Consulted(sessionID, lastSeq) ==>
              forall r | r in db.value.tables(0) && Wanted(r, lastSeq, cutOff) :: r.id in replayed
    ensures ok && db.None? && Consulted(sessionID, lastSeq) ==>
              && redis.timeline.Some?
              && Covers(FirstBatch(IdsAfter(redis.timeline.value, lastSeq)), redis.payloads, replayed)
    ensures !Consulted(sessionID, lastSeq) ==> timeline == [] && conn.attempts == old(conn.attempts)
  {
    hide Once, Covers, Covered, Ascend, RowFrames, IdsAfter, FirstBatch, InOrder;
    cutOff, rows := None, [];
    NoRows(redis, lastSeq);
    var timelineOk, seen;
    timelineOk, seen, timeline := SyncTimeline(redis.timeline, redis.payloads, conn, sessionID, lastSeq, before, start);
    replayed := seen;
    CarriedEach(timeline, redis.payloads);
    assert start + timeline + [] == start + timeline;
    if !timelineOk && db.None? {
      return false, replayed, timeline, rows, cutOff;
    }
    if db.None? || sessionID == "" || lastSeq < 0 {
      return true, replayed, timeline, rows, cutOff;
    }
    ok, replayed, rows, cutOff :=
      SyncMySQL(db.value.tables, db.value.queryFails, conn, lastSeq, seen, start + timeline);
    if ok {
      forall r | r in db.value.tables(0) && Wanted(r, lastSeq, cutOff) ensures r.id in replayed {
        InRange(db.value.tables(0), lastSeq, cutOff, replayed, r);
      }
    } else {
      cutOff := None;
    }
  }

  /**
   SyncOfflineMessagesWithDB, which reports success in two ways. With a database, a session and a cursor of zero or
   more, every row of the first snapshot above the cursor, up to the cut-off, was written exactly once across the three
   sources; the cut-off is the end of the session unless at least `MAX_ROWS` MySQL writes were made. Without a session
   or with a negative cursor, only pending messages are sent: a stored row is written if and only if its id is pending
   with a readable payload.
   */
  method SyncOfflineMessages(redis: Redis, db: Option<Database>, conn: Connection, sessionID: string, lastSeq: int)
    returns (ok: bool, ghost frames: seq<Frame>, ghost cutOff: Option<int>, ghost parts: Parts)
    requires redis.pending.Some? ==> Unique(redis.pending.value)
    requires db.Some? ==> Growing(db.value.tables)
    modifies conn
    ensures conn.sent == old(conn.sent) + frames && frames == parts.Frames()
    ensures FromPending(parts.pending, redis)
    ensures FromTimeline(parts.timeline, redis, Consulted(sessionID, lastSeq), lastSeq)
    ensures FromTable(parts.rows, db, Consulted(sessionID, lastSeq), lastSeq)
    ensures forall i, j | 0 <= i < j < |frames| :: frames[i].id != frames[j].id
    ensures |parts.rows| < 1200 && (cutOff.Some? ==> |parts.rows| >= 1000)
    ensures !ok ==>
              Fault(redis, db, Consulted(sessionID, lastSeq), Refused(conn.accepts, old(conn.attempts), conn.attempts))
    ensures ok && db.Some? && Consulted(sessionID, lastSeq) ==>
              forall r | r in db.value.tables(0) && Wanted(r, lastSeq, cutOff) :: WroteOnce(frames, r.id)
    ensures ok && db.None? && Consulted(sessionID, lastSeq) ==>
              && redis.pending.Some? && parts.pending == FramesOf(redis.pending.value, redis.index)
              && redis.timeline.Some?
              && forall id | id in FirstBatch(IdsAfter(redis.timeline.value, lastSeq)) && redis.payloads(id).Some? ::
                   WroteOnce(frames, id)
    ensures db.Some? && !Consulted(sessionID, lastSeq) ==> ok
    ensures ok && !Consulted(sessionID, lastSeq) ==>
              && (db.None? ==> PendingSent(redis, conn.attempts - old(conn.attempts), frames))
              && (redis.pending.None? ==> frames == [])
              && (redis.pending.Some? ==> frames <= FramesOf(redis.pending.value, redis.index))
    ensures !Consulted(sessionID, lastSeq) && PendingSent(redis, conn.attempts - old(conn.attempts), frames) ==>
              forall id :: Wrote(frames, id) <==> id in redis.pending.value && redis.index(id).Some?
  {
    hide Once, Covers, FramesOf, Wrote, WroteOnce, RowFrames, IdsAfter, FirstBatch, FromTimeline, FromTable, Wanted;
    var pendingOk, before;
    ghost var first;
    cutOff, parts := None, Parts([], [], []);
    NoRows(redis, lastSeq);
    NothingFrom(redis, db, Consulted(sessionID, lastSeq), lastSeq);
    pendingOk, before, first := SyncPendingMessages(redis.pending, redis.index, conn);
    frames, parts := first, Parts(first, [], []);
    OnceDistinct(frames, before);
    if pendingOk {
      forall id ensures Wrote(frames, id) <==> id in redis.pending.value && redis.index(id).Some? {
        FramesOfNames(redis.pending.value, redis.index, id);
      }
    }
    if !pendingOk && db.None? {
      return false, frames, cutOff, parts;
    }
    ghost var replayed, timeline, rows;
    ok, replayed, timeline, rows, cutOff := SyncSession(redis, db, conn, sessionID, lastSeq, before, first);
    assert old(conn.sent) + first + timeline + RowFrames(rows) == old(conn.sent) + (first + timeline + RowFrames(rows));
    frames, parts := first + timeline + RowFrames(rows), Parts(first, timeline, rows);
    OnceDistinct(frames, replayed);
    if !Consulted(sessionID, lastSeq) {
      NothingUnasked(rows, db, lastSeq);
      assert frames == first;
    } else if ok && db.None? {
      AllOnce(FirstBatch(IdsAfter(redis.timeline.value, lastSeq)), redis.payloads, frames, replayed);
    } else if ok {
      forall r | r in db.value.tables(0) && Wanted(r, lastSeq, cutOff) ensures WroteOnce(frames, r.id) {
        OnceIsOnce(frames, replayed, r.id);
      }
    }
  }

  lemma NothingUnasked(rows: seq<Row>, db: Option<Database>, lastSeq: int)
    requires FromTable(rows, db, false, lastSeq)
    ensures rows == []
  {
  }

  lemma NothingFrom(redis: Redis, db: Option<Database>, consulted: bool, lastSeq: int)
    ensures FromTimeline([], redis, consulted, lastSeq) && FromTable([], db, consulted, lastSeq)
  {
    if redis.timeline.Some? { NothingInOrder(FirstBatch(IdsAfter(redis.timeline.value, lastSeq))); }
    if db.Some? { assert Ascend([], db.value.tables(0), lastSeq, lastSeq); }
  }

  lemma NoRows(redis: Redis, lastSeq: int)
    ensures RowFrames([]) == []
    ensures redis.timeline.Some? ==> InOrder([], FirstBatch(IdsAfter(redis.timeline.value, lastSeq)))
  {
    if redis.timeline.Some? { NothingInOrder(FirstBatch(IdsAfter(redis.timeline.value, lastSeq))); }
  }

  lemma CarriedEach(frames: seq<Frame>, payload: string -> Option<string>)
    requires CarryPayload(frames, payload)
    ensures forall f | f in frames :: payload(f.id) == Some(f.body)
  {
  }

  lemma AllOnce(ids: seq<string>, payload: string -> Option<string>, frames: seq<Frame>, replayed: set<string>)
    requires Covers(ids, payload, replayed) && Once(frames, replayed)
    ensures forall id | id in ids && payload(id).Some? :: WroteOnce(frames, id)
  {
    forall id | id in ids && payload(id).Some? ensures WroteOnce(frames, id) {
      OnceIsOnce(frames, replayed, id);
    }
  }

  lemma OnceDistinct(frames: seq<Frame>, ids: set<string>)
    requires Once(frames, ids)
    ensures forall i, j | 0 <= i < j < |frames| :: frames[i].id != frames[j].id
  {
  }

  lemma OnceIsOnce(frames: seq<Frame>, ids: set<string>, id: string)
    requires Once(frames, ids) && id in ids
    ensures WroteOnce(frames, id)
  {
    var i :| 0 <= i < |frames| && frames[i].id == id;
    forall j | 0 <= j < |frames| && j != i ensures frames[j].id != id {
      if j < i { assert frames[j].id != frames[i].id; } else { assert frames[i].id != frames[j].id; }
    }
  }

  lemma InRange(t: seq<Row>, lastSeq: int, cutOff: Option<int>, replayed: set<string>, r: Row)
    requires r in t && Wanted(r, lastSeq, cutOff)
    requires match cutOff
             case None => forall q | q in t && q.seqNo > lastSeq :: q.id in replayed
             case Some(end) => Covered(t, lastSeq, end, replayed)
    ensures r.id in replayed
  {
  }

  /**
   A connection without a `last_seq` parameter has the cursor -1: success is reported and the stored row is not sent.
   */
  method MissingCursorExample() returns (ok: bool, stored: seq<Row>, sent: seq<Frame>)
    ensures ok && stored == [Row("m", 1, "text")] && sent == []
  {
    stored := [Row("m", 1, "text")];
    var table := stored;
    var redis := Redis(Some([]), id => None, Some([Member("m", 1)]), id => Some("text"));
    var conn := new Connection(attempt => true);
    var db := Database(query => table, query => false);
    ghost var frames, cutOff, parts;
    ok, frames, cutOff, parts := SyncOfflineMessages(redis, Some(db), conn, "s", -1);
    sent := conn.sent;
  }
}
