/**
 Rows of another writer can land inside a span's `seq` range: a large span is several statements, and nothing else
 orders `seq` between two transactions. Selecting a span's rows by id makes the range irrelevant.
 */
module SpanInterleaving {
  import opened Options
  import opened ReadModel

  /** The rows at which the consumer does something; end markers and span rows do nothing where they stand. */
  predicate Acts(d: ProjectionDelta, tid: string) {
    d.tournamentId == tid && d.op != SnapshotEnd && ((d.op == SnapshotBegin && d.key.Span?) || d.snapshotId.None?)
  }

  function Acting(q: seq<ProjectionDelta>, tid: string): seq<ProjectionDelta> {
    if |q| == 0 then []
    else
      var rest := Acting(q[..|q| - 1], tid);
      if Acts(q[|q| - 1], tid) then rest + [q[|q| - 1]] else rest
  }

  function ConsumeAll(q: seq<ProjectionDelta>, acting: seq<ProjectionDelta>, tid: string, id: RowId): Option<Columns> {
    if |acting| == 0 then None
    else Consume(q, tid, acting[|acting| - 1], id, ConsumeAll(q, acting[..|acting| - 1], tid, id))
  }

  /** Markers of a span carry its id in the key; an end marker never acts as a row. */
  predicate MarkersKeyed(q: seq<ProjectionDelta>) {
    forall i :: 0 <= i < |q| && q[i].op == SnapshotEnd ==> q[i].key.Span?
  }

  lemma {:induction false} ReplayIsActing(q: seq<ProjectionDelta>, n: nat, tid: string, id: RowId)
    requires n <= |q| && MarkersKeyed(q)
    ensures ReplayPrefix(q, n, tid, id) == ConsumeAll(q, Acting(q[..n], tid), tid, id)
  {
    if n > 0 {
      ReplayIsActing(q, n - 1, tid, id);
      assert q[..n][..n - 1] == q[..n - 1];
      assert q[..n][n - 1] == q[n - 1];
    }
  }

  lemma {:induction false} ActingConcat(a: seq<ProjectionDelta>, b: seq<ProjectionDelta>, tid: string)
    ensures Acting(a + b, tid) == Acting(a, tid) + Acting(b, tid)
  {
    if |b| == 0 {
      assert a + b == a;
    } else {
      assert (a + b)[..|a + b| - 1] == a + b[..|b| - 1];
      ActingConcat(a, b[..|b| - 1], tid);
    }
  }

  lemma {:induction false} SameConsume(q: seq<ProjectionDelta>, r: seq<ProjectionDelta>, acting: seq<ProjectionDelta>, tid: string, id: RowId)
    requires forall s: string :: Body(q, tid, s) == Body(r, tid, s)
    requires forall s: string :: Complete(q, tid, s) == Complete(r, tid, s)
    ensures ConsumeAll(q, acting, tid, id) == ConsumeAll(r, acting, tid, id)
  {
    if |acting| > 0 {
      SameConsume(q, r, acting[..|acting| - 1], tid, id);
      var d := acting[|acting| - 1];
      if d.key.Span? {
        assert Complete(q, tid, d.key.spanId) == Complete(r, tid, d.key.spanId);
        assert Body(q, tid, d.key.spanId) == Body(r, tid, d.key.spanId);
      }
    }
  }

  /** `m` holds the rows of `a` and of `b`, each in its own order. */
  predicate Shuffle(m: seq<ProjectionDelta>, a: seq<ProjectionDelta>, b: seq<ProjectionDelta>) {
    if |m| == 0 then |a| == 0 && |b| == 0
    else
      || (|a| > 0 && m[|m| - 1] == a[|a| - 1] && Shuffle(m[..|m| - 1], a[..|a| - 1], b))
      || (|b| > 0 && m[|m| - 1] == b[|b| - 1] && Shuffle(m[..|m| - 1], a, b[..|b| - 1]))
  }

  lemma {:induction false} ShuffleMembers(m: seq<ProjectionDelta>, a: seq<ProjectionDelta>, b: seq<ProjectionDelta>)
    requires Shuffle(m, a, b)
    ensures forall d :: d in m <==> d in a || d in b
  {
    if |m| > 0 {
      var front, last := m[..|m| - 1], m[|m| - 1];
      assert m == front + [last];
      if |a| > 0 && last == a[|a| - 1] && Shuffle(front, a[..|a| - 1], b) {
        ShuffleMembers(front, a[..|a| - 1], b);
        assert a == a[..|a| - 1] + [last];
      } else {
        ShuffleMembers(front, a, b[..|b| - 1]);
        assert b == b[..|b| - 1] + [last];
      }
    }
  }

  /** Span `spanId`'s rows come from `a` alone and every other span's from `b` alone. */
  lemma {:induction false} ShuffleBody(m: seq<ProjectionDelta>, a: seq<ProjectionDelta>, b: seq<ProjectionDelta>, tid: string, spanId: string, s: string)
    requires Shuffle(m, a, b)
    requires forall d :: d in a ==> d.snapshotId == Some(spanId) || d.snapshotId.None?
    requires forall d :: d in b ==> d.snapshotId != Some(spanId)
    ensures Body(m, tid, s) == if s == spanId then Body(a, tid, s) else Body(b, tid, s)
  {
    if |m| > 0 {
      var front, last := m[..|m| - 1], m[|m| - 1];
      if |a| > 0 && last == a[|a| - 1] && Shuffle(front, a[..|a| - 1], b) {
        assert last in a;
        ShuffleBody(front, a[..|a| - 1], b, tid, spanId, s);
      } else {
        assert last in b;
        ShuffleBody(front, a, b[..|b| - 1], tid, spanId, s);
      }
    }
  }

  function IfActs(d: ProjectionDelta, tid: string): seq<ProjectionDelta> {
    if Acts(d, tid) then [d] else []
  }

  lemma ActingLast(q: seq<ProjectionDelta>, d: ProjectionDelta, tid: string)
    ensures Acting(q + [d], tid) == Acting(q, tid) + IfActs(d, tid)
  {
    assert (q + [d])[..|q|] == q;
  }

  lemma SplitWhole(b: seq<ProjectionDelta>, k: nat, tid: string)
    requires k <= |b|
    ensures Acting(b[..k], tid) + Acting(b[k..], tid) == Acting(b, tid)
  {
    ActingConcat(b[..k], b[k..], tid);
    assert b[..k] + b[k..] == b;
  }

  /** A row of the other writer at the end joins the part behind the split. */
  lemma SplitExtends(b: seq<ProjectionDelta>, k: nat, head: seq<ProjectionDelta>, tid: string)
    requires k < |b|
    ensures var shorter, last := b[..|b| - 1], b[|b| - 1];
            Acting(shorter[..k], tid) + head + Acting(shorter[k..], tid) + IfActs(last, tid)
            == Acting(b[..k], tid) + head + Acting(b[k..], tid)
  {
    var shorter, last := b[..|b| - 1], b[|b| - 1];
    assert shorter[..k] == b[..k] && b[k..] == shorter[k..] + [last];
    ActingLast(shorter[k..], last, tid);
  }

  /** Of the span only the begin marker acts, so it splits the other writer's rows in two. */
  lemma {:induction false} ShuffleActing(m: seq<ProjectionDelta>, a: seq<ProjectionDelta>, b: seq<ProjectionDelta>, tid: string)
    returns (k: nat)
    requires Shuffle(m, a, b)
    requires forall i :: 0 <= i < |a| ==> (Acts(a[i], tid) <==> i == 0)
    ensures k <= |b|
    ensures Acting(m, tid) == Acting(b[..k], tid) + a[..if |a| > 0 then 1 else 0] + Acting(b[k..], tid)
  {
    if |m| == 0 {
      k := 0;
    } else {
      var front, last := m[..|m| - 1], m[|m| - 1];
      assert Acting(m, tid) == Acting(front, tid) + IfActs(last, tid);
      if |a| > 0 && last == a[|a| - 1] && Shuffle(front, a[..|a| - 1], b) {
        k := ShuffleActing(front, a[..|a| - 1], b, tid);
        if |a| == 1 {
          SplitWhole(b, k, tid);
          SplitWhole(b, |b|, tid);
          k := |b|;
          assert b[..k] == b && a[..1] == [last];
        } else {
          assert a[..|a| - 1][..1] == a[..1];
        }
      } else {
        k := ShuffleActing(front, a, b[..|b| - 1], tid);
        SplitExtends(b, k, a[..if |a| > 0 then 1 else 0], tid);
      }
    }
  }

  /**
   However a span's rows are shuffled with another writer's, the replay is that of the span standing whole at its
   begin marker.
   */
  lemma SpanMayInterleave(
    q: seq<ProjectionDelta>, m: seq<ProjectionDelta>, tid: string, region: Region, spanId: string,
    body: seq<ProjectionDelta>, others: seq<ProjectionDelta>)
    returns (k: nat)
    requires forall d :: d in body ==> BodyRow(d, tid, spanId) && d.op != SnapshotBegin && d.op != SnapshotEnd
    requires forall d :: d in q ==> Outside(d, spanId)
    requires forall d :: d in others ==> Outside(d, spanId)
    requires MarkersKeyed(q) && MarkersKeyed(others)
    requires Shuffle(m, SpanOf(tid, region, spanId, body), others)
    ensures k <= |others|
    ensures forall id :: Replay(q + m, tid, id)
                      == Replay(q + others[..k] + SpanOf(tid, region, spanId, body) + others[k..], tid, id)
  {
    var span := SpanOf(tid, region, spanId, body);
    SpanRows(tid, region, spanId, body);
    k := ShuffleActing(m, span, others, tid);
    assert span[..1] == [span[0]];
    SameActing(q, m, span, tid, others, k);
    assert q + (others[..k] + span + others[k..]) == q + others[..k] + span + others[k..];
    forall id ensures Replay(q + m, tid, id) == Replay(q + (others[..k] + span + others[k..]), tid, id) {
      InterleavedReplay(q, m, tid, spanId, span, others, k, id);
    }
  }

  lemma InterleavedReplay(
    q: seq<ProjectionDelta>, m: seq<ProjectionDelta>, tid: string, spanId: string, span: seq<ProjectionDelta>,
    others: seq<ProjectionDelta>, k: nat, id: RowId)
    requires k <= |others| && Shuffle(m, span, others) && MarkersKeyed(q) && MarkersKeyed(others)
    requires forall d :: d in span ==> d.snapshotId == Some(spanId) || d.snapshotId.None?
    requires forall d :: d in span && d.op == SnapshotEnd ==> d.key.Span?
    requires forall d :: d in others ==> d.snapshotId != Some(spanId)
    requires Acting(q + m, tid) == Acting(q + (others[..k] + span + others[k..]), tid)
    ensures Replay(q + m, tid, id) == Replay(q + (others[..k] + span + others[k..]), tid, id)
  {
    var whole := others[..k] + span + others[k..];
    SameSpans(q, m, whole, span, tid, spanId, others, k);
    ShuffleMembers(m, span, others);
    ShuffledMarkers(q, m, span, others);
    ShuffledMarkers(q, whole, span, others);
    SameReplay(q + m, q + whole, tid, id);
  }

  lemma SameReplay(q: seq<ProjectionDelta>, r: seq<ProjectionDelta>, tid: string, id: RowId)
    requires MarkersKeyed(q) && MarkersKeyed(r)
    requires Acting(q, tid) == Acting(r, tid)
    requires forall s: string :: Body(q, tid, s) == Body(r, tid, s)
    requires forall s: string :: Complete(q, tid, s) == Complete(r, tid, s)
    ensures Replay(q, tid, id) == Replay(r, tid, id)
  {
    ReplayIsActing(q, |q|, tid, id);
    ReplayIsActing(r, |r|, tid, id);
    assert q[..|q|] == q && r[..|r|] == r;
    SameConsume(q, r, Acting(q, tid), tid, id);
  }

  lemma SpanRows(tid: string, region: Region, spanId: string, body: seq<ProjectionDelta>)
    requires forall d :: d in body ==> BodyRow(d, tid, spanId) && d.op != SnapshotBegin && d.op != SnapshotEnd
    ensures forall i :: 0 <= i < |SpanOf(tid, region, spanId, body)| ==>
              (Acts(SpanOf(tid, region, spanId, body)[i], tid) <==> i == 0)
    ensures forall d :: d in SpanOf(tid, region, spanId, body) ==> d.snapshotId == Some(spanId) || d.snapshotId.None?
    ensures forall d :: d in SpanOf(tid, region, spanId, body) && d.op == SnapshotEnd ==> d.key.Span?
    ensures forall d :: d in SpanOf(tid, region, spanId, body) && d.key.Span? ==> d.key == Span(spanId)
  {
    var span := SpanOf(tid, region, spanId, body);
    forall i | 0 <= i < |span| ensures Acts(span[i], tid) <==> i == 0 {
      if 1 <= i <= |body| {
        assert span[i] == body[i - 1];
      }
    }
    forall d | d in span
      ensures (d.snapshotId == Some(spanId) || d.snapshotId.None?) && (d.op == SnapshotEnd ==> d.key.Span?)
      ensures d.key.Span? ==> d.key == Span(spanId)
    {
      var i :| 0 <= i < |span| && span[i] == d;
      if 1 <= i <= |body| {
        assert span[i] == body[i - 1];
      }
    }
  }

  lemma ShuffledMarkers(q: seq<ProjectionDelta>, m: seq<ProjectionDelta>, span: seq<ProjectionDelta>, others: seq<ProjectionDelta>)
    requires MarkersKeyed(q) && MarkersKeyed(others)
    requires forall d :: d in span && d.op == SnapshotEnd ==> d.key.Span?
    requires forall d :: d in m ==> d in span || d in others
    ensures MarkersKeyed(q + m)
  {
    forall i | 0 <= i < |q + m| && (q + m)[i].op == SnapshotEnd ensures (q + m)[i].key.Span? {
      if i >= |q| {
        assert (q + m)[i] in m;
      }
    }
  }

  lemma SameActing(
    q: seq<ProjectionDelta>, m: seq<ProjectionDelta>, span: seq<ProjectionDelta>, tid: string,
    others: seq<ProjectionDelta>, k: nat)
    requires k <= |others| && |span| > 0
    requires forall i :: 0 <= i < |span| ==> (Acts(span[i], tid) <==> i == 0)
    requires Acting(m, tid) == Acting(others[..k], tid) + [span[0]] + Acting(others[k..], tid)
    ensures Acting(q + m, tid) == Acting(q + (others[..k] + span + others[k..]), tid)
  {
    OnlyFirstActs(span, tid);
    ActingConcat(others[..k] + span, others[k..], tid);
    ActingConcat(others[..k], span, tid);
    ActingConcat(q, m, tid);
    ActingConcat(q, others[..k] + span + others[k..], tid);
  }

  lemma {:induction false} OnlyFirstActs(a: seq<ProjectionDelta>, tid: string)
    requires |a| > 0
    requires forall i :: 0 <= i < |a| ==> (Acts(a[i], tid) <==> i == 0)
    ensures Acting(a, tid) == [a[0]]
  {
    if |a| > 1 {
      OnlyFirstActs(a[..|a| - 1], tid);
    } else {
      assert a[..0] == [];
    }
  }

  lemma WholeBody(
    before: seq<ProjectionDelta>, span: seq<ProjectionDelta>, after: seq<ProjectionDelta>, tid: string, spanId: string, s: string)
    requires forall d :: d in span ==> d.snapshotId == Some(spanId) || d.snapshotId.None?
    requires forall d :: d in before + after ==> d.snapshotId != Some(spanId)
    ensures Body(before + span + after, tid, s) == if s == spanId then Body(span, tid, s) else Body(before + after, tid, s)
  {
    BodyConcat(before + span, after, tid, s);
    BodyConcat(before, span, tid, s);
    if s == spanId {
      BodyEmpty(before, tid, s);
      BodyEmpty(after, tid, s);
    } else {
      BodyEmpty(span, tid, s);
      BodyConcat(before, after, tid, s);
    }
  }

  /** Both orders hold the same rows of every span. */
  lemma SameBody(
    q: seq<ProjectionDelta>, m: seq<ProjectionDelta>, span: seq<ProjectionDelta>, tid: string, spanId: string,
    others: seq<ProjectionDelta>, k: nat, s: string)
    requires k <= |others| && Shuffle(m, span, others)
    requires forall d :: d in span ==> d.snapshotId == Some(spanId) || d.snapshotId.None?
    requires forall d :: d in others ==> d.snapshotId != Some(spanId)
    ensures Body(q + m, tid, s) == Body(q + (others[..k] + span + others[k..]), tid, s)
  {
    var whole := others[..k] + span + others[k..];
    BodyConcat(q, m, tid, s);
    BodyConcat(q, whole, tid, s);
    ShuffleBody(m, span, others, tid, spanId, s);
    assert others[..k] + others[k..] == others;
    WholeBody(others[..k], span, others[k..], tid, spanId, s);
  }

  /** Both orders hold the same spans, and complete ones stay complete. */
  lemma SameSpans(
    q: seq<ProjectionDelta>, m: seq<ProjectionDelta>, whole: seq<ProjectionDelta>, span: seq<ProjectionDelta>,
    tid: string, spanId: string, others: seq<ProjectionDelta>, k: nat)
    requires k <= |others| && whole == others[..k] + span + others[k..]
    requires Shuffle(m, span, others)
    requires forall d :: d in span ==> d.snapshotId == Some(spanId) || d.snapshotId.None?
    requires forall d :: d in others ==> d.snapshotId != Some(spanId)
    ensures forall s: string :: Body(q + m, tid, s) == Body(q + whole, tid, s)
    ensures forall s: string :: Complete(q + m, tid, s) == Complete(q + whole, tid, s)
    ensures forall d :: d in whole <==> d in span || d in others
  {
    ShuffleMembers(m, span, others);
    assert others == others[..k] + others[k..];
    assert forall d :: d in m <==> d in whole;
    forall s: string ensures Body(q + m, tid, s) == Body(q + whole, tid, s) {
      SameBody(q, m, span, tid, spanId, others, k, s);
    }
    forall s: string ensures Complete(q + m, tid, s) == Complete(q + whole, tid, s) {
      SameEnds(q, m, whole, tid, s, |Body(q + m, tid, s)|);
      SameEnds(q, whole, m, tid, s, |Body(q + m, tid, s)|);
    }
  }

  lemma SameEnds(q: seq<ProjectionDelta>, m: seq<ProjectionDelta>, r: seq<ProjectionDelta>, tid: string, s: string, count: nat)
    requires forall d :: d in m ==> d in r
    ensures (exists i :: 0 <= i < |q + m| && Ends((q + m)[i], tid, s, count))
        ==> (exists i :: 0 <= i < |q + r| && Ends((q + r)[i], tid, s, count))
  {
    if i :| 0 <= i < |q + m| && Ends((q + m)[i], tid, s, count) {
      if i < |q| {
        assert (q + r)[i] == q[i];
      } else {
        assert m[i - |q|] in m;
        var j :| 0 <= j < |r| && r[j] == m[i - |q|];
        assert (q + r)[|q| + j] == r[j];
      }
    }
  }
}
