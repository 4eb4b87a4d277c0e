/** The in-memory human-approval queue (app/approval/queue.py). */
module ApprovalQueues {
  import opened JsonValues
  import Scorer

  /** A params dict is held by reference: this is the reference. */
  type Ref = nat

  datatype PendingRequest = PendingRequest(
    requestId: string,
    identity: string,
    role: string,
    action: string,
    resource: string,
    namespace: string,
    params: Ref,
    risk: Scorer.RiskScore,
    queuedAt: string)

  /** An entry of the dict that `to_dict` gives: the params dict is put in by reference. */
  datatype Entry = Text(text: string) | Number(n: int) | Texts(texts: seq<string>) | Params(ref: Ref)

  type Row = seq<(string, Entry)>

  function ToDict(r: PendingRequest): Row {
    [ ("request_id", Text(r.requestId)),
      ("identity", Text(r.identity)),
      ("role", Text(r.role)),
      ("action", Text(r.action)),
      ("resource", Text(r.resource)),
      ("namespace", Text(r.namespace)),
      ("params", Params(r.params)),
      ("risk_level", Text(r.risk.level)),
      ("risk_score", Number(r.risk.score)),
      ("risk_reasons", Texts(r.risk.reasons)),
      ("queued_at", Text(r.queuedAt)) ]
  }

  /** A row loses nothing of its request. */
  lemma ToDictInjective(a: PendingRequest, b: PendingRequest)
    requires ToDict(a) == ToDict(b)
    ensures a == b
  {
    var x, y := ToDict(a), ToDict(b);
    assert forall i :: 0 <= i < 11 ==> x[i].1 == y[i].1;
  }

  type Contents = seq<PendingRequest>

  // ----- The sequential specification: an ordered sequence of requests -----

  predicate DistinctIds(q: Contents) {
    forall i, j :: 0 <= i < j < |q| ==> q[i].requestId != q[j].requestId
  }

  predicate Queued(q: Contents, id: string) {
    exists i :: 0 <= i < |q| && q[i].requestId == id
  }

  /** Storing under a key that is present keeps its place; a new key goes to the end. */
  function Put(q: Contents, r: PendingRequest): Contents {
    if q == [] then [r]
    else if q[0].requestId == r.requestId then [r] + q[1..]
    else [q[0]] + Put(q[1..], r)
  }

  function Find(q: Contents, id: string): Option<PendingRequest> {
    if q == [] then None
    else if q[0].requestId == id then Some(q[0])
    else Find(q[1..], id)
  }

  function Without(q: Contents, id: string): Contents {
    if q == [] then []
    else if q[0].requestId == id then Without(q[1..], id)
    else [q[0]] + Without(q[1..], id)
  }

  lemma {:induction false} PutNew(q: Contents, r: PendingRequest)
    requires !Queued(q, r.requestId)
    ensures Put(q, r) == q + [r]
  {
    if q == [] {
    } else {
      assert q[0].requestId != r.requestId;
      assert forall i :: 0 <= i < |q[1..]| ==> q[1..][i] == q[i + 1];
      PutNew(q[1..], r);
    }
  }

  lemma {:induction false} PutAt(q: Contents, r: PendingRequest, k: nat)
    requires k < |q| && DistinctIds(q) && q[k].requestId == r.requestId
    ensures Put(q, r) == q[k := r]
  {
    if k == 0 {
    } else {
      assert q[0].requestId != q[k].requestId;
      PutAt(q[1..], r, k - 1);
    }
  }

  lemma {:induction false} WithoutAbsent(q: Contents, id: string)
    requires !Queued(q, id)
    ensures Without(q, id) == q && Find(q, id) == None
  {
    if q == [] {
    } else {
      assert q[0].requestId != id;
      assert forall i :: 0 <= i < |q[1..]| ==> q[1..][i] == q[i + 1];
      WithoutAbsent(q[1..], id);
    }
  }

  lemma {:induction false} WithoutAt(q: Contents, id: string, k: nat)
    requires k < |q| && DistinctIds(q) && q[k].requestId == id
    ensures Without(q, id) == q[..k] + q[k + 1..] && Find(q, id) == Some(q[k])
  {
    if k == 0 {
      assert forall i :: 0 <= i < |q[1..]| ==> q[1..][i] == q[i + 1];
      WithoutAbsent(q[1..], id);
    } else {
      assert q[0].requestId != q[k].requestId;
      WithoutAt(q[1..], id, k - 1);
    }
  }

  lemma {:induction false} WithoutMembers(q: Contents, id: string)
    ensures forall r :: r in Without(q, id) <==> r in q && r.requestId != id
  {
    if q == [] {
    } else {
      assert q == [q[0]] + q[1..];
      WithoutMembers(q[1..], id);
    }
  }

  lemma {:induction false} WithoutDistinct(q: Contents, id: string)
    requires DistinctIds(q)
    ensures DistinctIds(Without(q, id))
  {
    if q == [] {
    } else {
      WithoutDistinct(q[1..], id);
      WithoutMembers(q[1..], id);
      if q[0].requestId != id {
        var rest := Without(q[1..], id);
        forall i | 0 <= i < |rest|
          ensures rest[i].requestId != q[0].requestId
        {
          assert rest[i] in q[1..];
        }
      }
    }
  }

  /** Both effects of taking a request out, by membership. */
  lemma Taking(q: Contents, id: string)
    requires DistinctIds(q)
    ensures DistinctIds(Without(q, id)) && !Queued(Without(q, id), id)
    ensures forall r :: r in Without(q, id) <==> r in q && r.requestId != id
    ensures Find(q, id).Some? <==> Queued(q, id)
    ensures Find(q, id).Some? ==> Find(q, id).value in q && Find(q, id).value.requestId == id
  {
    WithoutMembers(q, id);
    WithoutDistinct(q, id);
    var rest := Without(q, id);
    assert forall i :: 0 <= i < |rest| ==> rest[i] in rest;
    if Queued(q, id) {
      var k :| 0 <= k < |q| && q[k].requestId == id;
      WithoutAt(q, id, k);
    } else {
      WithoutAbsent(q, id);
    }
  }

  // ----- The queue: an insertion-ordered dict -----

  type Table = map<string, PendingRequest>

  ghost predicate IsDict(order: seq<string>, table: Table) {
    && (forall i :: 0 <= i < |order| ==> order[i] in table && table[order[i]].requestId == order[i])
    && (forall id :: id in table ==> id in order)
    && (forall i, j :: 0 <= i < j < |order| ==> order[i] != order[j])
  }

  /** The values in insertion order. */
  ghost function Values(order: seq<string>, table: Table): (q: Contents)
    requires IsDict(order, table)
    ensures |q| == |order| && DistinctIds(q)
    ensures forall i :: 0 <= i < |order| ==> q[i] == table[order[i]]
  {
    seq(|order|, i requires 0 <= i < |order| => table[order[i]])
  }

  lemma AbsentFromDict(order: seq<string>, table: Table, id: string)
    requires IsDict(order, table) && id !in table
    ensures !Queued(Values(order, table), id)
  {
  }

  lemma DictAppend(order: seq<string>, table: Table, r: PendingRequest)
    requires IsDict(order, table) && r.requestId !in table
    ensures var order', table' := order + [r.requestId], table[r.requestId := r];
            IsDict(order', table') && Values(order', table') == Put(Values(order, table), r)
  {
    AbsentFromDict(order, table, r.requestId);
    PutNew(Values(order, table), r);
    assert Values(order + [r.requestId], table[r.requestId := r]) == Values(order, table) + [r];
  }

  lemma DictStays(order: seq<string>, table: Table, r: PendingRequest)
    requires IsDict(order, table) && r.requestId in table
    ensures IsDict(order, table[r.requestId := r])
  {
  }

  lemma DictReplace(order: seq<string>, table: Table, r: PendingRequest)
    requires IsDict(order, table) && r.requestId in table
    ensures var table' := table[r.requestId := r];
            IsDict(order, table') && Values(order, table') == Put(Values(order, table), r)
  {
    DictStays(order, table, r);
    var q, q' := Values(order, table), Values(order, table[r.requestId := r]);
    var k :| 0 <= k < |order| && order[k] == r.requestId;
    PutAt(q, r, k);
    forall i | 0 <= i < |order|
      ensures q'[i] == q[k := r][i]
    {
      assert i != k ==> order[i] != r.requestId;
    }
  }

  lemma OrderRemove(order: seq<string>, k: nat, order': seq<string>)
    requires k < |order| && order' == order[..k] + order[k + 1..]
    requires forall i, j :: 0 <= i < j < |order| ==> order[i] != order[j]
    ensures forall i :: 0 <= i < |order'| ==> order'[i] == order[if i < k then i else i + 1]
    ensures forall x :: x in order' <==> x in order && x != order[k]
    ensures forall i, j :: 0 <= i < j < |order'| ==> order'[i] != order'[j]
  {
    assert order == order[..k] + [order[k]] + order[k + 1..];
  }

  lemma DictStill(order: seq<string>, table: Table, k: nat, order': seq<string>, table': Table)
    requires IsDict(order, table) && k < |order|
    requires order' == order[..k] + order[k + 1..] && table' == table - {order[k]}
    ensures IsDict(order', table')
  {
    OrderRemove(order, k, order');
    forall i | 0 <= i < |order'|
      ensures order'[i] in table' && table'[order'[i]].requestId == order'[i]
    {
      assert order'[i] in order';
    }
  }

  lemma RemovedAt(q: Contents, k: nat, i: nat)
    requires k < |q| && i < |q| - 1
    ensures (q[..k] + q[k + 1..])[i] == q[if i < k then i else i + 1]
  {
  }

  lemma DictRemove(order: seq<string>, table: Table, id: string, k: nat, order': seq<string>, table': Table)
    requires IsDict(order, table) && k < |order| && order[k] == id
    requires order' == order[..k] + order[k + 1..] && table' == table - {id}
    ensures IsDict(order', table') && Values(order', table') == Without(Values(order, table), id)
  {
    DictStill(order, table, k, order', table');
    var q, q' := Values(order, table), Values(order', table');
    WithoutAt(q, id, k);
    OrderRemove(order, k, order');
    var rest := q[..k] + q[k + 1..];
    forall i | 0 <= i < |order'|
      ensures q'[i] == rest[i]
    {
      RemovedAt(q, k, i);
    }
    assert q' == rest;
  }

  lemma DictLookup(order: seq<string>, table: Table, id: string)
    requires IsDict(order, table)
    ensures Find(Values(order, table), id) == if id in table then Some(table[id]) else None
  {
    if id in table {
      var k :| 0 <= k < |order| && order[k] == id;
      WithoutAt(Values(order, table), id, k);
    } else {
      AbsentFromDict(order, table, id);
      WithoutAbsent(Values(order, table), id);
    }
  }

  class ApprovalQueue {
    var order: seq<string>
    var table: Table

    ghost predicate Valid()
      reads this
    {
      IsDict(order, table)
    }

    ghost function View(): (q: Contents)
      requires Valid()
      reads this
      ensures DistinctIds(q)
    {
      Values(order, table)
    }

    constructor ()
      ensures Valid() && View() == []
    {
      order, table := [], map[];
    }

    method Enqueue(request: PendingRequest) returns (id: string)
      requires Valid()
      modifies this
      ensures Valid() && View() == Put(old(View()), request) && id == request.requestId
    {
      id := request.requestId;
      if id in table {
        DictReplace(order, table, request);
        table := table[id := request];
      } else {
        DictAppend(order, table, request);
        order, table := order + [id], table[id := request];
      }
    }

    method ListPending() returns (rows: seq<Row>)
      requires Valid()
      ensures |rows| == |View()| && forall i :: 0 <= i < |rows| ==> rows[i] == ToDict(View()[i])
    {
      rows := [];
      for i := 0 to |order|
        invariant |rows| == i && forall k :: 0 <= k < i ==> rows[k] == ToDict(View()[k])
      {
        rows := rows + [ToDict(table[order[i]])];
      }
    }

    method Resolve(id: string) returns (taken: Option<PendingRequest>)
      requires Valid()
      modifies this
      ensures Valid() && taken == Find(old(View()), id) && View() == Without(old(View()), id)
    {
      DictLookup(order, table, id);
      if id !in table {
        AbsentFromDict(order, table, id);
        WithoutAbsent(View(), id);
        return None;
      }
      var k := IndexOf(id);
      DictRemove(order, table, id, k, order[..k] + order[k + 1..], table - {id});
      taken := Some(table[id]);
      order, table := order[..k] + order[k + 1..], table - {id};
    }

    method IndexOf(id: string) returns (k: nat)
      requires Valid() && id in table
      ensures k < |order| && order[k] == id
    {
      k := 0;
      while order[k] != id
        invariant k < |order| && id in order[k..]
        decreases |order| - k
      {
        assert order[k..] == [order[k]] + order[k + 1..];
        k := k + 1;
      }
    }

    method Peek(id: string) returns (found: Option<PendingRequest>)
      requires Valid()
      ensures found == Find(View(), id)
    {
      DictLookup(order, table, id);
      found := if id in table then Some(table[id]) else None;
    }

    method Size() returns (n: nat)
      requires Valid()
      ensures n == |View()|
    {
      n := |order|;
    }
  }

  // ----- Histories of operations -----

  datatype Op = Enqueue(request: PendingRequest) | List | Resolve(id: string) | Peek(id: string) | Size

  datatype Result = Id(id: string) | Listed(items: Contents) | Found(request: Option<PendingRequest>) | Count(n: nat)

  function Effect(q: Contents, op: Op): Contents {
    match op
    case Enqueue(r) => Put(q, r)
    case Resolve(id) => Without(q, id)
    case _ => q
  }

  function Answer(q: Contents, op: Op): Result {
    match op
    case Enqueue(r) => Id(r.requestId)
    case List => Listed(q)
    case Resolve(id) => Found(Find(q, id))
    case Peek(id) => Found(Find(q, id))
    case Size => Count(|q|)
  }

  /** The contents after a sequence of operations on an empty queue. */
  function Replay(ops: seq<Op>): Contents {
    if ops == [] then [] else Effect(Replay(ops[..|ops| - 1]), ops[|ops| - 1])
  }

  /** The requests enqueued, in order. */
  function EnqueuedBy(ops: seq<Op>): Contents {
    if ops == [] then [] else
      var last := ops[|ops| - 1];
      EnqueuedBy(ops[..|ops| - 1]) + (if last.Enqueue? then [last.request] else [])
  }

  /** The ids handed out by a successful resolve, in order. */
  function HandedOut(ops: seq<Op>): seq<string> {
    if ops == [] then [] else
      var front, last := ops[..|ops| - 1], ops[|ops| - 1];
      HandedOut(front) + (if last.Resolve? && Find(Replay(front), last.id).Some? then [last.id] else [])
  }

  predicate FreshIds(ops: seq<Op>) {
    DistinctIds(EnqueuedBy(ops))
  }

  predicate NoRepeats(ids: seq<string>) {
    forall i, j :: 0 <= i < j < |ids| ==> ids[i] != ids[j]
  }

  function Keep(q: Contents, gone: seq<string>): Contents {
    if q == [] then [] else
      var last := q[|q| - 1];
      Keep(q[..|q| - 1], gone) + (if last.requestId in gone then [] else [last])
  }

  lemma {:induction false} KeepMembers(q: Contents, gone: seq<string>)
    ensures forall r :: r in Keep(q, gone) <==> r in q && r.requestId !in gone
    ensures DistinctIds(q) ==> DistinctIds(Keep(q, gone))
  {
    if q == [] {
    } else {
      assert q == q[..|q| - 1] + [q[|q| - 1]];
      KeepMembers(q[..|q| - 1], gone);
    }
  }

  lemma {:induction false} WithoutAppends(a: Contents, r: PendingRequest, id: string)
    ensures Without(a + [r], id) == Without(a, id) + (if r.requestId == id then [] else [r])
  {
    if a == [] {
      assert a + [r] == [r];
    } else {
      assert (a + [r])[1..] == a[1..] + [r];
      WithoutAppends(a[1..], r, id);
    }
  }

  lemma {:induction false} KeepOneLess(q: Contents, gone: seq<string>, id: string)
    ensures Keep(q, gone + [id]) == Without(Keep(q, gone), id)
  {
    if q == [] {
    } else {
      var front, last := q[..|q| - 1], q[|q| - 1];
      assert last.requestId in gone + [id] <==> last.requestId in gone || last.requestId == id;
      KeepOneLess(front, gone, id);
      if last.requestId in gone {
        assert Keep(q, gone) == Keep(front, gone);
      } else {
        WithoutAppends(Keep(front, gone), last, id);
      }
    }
  }

  /** The invariant of a history with fresh ids. */
  ghost predicate Ordered(ops: seq<Op>) {
    && Replay(ops) == Keep(EnqueuedBy(ops), HandedOut(ops))
    && (forall id :: id in HandedOut(ops) ==> Queued(EnqueuedBy(ops), id))
    && NoRepeats(HandedOut(ops))
  }

  lemma AfterEnqueue(front: seq<Op>, r: PendingRequest, ops: seq<Op>)
    requires ops == front + [Enqueue(r)] && FreshIds(ops) && Ordered(front)
    ensures Ordered(ops)
  {
    var e, gone := EnqueuedBy(front), HandedOut(front);
    assert ops[..|ops| - 1] == front;
    assert EnqueuedBy(ops) == e + [r] && HandedOut(ops) == gone;
    assert !Queued(e, r.requestId) by {
      assert forall i :: 0 <= i < |e| ==> (e + [r])[i] == e[i];
      assert (e + [r])[|e|] == r;
    }
    KeepMembers(e, gone);
    assert !Queued(Replay(front), r.requestId);
    PutNew(Replay(front), r);
    assert (e + [r])[..|e|] == e;
    forall id | id in gone
      ensures Queued(e + [r], id)
    {
      var i :| 0 <= i < |e| && e[i].requestId == id;
      assert (e + [r])[i].requestId == id;
    }
  }

  lemma AfterResolve(front: seq<Op>, id: string, ops: seq<Op>)
    requires ops == front + [Resolve(id)] && DistinctIds(EnqueuedBy(front)) && Ordered(front)
    ensures Ordered(ops)
  {
    var e, gone := EnqueuedBy(front), HandedOut(front);
    assert ops[..|ops| - 1] == front;
    assert EnqueuedBy(ops) == e;
    KeepMembers(e, gone);
    Taking(Replay(front), id);
    if Find(Replay(front), id).Some? {
      KeepOneLess(e, gone, id);
      assert Find(Replay(front), id).value in e;
      assert id !in gone;
    } else {
      WithoutAbsent(Replay(front), id);
      assert HandedOut(ops) == gone;
    }
  }

  lemma {:induction false} HistoryOrdered(ops: seq<Op>)
    requires FreshIds(ops)
    ensures Ordered(ops)
  {
    if ops == [] {
    } else {
      var front, last := ops[..|ops| - 1], ops[|ops| - 1];
      assert ops == front + [last];
      assert EnqueuedBy(ops)[..|EnqueuedBy(front)|] == EnqueuedBy(front);
      assert forall i :: 0 <= i < |EnqueuedBy(front)| ==> EnqueuedBy(ops)[i] == EnqueuedBy(front)[i];
      HistoryOrdered(front);
      if last.Enqueue? {
        AfterEnqueue(front, last.request, ops);
      } else if last.Resolve? {
        AfterResolve(front, last.id, ops);
      } else {
        assert EnqueuedBy(ops) == EnqueuedBy(front) && HandedOut(ops) == HandedOut(front);
      }
    }
  }

  /** With fresh ids the queue is always the enqueue order without the ids already handed out, and no id is
      handed out twice. */
  lemma QueueIsOrderedRemainder(ops: seq<Op>)
    requires FreshIds(ops)
    ensures Replay(ops) == Keep(EnqueuedBy(ops), HandedOut(ops)) && NoRepeats(HandedOut(ops))
    ensures Answer(Replay(ops), List) == Listed(Keep(EnqueuedBy(ops), HandedOut(ops)))
    ensures Answer(Replay(ops), Size) == Count(|Keep(EnqueuedBy(ops), HandedOut(ops))|)
  {
    HistoryOrdered(ops);
  }
}
