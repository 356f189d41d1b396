/**
 * Callback bookkeeping for the asynchronous operations. Every request gets
 * an identity; the callbacks invoked so far form a log, and the stores'
 * pending operations say which callbacks are still owed. `Consistent` is
 * the promise the orchestrator keeps: a single load's callback is owed
 * exactly once, a directory load's once after all its entries, an
 * asynchronous unload's once per container it unloads.
 */
module Completion {
  import opened Wrappers
  import opened Stores

  /** One invocation of a caller's callback. */
  datatype Invocation =
    | Delivered(req: nat, obj: Option<Obj>)
    | DirectoryDone(req: nat)
    | UnloadDone(req: nat)

  /** What a request owes its caller. */
  datatype RequestKind =
    /** `LoadAsync`: one object delivery. */
    | Single
    /** `LoadDirAsync` over a bundle: one completion after `target` entries have finished. */
    | Directory(target: nat)
    /** `LoadDirAsync` over a Resources asset: nothing, ever. */
    | Unsupported
    /** `UnloadAsync`: one completion per container unloaded. */
    | UnloadAll(expected: nat)

  /** How many times the callback of `r` appears in the log. */
  function Deliveries(log: seq<Invocation>, r: nat): nat {
    if log == [] then 0
    else Deliveries(log[..|log| - 1], r) + (if log[|log| - 1].req == r then 1 else 0)
  }

  /** How many pending operations will invoke the callback of `r`. */
  function PendingFor(ops: seq<PendingOp>, r: nat): nat {
    if ops == [] then 0
    else PendingFor(ops[..|ops| - 1], r) + (if OpRequest(ops[|ops| - 1]) == r then 1 else 0)
  }

  lemma DeliveriesAppend(log: seq<Invocation>, x: Invocation, r: nat)
    ensures Deliveries(log + [x], r) == Deliveries(log, r) + (if x.req == r then 1 else 0)
  {
    assert (log + [x])[..|log|] == log;
  }

  lemma PendingAppend(ops: seq<PendingOp>, op: PendingOp, r: nat)
    ensures PendingFor(ops + [op], r) == PendingFor(ops, r) + (if OpRequest(op) == r then 1 else 0)
  {
    assert (ops + [op])[..|ops|] == ops;
  }

  lemma {:induction false} PendingConcat(a: seq<PendingOp>, b: seq<PendingOp>, r: nat)
    ensures PendingFor(a + b, r) == PendingFor(a, r) + PendingFor(b, r)
  {
    if b == [] {
      assert a + b == a;
    } else {
      var b' := b[..|b| - 1];
      assert (a + b)[..|a + b| - 1] == a + b';
      PendingConcat(a, b', r);
    }
  }

  /** Taking the `i`-th operation out of the pending list. */
  function RemoveAt(ops: seq<PendingOp>, i: nat): (r: seq<PendingOp>)
    requires i < |ops|
    ensures |r| == |ops| - 1
    ensures forall j | 0 <= j < |r| :: r[j] == ops[if j < i then j else j + 1]
  {
    ops[..i] + ops[i + 1..]
  }

  lemma PendingRemove(ops: seq<PendingOp>, i: nat, r: nat)
    requires i < |ops|
    ensures PendingFor(RemoveAt(ops, i), r) + (if OpRequest(ops[i]) == r then 1 else 0) == PendingFor(ops, r)
  {
    assert ops == ops[..i] + [ops[i]] + ops[i + 1..];
    PendingConcat(ops[..i] + [ops[i]], ops[i + 1..], r);
    PendingAppend(ops[..i], ops[i], r);
    PendingConcat(ops[..i], ops[i + 1..], r);
  }

  /** A pending operation can only owe the kind of callback its request expects. */
  predicate Compatible(kind: RequestKind, op: PendingOp) {
    match kind
    case Single => (op.AwaitOpen? && op.continuation.EndWithObject?) || op.AwaitResource?
    case Directory(_) => op.AwaitOpen? && op.continuation.CountDirEntry?
    case Unsupported => false
    case UnloadAll(_) => op.AwaitUnload?
  }

  /** What request `r` has received, against what it is still owed. */
  ghost predicate RequestOk(
    kinds: map<nat, RequestKind>, counts: map<nat, nat>,
    log: seq<Invocation>, ops: seq<PendingOp>, r: nat)
    requires r in kinds
  {
    match kinds[r]
    case Single => Deliveries(log, r) + PendingFor(ops, r) == 1
    case Directory(target) =>
      && r in counts
      && counts[r] + PendingFor(ops, r) == target
      && Deliveries(log, r) == (if counts[r] >= target then 1 else 0)
    case Unsupported => Deliveries(log, r) == 0 && PendingFor(ops, r) == 0
    case UnloadAll(expected) => Deliveries(log, r) + PendingFor(ops, r) == expected
  }

  /**
   * Bookkeeping holds for every issued request except possibly `except`
   * (the one an operation is working on); nothing refers to an identity
   * not issued yet.
   */
  ghost predicate ConsistentExcept(
    kinds: map<nat, RequestKind>, counts: map<nat, nat>,
    log: seq<Invocation>, ops: seq<PendingOp>, next: nat, except: nat)
  {
    && (forall r: nat :: r in kinds <==> r < next)
    && (forall r | r in kinds && r != except :: RequestOk(kinds, counts, log, ops, r))
    && (forall r: nat | r >= next :: Deliveries(log, r) == 0 && PendingFor(ops, r) == 0)
    && (forall i | 0 <= i < |ops| ::
          OpRequest(ops[i]) in kinds && Compatible(kinds[OpRequest(ops[i])], ops[i]))
  }

  /** Bookkeeping holds for every request. */
  ghost predicate Consistent(
    kinds: map<nat, RequestKind>, counts: map<nat, nat>,
    log: seq<Invocation>, ops: seq<PendingOp>, next: nat)
  {
    ConsistentExcept(kinds, counts, log, ops, next, next)
  }

  /**
   * What the books promise at any moment: a single load or a directory
   * load has had its callback at most once, an unload at most once per
   * container, and a Resources directory never.
   */
  lemma NeverTwice(
    kinds: map<nat, RequestKind>, counts: map<nat, nat>,
    log: seq<Invocation>, ops: seq<PendingOp>, next: nat, r: nat)
    requires Consistent(kinds, counts, log, ops, next) && r in kinds
    ensures kinds[r].Single? || kinds[r].Directory? ==> Deliveries(log, r) <= 1
    ensures kinds[r].UnloadAll? ==> Deliveries(log, r) <= kinds[r].expected
    ensures kinds[r].Unsupported? ==> Deliveries(log, r) == 0
  {
    assert RequestOk(kinds, counts, log, ops, r);
  }

  /**
   * Once no operation of a request is pending, its callback has run
   * exactly as often as promised: once for a single or a directory load,
   * once per container for an unload.
   */
  lemma SettledExactlyOnce(
    kinds: map<nat, RequestKind>, counts: map<nat, nat>,
    log: seq<Invocation>, ops: seq<PendingOp>, next: nat, r: nat)
    requires Consistent(kinds, counts, log, ops, next) && r in kinds && PendingFor(ops, r) == 0
    ensures kinds[r].Single? || kinds[r].Directory? ==> Deliveries(log, r) == 1
    ensures kinds[r].UnloadAll? ==> Deliveries(log, r) == kinds[r].expected
  {
    assert RequestOk(kinds, counts, log, ops, r);
  }

  /** Issuing a fresh identity: it has received nothing and is owed nothing yet. */
  lemma Issue(
    kinds: map<nat, RequestKind>, counts: map<nat, nat>,
    log: seq<Invocation>, ops: seq<PendingOp>, next: nat, kind: RequestKind, c: nat)
    requires Consistent(kinds, counts, log, ops, next)
    ensures ConsistentExcept(kinds[next := kind], counts[next := c], log, ops, next + 1, next)
    ensures Deliveries(log, next) == 0 && PendingFor(ops, next) == 0
  {
    var k', c' := kinds[next := kind], counts[next := c];
    forall r | r in k' && r != next
      ensures RequestOk(k', c', log, ops, r)
    {
      assert RequestOk(kinds, counts, log, ops, r);
    }
  }

  /** Logging an invocation for `except` leaves every other request as it was. */
  lemma Invoke(
    kinds: map<nat, RequestKind>, counts: map<nat, nat>,
    log: seq<Invocation>, ops: seq<PendingOp>, next: nat, except: nat, x: Invocation)
    requires ConsistentExcept(kinds, counts, log, ops, next, except)
    requires x.req == except && except < next
    ensures ConsistentExcept(kinds, counts, log + [x], ops, next, except)
    ensures Deliveries(log + [x], except) == Deliveries(log, except) + 1
  {
    forall r | r in kinds && r != except
      ensures RequestOk(kinds, counts, log + [x], ops, r)
    {
      DeliveriesAppend(log, x, r);
      assert RequestOk(kinds, counts, log, ops, r);
    }
    forall r: nat | r >= next
      ensures Deliveries(log + [x], r) == 0
    {
      DeliveriesAppend(log, x, r);
    }
    DeliveriesAppend(log, x, except);
  }

  /** Registering an operation for `except` leaves every other request as it was. */
  lemma Register(
    kinds: map<nat, RequestKind>, counts: map<nat, nat>,
    log: seq<Invocation>, ops: seq<PendingOp>, next: nat, except: nat, op: PendingOp)
    requires ConsistentExcept(kinds, counts, log, ops, next, except)
    requires OpRequest(op) == except && except in kinds && Compatible(kinds[except], op)
    ensures ConsistentExcept(kinds, counts, log, ops + [op], next, except)
    ensures PendingFor(ops + [op], except) == PendingFor(ops, except) + 1
  {
    forall r | r in kinds && r != except
      ensures RequestOk(kinds, counts, log, ops + [op], r)
    {
      PendingAppend(ops, op, r);
      assert RequestOk(kinds, counts, log, ops, r);
    }
    forall r: nat | r >= next
      ensures PendingFor(ops + [op], r) == 0
    {
      PendingAppend(ops, op, r);
    }
    PendingAppend(ops, op, except);
  }

  /** Changing the counter of `except` leaves every other request as it was. */
  lemma Recount(
    kinds: map<nat, RequestKind>, counts: map<nat, nat>,
    log: seq<Invocation>, ops: seq<PendingOp>, next: nat, except: nat, c: nat)
    requires ConsistentExcept(kinds, counts, log, ops, next, except)
    ensures ConsistentExcept(kinds, counts[except := c], log, ops, next, except)
  {
    forall r | r in kinds && r != except
      ensures RequestOk(kinds, counts[except := c], log, ops, r)
    {
      assert RequestOk(kinds, counts, log, ops, r);
    }
  }

  /** Taking the `i`-th operation out: the request it served owes one fewer. */
  lemma Retire(
    kinds: map<nat, RequestKind>, counts: map<nat, nat>,
    log: seq<Invocation>, ops: seq<PendingOp>, next: nat, i: nat)
    requires Consistent(kinds, counts, log, ops, next)
    requires i < |ops|
    ensures ConsistentExcept(kinds, counts, log, RemoveAt(ops, i), next, OpRequest(ops[i]))
    ensures PendingFor(RemoveAt(ops, i), OpRequest(ops[i])) + 1 == PendingFor(ops, OpRequest(ops[i]))
    ensures OpRequest(ops[i]) in kinds && RequestOk(kinds, counts, log, ops, OpRequest(ops[i]))
  {
    var q := OpRequest(ops[i]);
    var ops' := RemoveAt(ops, i);
    forall r | r in kinds && r != q
      ensures RequestOk(kinds, counts, log, ops', r)
    {
      PendingRemove(ops, i, r);
      assert RequestOk(kinds, counts, log, ops, r);
    }
    forall r: nat | r >= next
      ensures PendingFor(ops', r) == 0
    {
      PendingRemove(ops, i, r);
    }
    PendingRemove(ops, i, q);
  }

  /** Once `except` is settled too, bookkeeping holds for every request. */
  lemma Settle(
    kinds: map<nat, RequestKind>, counts: map<nat, nat>,
    log: seq<Invocation>, ops: seq<PendingOp>, next: nat, except: nat)
    requires ConsistentExcept(kinds, counts, log, ops, next, except)
    requires except in kinds ==> RequestOk(kinds, counts, log, ops, except)
    ensures Consistent(kinds, counts, log, ops, next)
  {
  }

  /**
   * A pending operation of a single load or an unload finishing with its
   * callback: `log'` and `ops'` are the log with the invocation and the
   * operations without the finished one.
   */
  lemma Deliver(
    kinds: map<nat, RequestKind>, counts: map<nat, nat>,
    log: seq<Invocation>, ops: seq<PendingOp>, next: nat, i: nat, x: Invocation,
    log': seq<Invocation>, ops': seq<PendingOp>)
    requires Consistent(kinds, counts, log, ops, next)
    requires i < |ops| && !(ops[i].AwaitOpen? && ops[i].continuation.CountDirEntry?)
    requires x.req == OpRequest(ops[i])
    requires log' == log + [x] && ops' == RemoveAt(ops, i)
    ensures Consistent(kinds, counts, log', ops', next)
  {
    var q := OpRequest(ops[i]);
    Retire(kinds, counts, log, ops, next, i);
    Invoke(kinds, counts, log, ops', next, q, x);
    Settle(kinds, counts, log', ops', next, q);
  }

  /**
   * A pending open of a directory load finishing: one more entry counted
   * in `counts'`, the last one firing the callback in `log'`.
   */
  lemma CountFinished(
    kinds: map<nat, RequestKind>, counts: map<nat, nat>,
    log: seq<Invocation>, ops: seq<PendingOp>, next: nat, i: nat,
    counts': map<nat, nat>, log': seq<Invocation>, ops': seq<PendingOp>)
    requires Consistent(kinds, counts, log, ops, next)
    requires i < |ops| && ops[i].AwaitOpen? && ops[i].continuation.CountDirEntry?
    requires var q := OpRequest(ops[i]);
      && q in kinds && q in counts && kinds[q].Directory?
      && counts' == counts[q := counts[q] + 1]
      && log' == (if counts[q] + 1 >= kinds[q].target then log + [DirectoryDone(q)] else log)
    requires ops' == RemoveAt(ops, i)
    ensures Consistent(kinds, counts', log', ops', next)
  {
    var q := OpRequest(ops[i]);
    var c := counts[q] + 1;
    Retire(kinds, counts, log, ops, next, i);
    Recount(kinds, counts, log, ops', next, q, c);
    if c >= kinds[q].target {
      Invoke(kinds, counts', log, ops', next, q, DirectoryDone(q));
    }
    Settle(kinds, counts', log', ops', next, q);
  }

  /** Every pending operation of a directory load belongs to a directory request with a count. */
  lemma PendingCountOwner(
    kinds: map<nat, RequestKind>, counts: map<nat, nat>,
    log: seq<Invocation>, ops: seq<PendingOp>, next: nat, i: nat)
    requires Consistent(kinds, counts, log, ops, next)
    requires i < |ops| && ops[i].AwaitOpen? && ops[i].continuation.CountDirEntry?
    ensures var q := OpRequest(ops[i]); q in kinds && q in counts && kinds[q].Directory?
  {
    Retire(kinds, counts, log, ops, next, i);
  }

  /** The operations an asynchronous unload leaves with the bundle store: one per container. */
  function UnloadWaits(paths: seq<string>, full: bool, req: nat): (ops: seq<PendingOp>)
    ensures |ops| == |paths|
    ensures forall k | 0 <= k < |paths| :: ops[k] == AwaitUnload(paths[k], full, req)
  {
    if paths == [] then [] else UnloadWaits(paths[..|paths| - 1], full, req) + [AwaitUnload(paths[|paths| - 1], full, req)]
  }

  /** Registering the unloads of a request: it is owed one more callback per container. */
  lemma {:induction false} RegisterUnloads(
    kinds: map<nat, RequestKind>, counts: map<nat, nat>,
    log: seq<Invocation>, ops: seq<PendingOp>, next: nat, req: nat, paths: seq<string>, full: bool)
    requires ConsistentExcept(kinds, counts, log, ops, next, req)
    requires req in kinds && kinds[req].UnloadAll?
    ensures ConsistentExcept(kinds, counts, log, ops + UnloadWaits(paths, full, req), next, req)
    ensures PendingFor(ops + UnloadWaits(paths, full, req), req) == PendingFor(ops, req) + |paths|
  {
    if paths == [] {
      assert ops + UnloadWaits(paths, full, req) == ops;
    } else {
      var init := paths[..|paths| - 1];
      var op := AwaitUnload(paths[|paths| - 1], full, req);
      RegisterUnloads(kinds, counts, log, ops, next, req, init, full);
      assert ops + UnloadWaits(paths, full, req) == (ops + UnloadWaits(init, full, req)) + [op];
      Register(kinds, counts, log, ops + UnloadWaits(init, full, req), next, req, op);
    }
  }

  /** A fresh asynchronous unload over `paths`: owed one callback per container, none yet delivered. */
  lemma StartUnloads(
    kinds: map<nat, RequestKind>, counts: map<nat, nat>,
    log: seq<Invocation>, ops: seq<PendingOp>, next: nat, paths: seq<string>, full: bool,
    kinds': map<nat, RequestKind>, counts': map<nat, nat>, ops': seq<PendingOp>, next': nat)
    requires Consistent(kinds, counts, log, ops, next)
    requires kinds' == kinds[next := UnloadAll(|paths|)] && counts' == counts[next := 0]
    requires ops' == ops + UnloadWaits(paths, full, next) && next' == next + 1
    ensures Consistent(kinds', counts', log, ops', next')
    ensures PendingFor(ops', next) == |paths|
  {
    Issue(kinds, counts, log, ops, next, UnloadAll(|paths|), 0);
    RegisterUnloads(kinds', counts', log, ops, next', next, paths, full);
    Settle(kinds', counts', log, ops', next', next);
    assert RequestOk(kinds', counts', log, ops', next);
  }

  /** The operations a directory load leaves with the bundle store: one count per container it opens. */
  function DirWaits(paths: seq<string>, req: nat): (ops: seq<PendingOp>)
    ensures |ops| == |paths|
    ensures forall k | 0 <= k < |paths| :: ops[k] == AwaitOpen(paths[k], CountDirEntry(req))
  {
    if paths == [] then [] else DirWaits(paths[..|paths| - 1], req) + [AwaitOpen(paths[|paths| - 1], CountDirEntry(req))]
  }

  /**
   * The bookkeeping of a directory load `req` part-way through its walk:
   * its counter holds `count` (every other counter is as in `base`), `done`
   * non-empty entries have been visited, the containers in `started` are
   * left to an open's callback and the rest are counted. The request's own
   * callback has fired once the count reached `n`, and the log and the
   * pending operations have grown from `log0` and `ops0` by exactly that.
   */
  ghost predicate DirBooks(
    kinds: map<nat, RequestKind>, base: map<nat, nat>, count: nat, log: seq<Invocation>, ops: seq<PendingOp>,
    next: nat, req: nat, n: nat, log0: seq<Invocation>, ops0: seq<PendingOp>, started: seq<string>, done: nat)
  {
    && req < next && req in kinds && kinds[req] == Directory(n)
    && count + |started| == done
    && ops == ops0 + DirWaits(started, req)
    && log == log0 + (if n > 0 && count >= n then [DirectoryDone(req)] else [])
    && ConsistentExcept(kinds, base[req := count], log, ops, next, req)
    && Deliveries(log, req) == (if count >= n then 1 else 0)
    && PendingFor(ops, req) == |started|
  }

  /** A freshly issued directory load, already completed if it has nothing to count. */
  lemma DirBooksStart(
    kinds: map<nat, RequestKind>, base: map<nat, nat>, log: seq<Invocation>, ops: seq<PendingOp>,
    next: nat, req: nat, n: nat)
    requires req < next && req in kinds && kinds[req] == Directory(n)
    requires ConsistentExcept(kinds, base[req := 0], log, ops, next, req)
    requires Deliveries(log, req) == (if n == 0 then 1 else 0) && PendingFor(ops, req) == 0
    ensures DirBooks(kinds, base, 0, log, ops, next, req, n, log, ops, [], 0)
  {
    assert ops + DirWaits([], req) == ops;
    assert log + [] == log;
  }

  /**
   * Opening a directory request over consistent books: the request is
   * issued with a zero count, and with no non-empty entry its callback
   * fires at once.
   */
  lemma DirBooksOpen(
    kinds: map<nat, RequestKind>, counts: map<nat, nat>, log: seq<Invocation>, ops: seq<PendingOp>, next: nat,
    n: nat, kinds': map<nat, RequestKind>, counts': map<nat, nat>, log': seq<Invocation>, next': nat)
    requires Consistent(kinds, counts, log, ops, next)
    requires kinds' == kinds[next := Directory(n)] && counts' == counts[next := 0] && next' == next + 1
    requires log' == log + (if n == 0 then [DirectoryDone(next)] else [])
    ensures DirBooks(kinds', counts, 0, log', ops, next', next, n, log', ops, [], 0)
  {
    Issue(kinds, counts, log, ops, next, Directory(n), 0);
    if n == 0 {
      Invoke(kinds', counts', log, ops, next', next, DirectoryDone(next));
      assert ConsistentExcept(kinds', counts', log', ops, next', next);
    } else {
      assert log' == log;
      assert ConsistentExcept(kinds', counts', log', ops, next', next);
    }
    assert Deliveries(log', next) == (if n == 0 then 1 else 0);
    DirBooksStart(kinds', counts, log', ops, next', next, n);
  }

  /** An entry left to an open's callback: `ops'` and `started'` grow by it. */
  lemma DirBooksDefer(
    kinds: map<nat, RequestKind>, base: map<nat, nat>, count: nat, log: seq<Invocation>, ops: seq<PendingOp>,
    next: nat, req: nat, n: nat, log0: seq<Invocation>, ops0: seq<PendingOp>, started: seq<string>, done: nat,
    path: string, ops': seq<PendingOp>, started': seq<string>, done': nat)
    requires DirBooks(kinds, base, count, log, ops, next, req, n, log0, ops0, started, done)
    requires ops' == ops + [AwaitOpen(path, CountDirEntry(req))] && started' == started + [path] && done' == done + 1
    ensures DirBooks(kinds, base, count, log, ops', next, req, n, log0, ops0, started', done')
  {
    var op := AwaitOpen(path, CountDirEntry(req));
    assert started'[..|started|] == started;
    assert DirWaits(started', req) == DirWaits(started, req) + [op];
    Register(kinds, base[req := count], log, ops, next, req, op);
  }

  /** An entry counted at once: `count'` is one more, and reaching `n` fires the callback. */
  lemma DirBooksCount(
    kinds: map<nat, RequestKind>, base: map<nat, nat>, count: nat, log: seq<Invocation>, ops: seq<PendingOp>,
    next: nat, req: nat, n: nat, log0: seq<Invocation>, ops0: seq<PendingOp>, started: seq<string>, done: nat,
    count': nat, log': seq<Invocation>, done': nat)
    requires DirBooks(kinds, base, count, log, ops, next, req, n, log0, ops0, started, done)
    requires done + 1 <= n && count' == count + 1 && done' == done + 1
    requires log' == if count' >= n then log + [DirectoryDone(req)] else log
    ensures DirBooks(kinds, base, count', log', ops, next, req, n, log0, ops0, started, done')
  {
    Recount(kinds, base[req := count], log, ops, next, req, count');
    assert base[req := count][req := count'] == base[req := count'];
    if count' >= n {
      Invoke(kinds, base[req := count'], log, ops, next, req, DirectoryDone(req));
    }
  }

  /**
   * After every non-empty entry, the directory load is settled: `counts`
   * holds its count, it owes what remains pending, and its callback has
   * fired exactly when no container was left to open.
   */
  lemma DirBooksFinish(
    kinds: map<nat, RequestKind>, base: map<nat, nat>, count: nat, log: seq<Invocation>, ops: seq<PendingOp>,
    next: nat, req: nat, n: nat, log0: seq<Invocation>, ops0: seq<PendingOp>, started: seq<string>,
    counts: map<nat, nat>, logBefore: seq<Invocation>)
    requires DirBooks(kinds, base, count, log, ops, next, req, n, log0, ops0, started, n)
    requires counts == base[req := count]
    requires log0 == logBefore + (if n == 0 then [DirectoryDone(req)] else [])
    ensures Consistent(kinds, counts, log, ops, next)
    ensures log == logBefore + (if started == [] then [DirectoryDone(req)] else [])
    ensures ops == ops0 + DirWaits(started, req) && count + |started| == n
  {
    if n == 0 {
      assert log == log0 + [];
    }
  }
}
