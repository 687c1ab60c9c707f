/** The transaction buffer's working state: a base state, the buffered transactions, and the state they
  lead to. */
module TxBuffer {
  import opened Options

  /** What applying a transaction gives: a new state, a rejection of the transaction, or another error. */
  datatype TxResult<S> = Applied(state: S) | Invalid(why: string) | Fatal(err: string)

  type AddTx<!S, !T> = (S, T) -> TxResult<S>

  /** The application's deleter: does it remove this transaction, given a list? */
  type Deletes<!T> = (seq<T>, T) -> bool

  // ----- Specification -----

  /** Applies transactions one after the other; all must succeed. */
  function Replay<S, T>(addTx: AddTx<S, T>, s: S, txs: seq<T>): Option<S> {
    if |txs| == 0 then Some(s)
    else
      match Replay(addTx, s, txs[..|txs| - 1])
      case None => None
      case Some(t) =>
        match addTx(t, txs[|txs| - 1])
        case Applied(u) => Some(u)
        case _ => None
  }

  function Remaining<T>(deletes: Deletes<T>, listed: seq<T>, txs: seq<T>): seq<T> {
    if |txs| == 0 then []
    else
      var front := Remaining(deletes, listed, txs[..|txs| - 1]);
      if deletes(listed, txs[|txs| - 1]) then front else front + [txs[|txs| - 1]]
  }

  datatype Split<S, T> = Split(state: S, kept: seq<T>, invalidated: seq<T>, err: Option<string>)

  /** One pass that skips what is invalid and stops at any other error. */
  function Pass<S, T>(addTx: AddTx<S, T>, s: S, txs: seq<T>): Split<S, T> {
    if |txs| == 0 then Split(s, [], [], None)
    else
      var p := Pass(addTx, s, txs[..|txs| - 1]);
      var tx := txs[|txs| - 1];
      if p.err.Some? then p
      else
        match addTx(p.state, tx)
        case Applied(u) => p.(state := u, kept := p.kept + [tx])
        case Invalid(_) => p.(invalidated := p.invalidated + [tx])
        case Fatal(err) => p.(err := Some(err))
  }

  /** The buffer as a value. The current state counts only while `isUpdated`. */
  datatype W<S, T> = W(base: S, cur: S, isUpdated: bool, txs: seq<T>)

  function Current<S, T>(w: W<S, T>): S {
    if w.isUpdated then w.cur else w.base
  }

  function Checked<S, T>(addTx: AddTx<S, T>, w: W<S, T>, tx: T): W<S, T> {
    match addTx(Current(w), tx)
    case Applied(s) => W(w.base, s, true, w.txs + [tx])
    case _ => w
  }

  datatype Response<T> = Response(invalidated: seq<T>, err: Option<string>)

  function Unapplied<T>(deletes: Deletes<T>, txs: seq<T>, applied: seq<T>): seq<T> {
    if |txs| > 0 && |applied| > 0 then Remaining(deletes, applied, txs) else txs
  }

  function Rebased<S, T>(addTx: AddTx<S, T>, deletes: Deletes<T>, w: W<S, T>, newBase: S, applied: seq<T>): (W<S, T>, Response<T>) {
    var todo := Unapplied(deletes, w.txs, applied);
    var p := Pass(addTx, newBase, todo);
    if p.err.Some? then (W(newBase, p.state, |p.kept| > 0, todo), Response([], p.err))
    else
      (W(newBase, p.state, |p.kept| > 0, if |p.invalidated| > 0 then Remaining(deletes, p.invalidated, todo) else todo),
       Response(p.invalidated, None))
  }

  // ----- The working state -----

  class WorkingState<S, T(==)> {
    var baseState: S
    var curState: S
    var isUpdated: bool
    var txs: seq<T>
    const addTx: AddTx<S, T>
    const deletes: Deletes<T>

    ghost function Model(): W<S, T>
      reads this
    {
      W(baseState, curState, isUpdated, txs)
    }

    constructor (base: S, addTx: AddTx<S, T>, deletes: Deletes<T>)
      ensures Model() == W(base, base, false, []) && this.addTx == addTx && this.deletes == deletes
    {
      baseState, curState, isUpdated, txs := base, base, false, [];
      this.addTx, this.deletes := addTx, deletes;
    }

    method CheckAddTx(tx: T) returns (res: TxResult<S>)
      modifies this
      ensures res == addTx(Current(old(Model())), tx)
      ensures Model() == Checked(addTx, old(Model()), tx)
    {
      var cur := if isUpdated then curState else baseState;
      res := addTx(cur, tx);
      if !res.Applied? {
        return;
      }
      curState := res.state;
      isUpdated := true;
      txs := txs + [tx];
    }

    method Buffered(dst: seq<T>) returns (r: seq<T>)
      ensures r == dst + txs
    {
      r := dst + txs;
    }

    /** Removes the listed transactions in place, keeping the order. */
    method DeleteListed(listed: seq<T>)
      modifies this`txs
      ensures txs == Remaining(deletes, listed, old(txs))
    {
      var out := [];
      for i := 0 to |txs|
        invariant txs == old(txs) && out == Remaining(deletes, listed, txs[..i])
      {
        assert txs[..i + 1][..i] == txs[..i];
        if !deletes(listed, txs[i]) {
          out := out + [txs[i]];
        }
      }
      assert txs[..|txs|] == txs;
      txs := out;
    }

    /** Applies the buffered transactions to the new base, collecting those that are invalid. */
    method ApplyBuffered() returns (invalidated: seq<T>, err: Option<string>, ghost kept: seq<T>)
      requires !isUpdated
      modifies this`curState, this`isUpdated
      ensures Pass(addTx, old(curState), txs) == Split(curState, kept, invalidated, err)
      ensures isUpdated == (|kept| > 0)
    {
      invalidated, err, kept := [], None, [];
      for i := 0 to |txs|
        invariant Pass(addTx, old(curState), txs[..i]) == Split(curState, kept, invalidated, None)
        invariant isUpdated == (|kept| > 0)
      {
        assert txs[..i + 1][..i] == txs[..i];
        var tx := txs[i];
        var res := addTx(curState, tx);
        match res {
          case Invalid(_) => invalidated := invalidated + [tx];
          case Fatal(e) =>
            PassStops(addTx, old(curState), txs, i + 1);
            err := Some(e);
            return;
          case Applied(newState) =>
            curState := newState;
            isUpdated := true;
            kept := kept + [tx];
        }
      }
      assert txs[..|txs|] == txs;
    }

    method Rebase(newBase: S, applied: seq<T>) returns (resp: Response<T>)
      modifies this
      ensures (Model(), resp) == Rebased(addTx, deletes, old(Model()), newBase, applied)
    {
      baseState := newBase;
      curState := newBase;
      isUpdated := false;
      if |txs| == 0 {
        return Response([], None);
      }
      if |applied| > 0 {
        DeleteListed(applied);
      }
      ghost var kept;
      var invalidated, err;
      invalidated, err, kept := ApplyBuffered();
      if err.Some? {
        return Response([], err);
      }
      if |invalidated| > 0 {
        DeleteListed(invalidated);
      }
      return Response(invalidated, None);
    }
  }

  lemma {:induction false} PassStops<S, T>(addTx: AddTx<S, T>, s: S, txs: seq<T>, i: nat)
    requires i <= |txs| && Pass(addTx, s, txs[..i]).err.Some?
    ensures Pass(addTx, s, txs) == Pass(addTx, s, txs[..i])
    decreases |txs|
  {
    if i < |txs| {
      assert txs[..|txs| - 1][..i] == txs[..i];
      PassStops(addTx, s, txs[..|txs| - 1], i);
    } else {
      assert txs[..i] == txs;
    }
  }

  // ----- What a pass does -----

  ghost predicate Distinct<T(!new)>(txs: seq<T>) {
    forall i, j :: 0 <= i < j < |txs| ==> txs[i] != txs[j]
  }

  ghost predicate Exact<T(!new)>(deletes: Deletes<T>) {
    forall listed, t :: deletes(listed, t) <==> t in listed
  }

  /** The skipping pass refines a replay: its state is that of replaying exactly what it kept. */
  lemma {:induction false} PassReplaysKept<S, T>(addTx: AddTx<S, T>, s: S, txs: seq<T>)
    ensures var p := Pass(addTx, s, txs); Replay(addTx, s, p.kept) == Some(p.state)
  {
    if |txs| > 0 {
      PassReplaysKept(addTx, s, txs[..|txs| - 1]);
      var p, q := Pass(addTx, s, txs[..|txs| - 1]), Pass(addTx, s, txs);
      if q.kept != p.kept { assert q.kept[..|q.kept| - 1] == p.kept; }
    }
  }

  /** Without another error every transaction is kept or invalidated, once each, in order. */
  lemma {:induction false} PassSplits<S, T>(addTx: AddTx<S, T>, s: S, txs: seq<T>)
    requires Pass(addTx, s, txs).err.None?
    ensures var p := Pass(addTx, s, txs); multiset(txs) == multiset(p.kept) + multiset(p.invalidated)
  {
    if |txs| > 0 {
      PassSplits(addTx, s, txs[..|txs| - 1]);
      assert txs == txs[..|txs| - 1] + [txs[|txs| - 1]];
    }
  }

  /** Whether a transaction is kept depends on the state that the kept ones before it lead to. */
  lemma {:induction false} KeptIffApplies<S, T(!new)>(addTx: AddTx<S, T>, s: S, txs: seq<T>, k: nat)
    requires k < |txs| && Distinct(txs) && Pass(addTx, s, txs).err.None?
    ensures
      var before := Pass(addTx, s, txs[..k]);
      var p := Pass(addTx, s, txs);
      && Replay(addTx, s, before.kept) == Some(before.state)
      && (txs[k] in p.kept <==> addTx(before.state, txs[k]).Applied?)
      && (txs[k] in p.invalidated <==> addTx(before.state, txs[k]).Invalid?)
    decreases |txs|
  {
    var front := txs[..|txs| - 1];
    PassReplaysKept(addTx, s, txs[..k]);
    PassSplits(addTx, s, front);
    if k < |front| {
      assert front[..k] == txs[..k];
      KeptIffApplies(addTx, s, front, k);
    } else {
      assert front == txs[..k];
      forall t | t in Pass(addTx, s, front).kept || t in Pass(addTx, s, front).invalidated ensures t != txs[k] {
        assert t in multiset(front) && t in front;
      }
    }
  }

  lemma {:induction false} RemainingIsKept<S, T(!new)>(addTx: AddTx<S, T>, deletes: Deletes<T>, s: S, txs: seq<T>, listed: seq<T>)
    requires Exact(deletes) && Pass(addTx, s, txs).err.None?
    requires forall t :: t in Pass(addTx, s, txs).invalidated ==> t in listed
    requires forall t :: t in Pass(addTx, s, txs).kept ==> t !in listed
    ensures Remaining(deletes, listed, txs) == Pass(addTx, s, txs).kept
  {
    if |txs| > 0 {
      var front, p, q := txs[..|txs| - 1], Pass(addTx, s, txs[..|txs| - 1]), Pass(addTx, s, txs);
      assert p.kept <= q.kept && p.invalidated <= q.invalidated;
      RemainingIsKept(addTx, deletes, s, front, listed);
      assert txs[|txs| - 1] in q.kept || txs[|txs| - 1] in q.invalidated;
    }
  }

  /** Pruning the invalidated transactions leaves exactly the kept ones if and only if no transaction was
    both kept and, as an equal one, invalidated. Distinct transactions never are. */
  lemma PruningIff<S, T(!new)>(addTx: AddTx<S, T>, deletes: Deletes<T>, s: S, txs: seq<T>)
    requires Exact(deletes) && Pass(addTx, s, txs).err.None?
    ensures
      var p := Pass(addTx, s, txs);
      Remaining(deletes, p.invalidated, txs) == p.kept <==> forall t :: t in p.kept ==> t !in p.invalidated
  {
    var p := Pass(addTx, s, txs);
    if forall t :: t in p.kept ==> t !in p.invalidated {
      RemainingIsKept(addTx, deletes, s, txs, p.invalidated);
    } else {
      var t :| t in p.kept && t in p.invalidated;
      RemainingUnlisted(deletes, p.invalidated, txs, t);
    }
  }

  lemma {:induction false} RemainingUnlisted<T(!new)>(deletes: Deletes<T>, listed: seq<T>, txs: seq<T>, t: T)
    requires Exact(deletes)
    ensures t in Remaining(deletes, listed, txs) <==> t in txs && t !in listed
  {
    if |txs| > 0 {
      RemainingUnlisted(deletes, listed, txs[..|txs| - 1], t);
      assert txs == txs[..|txs| - 1] + [txs[|txs| - 1]];
    }
  }

  lemma DistinctNeverBoth<S, T(!new)>(addTx: AddTx<S, T>, s: S, txs: seq<T>, t: T)
    requires Distinct(txs) && Pass(addTx, s, txs).err.None?
    requires t in Pass(addTx, s, txs).kept
    ensures t !in Pass(addTx, s, txs).invalidated
  {
    PassSplits(addTx, s, txs);
    assert t in multiset(txs) && t in txs;
    var k :| 0 <= k < |txs| && txs[k] == t;
    KeptIffApplies(addTx, s, txs, k);
  }

  /** A transaction is buffered, last, exactly when it applies to the current state; else nothing changes. */
  lemma CheckedMeaning<S, T>(addTx: AddTx<S, T>, w: W<S, T>, tx: T)
    ensures
      var w' := Checked(addTx, w, tx);
      match addTx(Current(w), tx)
      case Applied(s) => w'.txs == w.txs + [tx] && Current(w') == s && w'.base == w.base
      case _ => w' == w
  {
  }

  /** Another error than a rejection: it is reported, the base is the new one, and no unapplied transaction is
    lost. */
  lemma FatalKeeps<S, T(!new)>(addTx: AddTx<S, T>, deletes: Deletes<T>, w: W<S, T>, newBase: S, applied: seq<T>, t: T)
    requires Exact(deletes)
    requires Pass(addTx, newBase, Unapplied(deletes, w.txs, applied)).err.Some?
    ensures
      var (w', resp) := Rebased(addTx, deletes, w, newBase, applied);
      && resp == Response([], Pass(addTx, newBase, Unapplied(deletes, w.txs, applied)).err) && w'.base == newBase
      && (t in w'.txs <==> t in w.txs && t !in applied)
  {
    RemainingUnlisted(deletes, applied, w.txs, t);
  }

  /** The error is that of the first transaction that meets one, after the kept ones before it. */
  lemma {:induction false} FatalIsFirst<S, T>(addTx: AddTx<S, T>, s: S, txs: seq<T>) returns (k: nat)
    requires Pass(addTx, s, txs).err.Some?
    ensures k < |txs|
    ensures
      var before := Pass(addTx, s, txs[..k]);
      && before.err.None? && addTx(before.state, txs[k]).Fatal?
      && Pass(addTx, s, txs) == before.(err := Some(addTx(before.state, txs[k]).err))
  {
    var last := |txs| - 1;
    if Pass(addTx, s, txs[..last]).err.Some? {
      k := FatalIsFirst(addTx, s, txs[..last]);
      assert txs[..last][..k] == txs[..k];
    } else {
      k := last;
    }
  }

  // ----- Runs -----

  datatype Op<S, T> = Add(tx: T) | Rebase(newBase: S, applied: seq<T>)

  function Do<S, T>(addTx: AddTx<S, T>, deletes: Deletes<T>, w: W<S, T>, op: Op<S, T>): W<S, T> {
    match op
    case Add(tx) => Checked(addTx, w, tx)
    case Rebase(newBase, applied) => Rebased(addTx, deletes, w, newBase, applied).0
  }

  /** The premises on one call: buffered transactions stay distinct, and a rebase meets no other error. */
  ghost predicate Clean<S, T(!new)>(addTx: AddTx<S, T>, deletes: Deletes<T>, w: W<S, T>, op: Op<S, T>) {
    match op
    case Add(tx) => tx !in w.txs
    case Rebase(newBase, applied) => Rebased(addTx, deletes, w, newBase, applied).1.err.None?
  }

  function DoAll<S, T>(addTx: AddTx<S, T>, deletes: Deletes<T>, w: W<S, T>, ops: seq<Op<S, T>>): W<S, T> {
    if |ops| == 0 then w else Do(addTx, deletes, DoAll(addTx, deletes, w, ops[..|ops| - 1]), ops[|ops| - 1])
  }

  ghost predicate AllClean<S, T(!new)>(addTx: AddTx<S, T>, deletes: Deletes<T>, w: W<S, T>, ops: seq<Op<S, T>>) {
    |ops| == 0
    || (AllClean(addTx, deletes, w, ops[..|ops| - 1])
        && Clean(addTx, deletes, DoAll(addTx, deletes, w, ops[..|ops| - 1]), ops[|ops| - 1]))
  }

  ghost predicate Good<S, T(!new)>(addTx: AddTx<S, T>, w: W<S, T>) {
    Distinct(w.txs) && Replay(addTx, w.base, w.txs) == Some(Current(w))
  }

  lemma {:induction false} RemainingDistinct<T(!new)>(deletes: Deletes<T>, listed: seq<T>, txs: seq<T>)
    requires Exact(deletes) && Distinct(txs)
    ensures Distinct(Remaining(deletes, listed, txs))
  {
    if |txs| > 0 {
      var front := txs[..|txs| - 1];
      RemainingDistinct(deletes, listed, front);
      RemainingUnlisted(deletes, listed, front, txs[|txs| - 1]);
    }
  }

  /** A rebase keeps, in order, exactly the unapplied transactions that still apply one after the other,
    and reports the others. */
  lemma RebaseSplits<S, T(!new)>(addTx: AddTx<S, T>, deletes: Deletes<T>, w: W<S, T>, newBase: S, applied: seq<T>)
    requires Exact(deletes) && Distinct(w.txs)
    requires Rebased(addTx, deletes, w, newBase, applied).1.err.None?
    ensures
      var todo := Unapplied(deletes, w.txs, applied);
      var (w', resp) := Rebased(addTx, deletes, w, newBase, applied);
      && (forall t :: t in todo <==> t in w.txs && t !in applied)
      && multiset(todo) == multiset(w'.txs) + multiset(resp.invalidated)
      && w'.txs == Pass(addTx, newBase, todo).kept
      && w'.base == newBase
      && Replay(addTx, newBase, w'.txs) == Some(Current(w'))
      && Distinct(w'.txs)
  {
    var todo := Unapplied(deletes, w.txs, applied);
    forall t ensures t in todo <==> t in w.txs && t !in applied {
      RemainingUnlisted(deletes, applied, w.txs, t);
    }
    RemainingDistinct(deletes, applied, w.txs);
    PassReplaysKept(addTx, newBase, todo);
    PassSplits(addTx, newBase, todo);
    var p := Pass(addTx, newBase, todo);
    forall t | t in p.kept ensures t !in p.invalidated {
      DistinctNeverBoth(addTx, newBase, todo, t);
    }
    PruningIff(addTx, deletes, newBase, todo);
    RemainingDistinct(deletes, p.invalidated, todo);
    if |p.invalidated| == 0 {
      RemainingNone(deletes, p.invalidated, todo);
    }
  }

  lemma {:induction false} RemainingNone<T(!new)>(deletes: Deletes<T>, listed: seq<T>, txs: seq<T>)
    requires Exact(deletes) && listed == []
    ensures Remaining(deletes, listed, txs) == txs
  {
    if |txs| > 0 { RemainingNone(deletes, listed, txs[..|txs| - 1]); }
  }

  /** After any sequence of additions and rebases, the current state is what replaying the buffered
    transactions from the base gives, with every one of them succeeding. */
  lemma {:induction false} AlwaysReplayable<S, T(!new)>(addTx: AddTx<S, T>, deletes: Deletes<T>, base: S, ops: seq<Op<S, T>>)
    requires Exact(deletes) && AllClean(addTx, deletes, W(base, base, false, []), ops)
    ensures Good(addTx, DoAll(addTx, deletes, W(base, base, false, []), ops))
  {
    if |ops| > 0 {
      AlwaysReplayable(addTx, deletes, base, ops[..|ops| - 1]);
      var w := DoAll(addTx, deletes, W(base, base, false, []), ops[..|ops| - 1]);
      match ops[|ops| - 1] {
        case Add(tx) => assert (w.txs + [tx])[..|w.txs|] == w.txs;
        case Rebase(newBase, applied) => RebaseSplits(addTx, deletes, w, newBase, applied);
      }
    }
  }

  // ----- Exactly when a rebase keeps the buffer replayable -----

  /** Whatever transactions do and whatever the base, as long as no other error occurs, the rebased buffer
    replays to the current state. */
  ghost predicate AlwaysReplays<S(!new), T(!new)>(deletes: Deletes<T>, w: W<S, T>, applied: seq<T>) {
    forall addTx: AddTx<S, T>, base: S :: ReplaysAfter(addTx, deletes, w, base, applied)
  }

  ghost predicate ReplaysAfter<S, T>(addTx: AddTx<S, T>, deletes: Deletes<T>, w: W<S, T>, base: S, applied: seq<T>) {
    var (w', resp) := Rebased(addTx, deletes, w, base, applied);
    resp.err.None? ==> Replay(addTx, w'.base, w'.txs) == Some(Current(w'))
  }

  /** Only `tx` is ever valid, and only once: it takes `before` to `after`. */
  ghost function OnlyOnce<S(!new), T(!new)>(tx: T, before: S, after: S): AddTx<S, T> {
    (s: S, t: T) => if t == tx && s == before then Applied(after) else Invalid("")
  }

  lemma {:induction false} OnlyOncePass<S(!new), T(!new)>(tx: T, before: S, after: S, txs: seq<T>)
    requires before != after
    ensures
      var p := Pass(OnlyOnce(tx, before, after), before, txs);
      && p.err.None?
      && (if tx in txs then p.state == after && p.kept == [tx] else p.state == before && p.kept == [])
  {
    if |txs| > 0 {
      OnlyOncePass(tx, before, after, txs[..|txs| - 1]);
      assert txs == txs[..|txs| - 1] + [txs[|txs| - 1]];
    }
  }

  /** A transaction buffered twice and valid once is lost by the rebase, though the state contains it. */
  lemma DuplicateLost<S(!new), T(!new)>(deletes: Deletes<T>, w: W<S, T>, applied: seq<T>, i: nat, j: nat, before: S, after: S)
    requires Exact(deletes) && before != after
    requires var todo := Unapplied(deletes, w.txs, applied); i < j < |todo| && todo[i] == todo[j]
    ensures !ReplaysAfter(OnlyOnce(Unapplied(deletes, w.txs, applied)[i], before, after), deletes, w, before, applied)
  {
    var todo := Unapplied(deletes, w.txs, applied);
    var tx := todo[i];
    var addTx := OnlyOnce(tx, before, after);
    OnlyOncePass(tx, before, after, todo);
    PassSplits(addTx, before, todo);
    var p := Pass(addTx, before, todo);
    TwiceCounted(todo, i, j);
    forall t | t in todo ensures t in p.invalidated {
      assert t in multiset(todo);
      assert multiset(todo)[t] == multiset(p.kept)[t] + multiset(p.invalidated)[t];
      assert multiset(p.kept)[t] <= 1 && (t != tx ==> multiset(p.kept)[t] == 0);
    }
    assert todo[i] in p.invalidated;
    var left := Remaining(deletes, p.invalidated, todo);
    if left != [] {
      RemainingUnlisted(deletes, p.invalidated, todo, left[0]);
    }
    assert Rebased(addTx, deletes, w, before, applied).0.txs == [];
  }

  lemma TwiceCounted<T>(txs: seq<T>, i: nat, j: nat)
    requires i < j < |txs| && txs[i] == txs[j]
    ensures multiset(txs)[txs[i]] >= 2
  {
    assert txs == txs[..j] + txs[j..];
    assert txs[i] in txs[..j] && txs[i] in txs[j..];
    assert multiset(txs) == multiset(txs[..j]) + multiset(txs[j..]);
    assert txs[i] in multiset(txs[..j]) && txs[i] in multiset(txs[j..]);
  }

  /** With an exact deleter and a state that can change at all, a rebase keeps the buffer replayable,
    whatever transactions do, exactly when the transactions left to apply are distinct. */
  lemma ReplayableIffDistinct<S(!new), T(!new)>(deletes: Deletes<T>, w: W<S, T>, applied: seq<T>, one: S, other: S)
    requires Exact(deletes) && one != other
    ensures AlwaysReplays(deletes, w, applied) <==> Distinct(Unapplied(deletes, w.txs, applied))
  {
    var todo := Unapplied(deletes, w.txs, applied);
    if Distinct(todo) {
      forall addTx: AddTx<S, T>, base: S ensures ReplaysAfter(addTx, deletes, w, base, applied) {
        DistinctReplays(addTx, deletes, w, base, applied);
      }
    } else {
      var i, j :| 0 <= i < j < |todo| && todo[i] == todo[j];
      DuplicateLost(deletes, w, applied, i, j, one, other);
    }
  }

  lemma DistinctReplays<S, T(!new)>(addTx: AddTx<S, T>, deletes: Deletes<T>, w: W<S, T>, base: S, applied: seq<T>)
    requires Exact(deletes) && Distinct(Unapplied(deletes, w.txs, applied))
    ensures ReplaysAfter(addTx, deletes, w, base, applied)
  {
    var todo := Unapplied(deletes, w.txs, applied);
    var p := Pass(addTx, base, todo);
    if p.err.None? {
      PassReplaysKept(addTx, base, todo);
      forall t | t in p.kept ensures t !in p.invalidated {
        DistinctNeverBoth(addTx, base, todo, t);
      }
      PruningIff(addTx, deletes, base, todo);
      if |p.invalidated| == 0 {
        RemainingNone(deletes, p.invalidated, todo);
      }
    }
  }

  /** Distinctness is needed: when the same transaction is buffered twice and is valid only once, pruning
    the second removes the first as well, though the current state contains it. */
  lemma DuplicatesBreakReplay<S, T(!new)>(addTx: AddTx<S, T>, deletes: Deletes<T>, w: W<S, T>, base: S, once: S, tx: T)
    requires Exact(deletes) && w.txs == [tx, tx] && once != base
    requires addTx(base, tx) == Applied(once) && addTx(once, tx).Invalid?
    ensures
      var w' := Rebased(addTx, deletes, w, base, []).0;
      w'.txs == [] && Current(w') == once && Replay(addTx, w'.base, w'.txs) != Some(Current(w'))
  {
    assert w.txs[..1] == [tx];
    var p := Pass(addTx, base, w.txs);
    assert Pass(addTx, base, [tx]) == Split(once, [tx], [], None);
    assert p == Split(once, [tx], [tx], None);
    var left := Remaining(deletes, p.invalidated, w.txs);
    if left != [] {
      RemainingUnlisted(deletes, p.invalidated, w.txs, left[0]);
    }
  }
}
