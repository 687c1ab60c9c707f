/** The simple signature proof: pairs of signatures and keys, with a set of the indices that signed. */
module SimpleProofs {
  import opened Options
  import opened Votes

  type Sig = string

  /** Whether a signature is valid for the proof's message under a key. */
  type Verify = (Key, Sig) -> bool

  datatype Simple = Simple(keys: seq<Key>, sigs: map<Sig, Key>, bits: set<nat>)

  datatype AddResult = Added | UnknownKey | InvalidSignature

  /** A key identifier: fewer than two bytes, exactly two, or more; `n` is the number its first two bytes
    encode. */
  datatype KeyId = Short | Exact(n: nat) | Long(n: nat)

  datatype RawSig = RawSig(keyId: KeyId, sig: Sig)

  datatype SparseSig = SparseSig(id: nat, sig: Sig)

  datatype MergeFlags = MergeFlags(allValid: bool, increased: bool, strictSuperset: bool)

  const ID_SPACE := 0x1_0000

  function Encode(i: nat): (id: nat)
    ensures id < ID_SPACE && (id == i <==> i < ID_SPACE)
  {
    i % ID_SPACE
  }

  /** Larger indices wrap. */
  lemma EncodeWraps(i: nat)
    ensures Encode(i + ID_SPACE) == Encode(i)
  {
  }

  /** The last index of a key among the candidates. */
  function IndexOf(keys: seq<Key>, key: Key): (i: Option<nat>)
    ensures i.Some? ==> i.value < |keys| && keys[i.value] == key
    ensures i.None? <==> key !in keys
  {
    if |keys| == 0 then None
    else if keys[|keys| - 1] == key then Some(|keys| - 1)
    else IndexOf(keys[..|keys| - 1], key)
  }

  ghost predicate Distinct(keys: seq<Key>) {
    forall i, j :: 0 <= i < j < |keys| ==> keys[i] != keys[j]
  }

  lemma IndexOfDistinct(keys: seq<Key>, i: nat)
    requires Distinct(keys) && i < |keys|
    ensures IndexOf(keys, keys[i]) == Some(i)
  {
    var j := IndexOf(keys, keys[i]);
    assert keys[i] in keys;
    assert keys[j.value] == keys[i];
  }

  // ----- Specification -----

  function TryAdd(verify: Verify, p: Simple, sig: Sig, key: Key): (Simple, AddResult) {
    var i := IndexOf(p.keys, key);
    if i.None? then (p, UnknownKey)
    else if !verify(key, sig) then (p, InvalidSignature)
    else (p.(sigs := p.sigs[sig := key], bits := p.bits + {i.value}), Added)
  }

  datatype Merging = Merging(p: Simple, allValid: bool, added: set<nat>)

  function MergeEntry(verify: Verify, m: Merging, e: SparseSig): Merging {
    if e.id >= |m.p.keys| then m.(allValid := false)
    else
      var (q, res) := TryAdd(verify, m.p, e.sig, m.p.keys[e.id]);
      if res.Added? then Merging(q, m.allValid, m.added + {e.id}) else m.(allValid := false)
  }

  function MergeAll(verify: Verify, p: Simple, es: seq<SparseSig>): Merging {
    if |es| == 0 then Merging(p, true, {}) else MergeEntry(verify, MergeAll(verify, p, es[..|es| - 1]), es[|es| - 1])
  }

  /** Adding a pair: exactly a valid signature of a candidate key is stored with that key, and sets the key's
    last index; nothing else changes. */
  lemma AddingMeans(verify: Verify, p: Simple, sig: Sig, key: Key)
    ensures
      var (q, res) := TryAdd(verify, p, sig, key);
      && (res.UnknownKey? <==> key !in p.keys)
      && (res.InvalidSignature? <==> key in p.keys && !verify(key, sig))
      && (!res.Added? ==> q == p)
      && (res.Added? ==>
            && q.keys == p.keys && q.sigs == p.sigs[sig := key]
            && exists i :: 0 <= i < |p.keys| && p.keys[i] == key && key !in p.keys[i + 1..] && q.bits == p.bits + {i})
  {
    if key in p.keys { LastIndex(p.keys, key); }
  }

  lemma {:induction false} LastIndex(keys: seq<Key>, key: Key)
    requires key in keys
    ensures IndexOf(keys, key).Some? && key !in keys[IndexOf(keys, key).value + 1..]
  {
    var last := |keys| - 1;
    if keys[last] != key {
      LastIndex(keys[..last], key);
      var i := IndexOf(keys[..last], key).value;
      assert keys[i + 1..] == keys[..last][i + 1..] + [keys[last]];
    }
  }

  /** The entry's identifier is that of a candidate, and its signature that candidate's. */
  predicate GoodEntry(verify: Verify, keys: seq<Key>, e: SparseSig) {
    e.id < |keys| && verify(keys[e.id], e.sig)
  }

  ghost predicate SomeGood(verify: Verify, keys: seq<Key>, es: seq<SparseSig>, i: nat) {
    exists k :: 0 <= k < |es| && GoodEntry(verify, keys, es[k]) && es[k].id == i
  }

  ghost predicate SomeSets(verify: Verify, keys: seq<Key>, es: seq<SparseSig>, i: nat) {
    exists k :: 0 <= k < |es| && GoodEntry(verify, keys, es[k]) && IndexOf(keys, keys[es[k].id]) == Some(i)
  }

  ghost predicate SomeKeeps(verify: Verify, keys: seq<Key>, es: seq<SparseSig>, s: Sig) {
    exists k :: 0 <= k < |es| && GoodEntry(verify, keys, es[k]) && es[k].sig == s
  }

  lemma OneMore(verify: Verify, keys: seq<Key>, es: seq<SparseSig>, i: nat, s: Sig)
    requires |es| > 0
    ensures
      var e, front := es[|es| - 1], es[..|es| - 1];
      var good := GoodEntry(verify, keys, e);
      && (SomeGood(verify, keys, es, i) <==> SomeGood(verify, keys, front, i) || (good && e.id == i))
      && (SomeSets(verify, keys, es, i) <==> SomeSets(verify, keys, front, i) || (good && IndexOf(keys, keys[e.id]) == Some(i)))
      && (SomeKeeps(verify, keys, es, s) <==> SomeKeeps(verify, keys, front, s) || (good && e.sig == s))
  {
    var front := es[..|es| - 1];
    assert forall k :: 0 <= k < |front| ==> front[k] == es[k];
  }

  lemma EntryMeans(verify: Verify, m: Merging, e: SparseSig)
    ensures
      var m1 := MergeEntry(verify, m, e);
      if GoodEntry(verify, m.p.keys, e) then
        && IndexOf(m.p.keys, m.p.keys[e.id]).Some?
        && m1.p.keys == m.p.keys && m1.allValid == m.allValid && m1.added == m.added + {e.id}
        && m1.p.bits == m.p.bits + {IndexOf(m.p.keys, m.p.keys[e.id]).value} && m1.p.sigs == m.p.sigs[e.sig := m.p.keys[e.id]]
      else m1 == m.(allValid := false)
  {
  }

  /** Merging a list: all is valid exactly when every entry is; exactly the good entries are counted as added,
    set the index of their key, and keep their signature. */
  lemma {:induction false} MergingMeans(verify: Verify, p: Simple, es: seq<SparseSig>, i: nat, s: Sig)
    ensures
      var m := MergeAll(verify, p, es);
      && m.p.keys == p.keys
      && (m.allValid <==> forall k :: 0 <= k < |es| ==> GoodEntry(verify, p.keys, es[k]))
      && (i in m.added <==> SomeGood(verify, p.keys, es, i))
      && (i in m.p.bits <==> i in p.bits || SomeSets(verify, p.keys, es, i))
      && (s in m.p.sigs <==> s in p.sigs || SomeKeeps(verify, p.keys, es, s))
  {
    if |es| > 0 {
      var e, front := es[|es| - 1], es[..|es| - 1];
      MergingMeans(verify, p, front, i, s);
      OneMore(verify, p.keys, es, i, s);
      EntryMeans(verify, MergeAll(verify, p, front), e);
      assert forall k :: 0 <= k < |front| ==> front[k] == es[k];
    }
  }

  /** Identifiers are read from their first two bytes; reading a shorter one panics. */
  predicate Readable(es: seq<RawSig>) {
    forall k :: 0 <= k < |es| ==> !es[k].keyId.Short?
  }

  function Read(es: seq<RawSig>): seq<SparseSig>
    requires Readable(es)
  {
    seq(|es|, k requires 0 <= k < |es| => SparseSig(es[k].keyId.n, es[k].sig))
  }

  /** Identifiers as `AsSparse` writes them. */
  function Write(es: seq<SparseSig>): (raw: seq<RawSig>)
    ensures Readable(raw) && Read(raw) == es
  {
    seq(|es|, k requires 0 <= k < |es| => RawSig(Exact(es[k].id), es[k].sig))
  }

  function Empty(p: Simple): Simple {
    p.(sigs := map[], bits := {})
  }

  /** The indices whose key owns a stored signature. */
  ghost function Owners(p: Simple): set<nat> {
    set s | s in p.sigs && IndexOf(p.keys, p.sigs[s]).Some? :: IndexOf(p.keys, p.sigs[s]).value
  }

  /** Every stored signature is valid, and its owner counts as having signed. */
  ghost predicate Sane(verify: Verify, p: Simple) {
    && (forall s :: s in p.sigs ==> verify(p.sigs[s], s) && p.sigs[s] in p.keys)
    && Owners(p) <= p.bits
    && (forall i :: i in p.bits ==> i < |p.keys|)
  }

  /** No signature is valid under two of the candidate keys. */
  ghost predicate OneKeyEach(verify: Verify, keys: seq<Key>) {
    forall s, i, j :: 0 <= i < |keys| && 0 <= j < |keys| && verify(keys[i], s) && verify(keys[j], s) ==> keys[i] == keys[j]
  }

  lemma OwnersAfterAdd(verify: Verify, p: Simple, sig: Sig, key: Key)
    requires Sane(verify, p) && TryAdd(verify, p, sig, key).1.Added?
    ensures Sane(verify, TryAdd(verify, p, sig, key).0)
    ensures OneKeyEach(verify, p.keys) ==> Owners(TryAdd(verify, p, sig, key).0) == Owners(p) + {IndexOf(p.keys, key).value}
  {
    var q := TryAdd(verify, p, sig, key).0;
    var i := IndexOf(p.keys, key).value;
    assert q.sigs[sig] == key;
    assert i in Owners(q);
    forall j | j in Owners(q) ensures j in Owners(p) + {i} {
      var s :| s in q.sigs && IndexOf(q.keys, q.sigs[s]).Some? && IndexOf(q.keys, q.sigs[s]).value == j;
      if s != sig { assert p.sigs[s] == q.sigs[s]; }
    }
    if OneKeyEach(verify, p.keys) {
      forall j | j in Owners(p) ensures j in Owners(q) {
        var s :| s in p.sigs && IndexOf(p.keys, p.sigs[s]).Some? && IndexOf(p.keys, p.sigs[s]).value == j;
        if s == sig {
          assert p.keys[j] == p.sigs[s] && p.keys[i] == key;
        } else {
          assert q.sigs[s] == p.sigs[s];
        }
      }
    }
  }

  // ----- Round trip -----

  /** `es` lists exactly the stored signatures, each with the encoded index of its key. */
  ghost predicate Lists(p: Simple, es: seq<SparseSig>) {
    && (forall e :: e in es ==> ListedRight(p, e))
    && (forall s :: s in p.sigs ==> exists k :: 0 <= k < |es| && es[k].sig == s)
  }

  ghost predicate ListedRight(p: Simple, e: SparseSig) {
    && e.sig in p.sigs
    && IndexOf(p.keys, p.sigs[e.sig]).Some?
    && e.id == Encode(IndexOf(p.keys, p.sigs[e.sig]).value)
  }

  ghost function OwnersOf(p: Simple, es: seq<SparseSig>): set<nat> {
    set k | 0 <= k < |es| && es[k].sig in p.sigs && IndexOf(p.keys, p.sigs[es[k].sig]).Some? ::
      IndexOf(p.keys, p.sigs[es[k].sig]).value
  }

  lemma OwnersOfAll(p: Simple, es: seq<SparseSig>)
    requires Lists(p, es)
    ensures OwnersOf(p, es) == Owners(p)
  {
    forall i | i in Owners(p) ensures i in OwnersOf(p, es) {
      var s :| s in p.sigs && IndexOf(p.keys, p.sigs[s]).Some? && IndexOf(p.keys, p.sigs[s]).value == i;
      var k :| 0 <= k < |es| && es[k].sig == s;
    }
  }

  lemma OwnersOfNext(p: Simple, es: seq<SparseSig>)
    requires |es| > 0 && ListedRight(p, es[|es| - 1])
    ensures OwnersOf(p, es) == OwnersOf(p, es[..|es| - 1]) + {IndexOf(p.keys, p.sigs[es[|es| - 1].sig]).value}
  {
    var n := |es| - 1;
    forall i | i in OwnersOf(p, es[..n]) ensures i in OwnersOf(p, es) {
      var k :| 0 <= k < n && es[..n][k].sig in p.sigs && IndexOf(p.keys, p.sigs[es[..n][k].sig]).Some?
        && IndexOf(p.keys, p.sigs[es[..n][k].sig]).value == i;
      assert es[k] == es[..n][k];
    }
    forall i | i in OwnersOf(p, es) ensures i in OwnersOf(p, es[..n]) || i == IndexOf(p.keys, p.sigs[es[n].sig]).value {
      var k :| 0 <= k < |es| && es[k].sig in p.sigs && IndexOf(p.keys, p.sigs[es[k].sig]).Some?
        && IndexOf(p.keys, p.sigs[es[k].sig]).value == i;
      if k < n { assert es[..n][k] == es[k]; }
    }
  }

  /** Merging entries whose indices fit in an identifier restores their owners, all valid. */
  lemma {:induction false} MergeRestores(verify: Verify, p: Simple, es: seq<SparseSig>)
    requires Sane(verify, p) && Distinct(p.keys)
    requires forall e :: e in es ==> ListedRight(p, e)
    requires forall i :: i in OwnersOf(p, es) ==> i < ID_SPACE
    ensures
      var m := MergeAll(verify, Empty(p), es);
      m.allValid && m.p.keys == p.keys && m.p.bits == OwnersOf(p, es) && m.added == m.p.bits
  {
    if |es| > 0 {
      var front, e := es[..|es| - 1], es[|es| - 1];
      OwnersOfNext(p, es);
      MergeRestores(verify, p, front);
      IndexOfDistinct(p.keys, e.id);
    }
  }

  /** An entry whose index does not fit names another key, and is refused. */
  lemma {:induction false} WrappedRefused(verify: Verify, p: Simple, es: seq<SparseSig>, k: nat)
    requires Sane(verify, p) && Distinct(p.keys) && OneKeyEach(verify, p.keys)
    requires k < |es| && ListedRight(p, es[k]) && IndexOf(p.keys, p.sigs[es[k].sig]).value >= ID_SPACE
    ensures !MergeAll(verify, Empty(p), es).allValid
  {
    MergeKeysSame(verify, Empty(p), es[..|es| - 1]);
    if k < |es| - 1 {
      assert es[..|es| - 1][k] == es[k];
      WrappedRefused(verify, p, es[..|es| - 1], k);
    } else {
      var e := es[k];
      var i := IndexOf(p.keys, p.sigs[e.sig]).value;
      assert verify(p.keys[i], e.sig);
      assert e.id < i && p.keys[e.id] != p.keys[i];
    }
  }

  lemma {:induction false} MergeKeysSame(verify: Verify, p: Simple, es: seq<SparseSig>)
    ensures MergeAll(verify, p, es).p.keys == p.keys
  {
    if |es| > 0 { MergeKeysSame(verify, p, es[..|es| - 1]); }
  }

  /** Merging a proof's sparse form into a derived proof. The owners of the stored signatures are
    restored, all valid, exactly when they all fit in a 16-bit identifier - always, with at most 65536
    distinct keys. */
  lemma RoundTripIff(verify: Verify, p: Simple, es: seq<SparseSig>)
    requires Sane(verify, p) && Distinct(p.keys) && OneKeyEach(verify, p.keys) && Lists(p, es)
    ensures
      var m := MergeAll(verify, Empty(p), es);
      m.allValid && m.p.bits == Owners(p) <==> forall i :: i in Owners(p) ==> i < ID_SPACE
  {
    OwnersOfAll(p, es);
    if forall i :: i in Owners(p) ==> i < ID_SPACE {
      MergeRestores(verify, p, es);
    } else {
      var i :| i in Owners(p) && i >= ID_SPACE;
      var s :| s in p.sigs && IndexOf(p.keys, p.sigs[s]).Some? && IndexOf(p.keys, p.sigs[s]).value == i;
      var k :| 0 <= k < |es| && es[k].sig == s;
      WrappedRefused(verify, p, es, k);
    }
  }

  /** A history of additions, from an empty proof. */
  function AddAll(verify: Verify, p: Simple, adds: seq<(Sig, Key)>): Simple {
    if |adds| == 0 then p
    else TryAdd(verify, AddAll(verify, p, adds[..|adds| - 1]), adds[|adds| - 1].0, adds[|adds| - 1].1).0
  }

  lemma {:induction false} AddAllSane(verify: Verify, keys: seq<Key>, adds: seq<(Sig, Key)>)
    ensures Sane(verify, AddAll(verify, Simple(keys, map[], {}), adds))
    ensures AddAll(verify, Simple(keys, map[], {}), adds).keys == keys
    ensures OneKeyEach(verify, keys) ==>
      Owners(AddAll(verify, Simple(keys, map[], {}), adds)) == AddAll(verify, Simple(keys, map[], {}), adds).bits
  {
    if |adds| > 0 {
      AddAllSane(verify, keys, adds[..|adds| - 1]);
      var p := AddAll(verify, Simple(keys, map[], {}), adds[..|adds| - 1]);
      if TryAdd(verify, p, adds[|adds| - 1].0, adds[|adds| - 1].1).1.Added? {
        OwnersAfterAdd(verify, p, adds[|adds| - 1].0, adds[|adds| - 1].1);
      }
    }
  }

  /** Sparse round trip: with at most 65536 distinct keys and no signature valid under two of them,
    whatever was added is restored bit by bit. */
  lemma RoundTrip(verify: Verify, keys: seq<Key>, adds: seq<(Sig, Key)>, es: seq<SparseSig>)
    requires Distinct(keys) && |keys| <= ID_SPACE && OneKeyEach(verify, keys)
    requires Lists(AddAll(verify, Simple(keys, map[], {}), adds), es)
    ensures
      var p := AddAll(verify, Simple(keys, map[], {}), adds);
      var m := MergeAll(verify, Empty(p), es);
      m.allValid && m.p.bits == p.bits && m.p.keys == keys
  {
    AddAllSane(verify, keys, adds);
    var p := AddAll(verify, Simple(keys, map[], {}), adds);
    RoundTripIff(verify, p, es);
    MergeKeysSame(verify, Empty(p), es);
  }

  // ----- When signatures may be valid under several keys -----

  /** A stored signature belongs to this index. */
  ghost predicate Owned(p: Simple, i: nat) {
    exists s :: s in p.sigs && IndexOf(p.keys, p.sigs[s]) == Some(i)
  }

  /** The round trip is always all valid, and restores the bits exactly when every set bit owns one of the
    stored signatures. */
  lemma RestoredIff(verify: Verify, p: Simple, es: seq<SparseSig>)
    requires Sane(verify, p) && Distinct(p.keys) && |p.keys| <= ID_SPACE && Lists(p, es)
    ensures
      var m := MergeAll(verify, Empty(p), es);
      && m.allValid && m.p.bits == Owners(p)
      && (m.p.bits == p.bits <==> forall i :: i in p.bits ==> Owned(p, i))
  {
    OwnersOfAll(p, es);
    MergeRestores(verify, p, es);
    forall i ensures i in Owners(p) <==> Owned(p, i) {
    }
  }

  predicate Succeeds(verify: Verify, keys: seq<Key>, add: (Sig, Key)) {
    add.1 in keys && verify(add.1, add.0)
  }

  /** The last successful addition of its signature: the one whose key is kept with it. */
  ghost predicate LastOfItsSig(verify: Verify, keys: seq<Key>, adds: seq<(Sig, Key)>, j: nat)
    requires j < |adds|
  {
    && Succeeds(verify, keys, adds[j])
    && forall k :: j < k < |adds| && adds[k].0 == adds[j].0 ==> !Succeeds(verify, keys, adds[k])
  }

  /** The key keeps a signature: it made the last addition of some signature. */
  ghost predicate KeepsSome(verify: Verify, keys: seq<Key>, adds: seq<(Sig, Key)>, key: Key) {
    exists j :: 0 <= j < |adds| && adds[j].1 == key && LastOfItsSig(verify, keys, adds, j)
  }

  ghost predicate Signed(verify: Verify, keys: seq<Key>, adds: seq<(Sig, Key)>, key: Key) {
    exists j :: 0 <= j < |adds| && adds[j].1 == key && Succeeds(verify, keys, adds[j])
  }

  function Built(verify: Verify, keys: seq<Key>, adds: seq<(Sig, Key)>): Simple {
    AddAll(verify, Simple(keys, map[], {}), adds)
  }

  lemma LastStays(verify: Verify, keys: seq<Key>, adds: seq<(Sig, Key)>, j: nat)
    requires j < |adds| - 1
    ensures
      var n := |adds| - 1;
      LastOfItsSig(verify, keys, adds, j) <==>
        LastOfItsSig(verify, keys, adds[..n], j) && (adds[n].0 == adds[j].0 ==> !Succeeds(verify, keys, adds[n]))
  {
    assert forall k :: 0 <= k < |adds| - 1 ==> adds[..|adds| - 1][k] == adds[k];
  }

  /** A signature is kept with the key of its last addition. */
  lemma {:induction false} KeptWithLast(verify: Verify, keys: seq<Key>, adds: seq<(Sig, Key)>, s: Sig, key: Key)
    ensures
      s in Built(verify, keys, adds).sigs && Built(verify, keys, adds).sigs[s] == key
      <==> exists j :: 0 <= j < |adds| && adds[j] == (s, key) && LastOfItsSig(verify, keys, adds, j)
  {
    if |adds| > 0 {
      var n := |adds| - 1;
      var front := adds[..n];
      AddAllSane(verify, keys, front);
      KeptWithLast(verify, keys, front, s, key);
      forall j | 0 <= j < n && adds[j] == (s, key)
        ensures LastOfItsSig(verify, keys, adds, j) <==>
          LastOfItsSig(verify, keys, front, j) && (adds[n].0 == s ==> !Succeeds(verify, keys, adds[n]))
      {
        LastStays(verify, keys, adds, j);
      }
      assert LastOfItsSig(verify, keys, adds, n) <==> Succeeds(verify, keys, adds[n]);
    }
  }

  /** An index is set exactly when its key signed. */
  lemma {:induction false} SetWhenSigned(verify: Verify, keys: seq<Key>, adds: seq<(Sig, Key)>, i: nat)
    requires Distinct(keys) && i < |keys|
    ensures i in Built(verify, keys, adds).bits <==> Signed(verify, keys, adds, keys[i])
  {
    if |adds| > 0 {
      var n := |adds| - 1;
      var front := adds[..n];
      AddAllSane(verify, keys, front);
      SetWhenSigned(verify, keys, front, i);
      IndexOfDistinct(keys, i);
      assert forall k :: 0 <= k < n ==> front[k] == adds[k];
      assert Signed(verify, keys, adds, keys[i]) <==>
        Signed(verify, keys, front, keys[i]) || (adds[n].1 == keys[i] && Succeeds(verify, keys, adds[n]));
    }
  }

  lemma OwnedWhenKept(verify: Verify, keys: seq<Key>, adds: seq<(Sig, Key)>, i: nat)
    requires Distinct(keys) && i < |keys|
    ensures Owned(Built(verify, keys, adds), i) <==> KeepsSome(verify, keys, adds, keys[i])
  {
    var p := Built(verify, keys, adds);
    AddAllSane(verify, keys, adds);
    IndexOfDistinct(keys, i);
    if Owned(p, i) {
      var s :| s in p.sigs && IndexOf(p.keys, p.sigs[s]) == Some(i);
      KeptWithLast(verify, keys, adds, s, keys[i]);
    }
    if KeepsSome(verify, keys, adds, keys[i]) {
      var j :| 0 <= j < |adds| && adds[j].1 == keys[i] && LastOfItsSig(verify, keys, adds, j);
      KeptWithLast(verify, keys, adds, adds[j].0, keys[i]);
    }
  }

  /** After any additions the round trip loses nothing exactly when every key that signed made the last
    addition of some signature: a signature added again under another key costs the first key its bit
    unless the first key keeps another one. */
  lemma SharingLosesIff(verify: Verify, keys: seq<Key>, adds: seq<(Sig, Key)>, es: seq<SparseSig>)
    requires Distinct(keys) && |keys| <= ID_SPACE && Lists(Built(verify, keys, adds), es)
    ensures
      var p := Built(verify, keys, adds);
      var m := MergeAll(verify, Empty(p), es);
      && m.allValid
      && (m.p.bits == p.bits <==> forall key :: Signed(verify, keys, adds, key) ==> KeepsSome(verify, keys, adds, key))
  {
    var p := Built(verify, keys, adds);
    AddAllSane(verify, keys, adds);
    RestoredIff(verify, p, es);
    forall i | 0 <= i < |keys|
      ensures i in p.bits <==> Signed(verify, keys, adds, keys[i])
      ensures Owned(p, i) <==> KeepsSome(verify, keys, adds, keys[i])
    {
      SetWhenSigned(verify, keys, adds, i);
      OwnedWhenKept(verify, keys, adds, i);
    }
    forall key | Signed(verify, keys, adds, key) ensures key in keys {
    }
  }

  /** One signature under two keys is where it fails: both indices count as signed, but only the last
    key is kept with the signature, so the sparse form has lost the first. */
  lemma SharedSignatureIsLost(verify: Verify, keys: seq<Key>, sig: Sig, i: nat, j: nat)
    requires Distinct(keys) && i < |keys| <= ID_SPACE && j < |keys| && i != j
    requires verify(keys[i], sig) && verify(keys[j], sig)
    ensures
      var p := AddAll(verify, Simple(keys, map[], {}), [(sig, keys[i]), (sig, keys[j])]);
      && p.bits == {i, j}
      && Lists(p, [SparseSig(Encode(j), sig)])
      && MergeAll(verify, Empty(p), [SparseSig(Encode(j), sig)]).p.bits == {j}
  {
    IndexOfDistinct(keys, i);
    IndexOfDistinct(keys, j);
    var start := Simple(keys, map[], {});
    var adds := [(sig, keys[i]), (sig, keys[j])];
    assert adds[..1] == [(sig, keys[i])];
    assert AddAll(verify, start, [(sig, keys[i])]) == TryAdd(verify, start, sig, keys[i]).0;
    var p := AddAll(verify, start, adds);
    assert p == Simple(keys, map[sig := keys[j]], {i, j});
    var es := [SparseSig(Encode(j), sig)];
    assert es[0].sig == sig;
    assert MergeAll(verify, Empty(p), es) == MergeEntry(verify, MergeAll(verify, Empty(p), []), es[0]);
  }

  // ----- The proof as an object -----

  /** Entries in order of their identifiers. */
  ghost predicate Sorted(es: seq<SparseSig>) {
    forall i, j :: 0 <= i < j < |es| ==> es[i].id <= es[j].id
  }

  /** Puts one entry in its place, as sorting the finished list would. */
  method InsertSorted(es: seq<SparseSig>, e: SparseSig) returns (out: seq<SparseSig>)
    requires Sorted(es)
    ensures Sorted(out) && multiset(out) == multiset(es) + multiset{e}
  {
    var i := |es|;
    while i > 0 && e.id < es[i - 1].id
      invariant 0 <= i <= |es| && forall k :: i <= k < |es| ==> e.id < es[k].id
    {
      i := i - 1;
    }
    out := es[..i] + [e] + es[i..];
    InsertedOnce(es, e, i);
    InsertedSorted(es, e, i);
  }

  lemma InsertedOnce(es: seq<SparseSig>, e: SparseSig, i: nat)
    requires i <= |es|
    ensures multiset(es[..i] + [e] + es[i..]) == multiset(es) + multiset{e}
  {
    assert es == es[..i] + es[i..];
  }

  lemma InsertedSorted(es: seq<SparseSig>, e: SparseSig, i: nat)
    requires Sorted(es) && i <= |es|
    requires i > 0 ==> es[i - 1].id <= e.id
    requires forall k :: i <= k < |es| ==> e.id < es[k].id
    ensures Sorted(es[..i] + [e] + es[i..])
  {
    var out := es[..i] + [e] + es[i..];
    forall a, b | 0 <= a < b < |out| ensures out[a].id <= out[b].id {
      assert out[a] == if a < i then es[a] else if a == i then e else es[a - 1];
      assert out[b] == if b < i then es[b] else if b == i then e else es[b - 1];
    }
  }

  lemma ListsMore(p: Simple, es: seq<SparseSig>, out: seq<SparseSig>, e: SparseSig, rest: set<Sig>)
    requires multiset(out) == multiset(es) + multiset{e} && ListedRight(p, e)
    requires forall x :: x in es ==> ListedRight(p, x)
    requires forall s :: s in p.sigs && s !in rest && s != e.sig ==> exists k :: 0 <= k < |es| && es[k].sig == s
    ensures forall x :: x in out ==> ListedRight(p, x)
    ensures forall s :: s in p.sigs && s !in rest ==> exists k :: 0 <= k < |out| && out[k].sig == s
  {
    forall x | x in out ensures ListedRight(p, x) {
      assert x in multiset(out);
    }
    assert e in multiset(out);
    forall s | s in p.sigs && s !in rest ensures exists k :: 0 <= k < |out| && out[k].sig == s {
      var x := e;
      if s != e.sig {
        var k :| 0 <= k < |es| && es[k].sig == s;
        x := es[k];
        assert x in multiset(es);
      }
      assert x in multiset(out) && x in out;
    }
  }

  /** The other proof's signature is already here under the same key, or verifies. */
  predicate Agrees(verify: Verify, here: map<Sig, Key>, other: map<Sig, Key>, s: Sig) {
    s in other && if s in here then here[s] == other[s] else verify(other[s], s)
  }

  /** The other proof's signature is new here, and verifies. */
  predicate Gains(verify: Verify, here: map<Sig, Key>, other: map<Sig, Key>, s: Sig) {
    s in other && s !in here && verify(other[s], s)
  }

  /** The bits set are those set before and the indices of the signatures gained outside `rest`. */
  ghost predicate BitsGained(verify: Verify, keys: seq<Key>, here: map<Sig, Key>, other: map<Sig, Key>, rest: set<Sig>,
                             before: set<nat>, bits: set<nat>)
  {
    forall i :: i in bits <==>
      i in before || exists s :: s !in rest && Gains(verify, here, other, s) && IndexOf(keys, other[s]) == Some(i)
  }

  /** The stored signatures are those stored before and those gained outside `rest`. */
  ghost predicate SigsGained(verify: Verify, here: map<Sig, Key>, other: map<Sig, Key>, rest: set<Sig>, sigs: map<Sig, Key>) {
    && (forall s :: s in sigs <==> s in here || (s !in rest && Gains(verify, here, other, s)))
    && (forall s :: s in sigs ==> sigs[s] == if s in here then here[s] else other[s])
  }

  ghost predicate FlagsTell(verify: Verify, here: map<Sig, Key>, other: map<Sig, Key>, rest: set<Sig>, allValid: bool, increased: bool) {
    && (allValid <==> forall s :: s in other && s !in rest ==> Agrees(verify, here, other, s))
    && (increased <==> exists s :: s !in rest && Gains(verify, here, other, s))
  }

  /** Between sane proofs a merge is the union of the signatures, and all are called valid exactly when no
    signature is held under different keys. */
  lemma MergedIsUnion(verify: Verify, p: Simple, q: Simple, sigs: map<Sig, Key>, bits: set<nat>, allValid: bool, increased: bool)
    requires Sane(verify, p) && Sane(verify, q) && p.keys == q.keys
    requires FlagsTell(verify, p.sigs, q.sigs, {}, allValid, increased)
    requires SigsGained(verify, p.sigs, q.sigs, {}, sigs) && BitsGained(verify, p.keys, p.sigs, q.sigs, {}, p.bits, bits)
    ensures forall s :: s in sigs <==> s in p.sigs || s in q.sigs
    ensures forall s :: s in sigs ==> sigs[s] == if s in p.sigs then p.sigs[s] else q.sigs[s]
    ensures allValid <==> forall s :: s in p.sigs && s in q.sigs ==> p.sigs[s] == q.sigs[s]
    ensures increased <==> exists s :: s in q.sigs && s !in p.sigs
    ensures forall i :: i in bits <==> i in p.bits || exists s :: s in q.sigs && s !in p.sigs && IndexOf(p.keys, q.sigs[s]) == Some(i)
  {
    forall s ensures Gains(verify, p.sigs, q.sigs, s) <==> s in q.sigs && s !in p.sigs {
    }
  }

  lemma MergedOneMore(verify: Verify, keys: seq<Key>, here: map<Sig, Key>, other: map<Sig, Key>, rest: set<Sig>,
                      before: set<nat>, bits: set<nat>, sigs: map<Sig, Key>, allValid: bool, increased: bool, s: Sig)
    requires BitsGained(verify, keys, here, other, rest, before, bits)
    requires SigsGained(verify, here, other, rest, sigs)
    requires FlagsTell(verify, here, other, rest, allValid, increased)
    requires s in rest && s in other && other[s] in keys
    ensures s in sigs <==> s in here
    ensures
      var gains, agrees := Gains(verify, here, other, s), Agrees(verify, here, other, s);
      && BitsGained(verify, keys, here, other, rest - {s}, before, if gains then bits + {IndexOf(keys, other[s]).value} else bits)
      && SigsGained(verify, here, other, rest - {s}, if gains then sigs[s := other[s]] else sigs)
      && FlagsTell(verify, here, other, rest - {s}, allValid && agrees, increased || gains)
  {
  }

  class SignatureProof {
    const msg: string
    const keyHash: string
    const verify: Verify
    const keys: seq<Key>
    const keyIdxs: map<Key, nat>
    var sigs: map<Sig, Key>
    var bits: set<nat>

    ghost function Model(): Simple
      reads this
    {
      Simple(keys, sigs, bits)
    }

    /** The index map agrees with the last occurrence of each key. */
    ghost predicate Valid()
      reads this
    {
      && (forall k :: k in keyIdxs <==> IndexOf(keys, k).Some?)
      && (forall k :: k in keyIdxs ==> keyIdxs[k] == IndexOf(keys, k).value)
      && Sane(verify, Model())
    }

    static method IndexKeys(keys: seq<Key>) returns (m: map<Key, nat>)
      ensures forall k :: k in m <==> IndexOf(keys, k).Some?
      ensures forall k :: k in m ==> m[k] == IndexOf(keys, k).value
    {
      m := map[];
      for i := 0 to |keys|
        invariant forall k :: k in m <==> IndexOf(keys[..i], k).Some?
        invariant forall k :: k in m ==> m[k] == IndexOf(keys[..i], k).value
      {
        assert keys[..i + 1][..i] == keys[..i];
        m := m[keys[i] := i];
      }
      assert keys[..|keys|] == keys;
    }

    constructor (msg: string, verify: Verify, candidateKeys: seq<Key>, pubKeyHash: string)
      ensures Valid() && Model() == Simple(candidateKeys, map[], {})
      ensures this.msg == msg && this.verify == verify && keyHash == pubKeyHash
    {
      var m := IndexKeys(candidateKeys);
      this.msg, this.verify, keyHash := msg, verify, pubKeyHash;
      keys, keyIdxs, sigs, bits := candidateKeys, m, map[], {};
    }

    /** A proof for the same message and keys, with no signatures. */
    constructor Derive(p: SignatureProof)
      requires p.Valid()
      ensures Valid() && Model() == Empty(p.Model())
      ensures msg == p.msg && verify == p.verify && keyHash == p.keyHash
    {
      msg, verify, keyHash := p.msg, p.verify, p.keyHash;
      keys, keyIdxs, sigs, bits := p.keys, p.keyIdxs, map[], {};
    }

    method AddSignature(sig: Sig, key: Key) returns (res: AddResult)
      requires Valid()
      modifies this
      ensures Valid() && (Model(), res) == TryAdd(verify, old(Model()), sig, key)
    {
      if key !in keyIdxs {
        return UnknownKey;
      }
      if !verify(key, sig) {
        return InvalidSignature;
      }
      OwnersAfterAdd(verify, Model(), sig, key);
      sigs := sigs[sig := key];
      bits := bits + {keyIdxs[key]};
      return Added;
    }

    /** One signature of another proof over the same keys. */
    method MergeSignature(otherSig: Sig, otherKey: Key) returns (added: bool, ok: bool)
      requires Valid() && otherKey in keys
      modifies this
      ensures Valid()
      ensures ok <==> if otherSig in old(sigs) then old(sigs)[otherSig] == otherKey else verify(otherKey, otherSig)
      ensures added <==> otherSig !in old(sigs) && verify(otherKey, otherSig)
      ensures sigs == if added then old(sigs)[otherSig := otherKey] else old(sigs)
      ensures bits == if added then old(bits) + {IndexOf(keys, otherKey).value} else old(bits)
    {
      added, ok := false, true;
      if otherSig !in sigs {
        var res := AddSignature(otherSig, otherKey);
        added, ok := res.Added?, res.Added?;
      } else if sigs[otherSig] != otherKey {
        ok := false;
      }
    }

    /** Adds every signature of the other proof that is missing here. Whatever the order of the pass, the
      other's signatures end up here if and only if they verify. */
    method Merge(o: SignatureProof) returns (res: MergeFlags)
      requires Valid() && o.Valid() && o != this
      modifies this
      ensures Valid()
      ensures
        if msg != o.msg || keyHash != o.keyHash || keys != o.keys then
          Model() == old(Model()) && res == MergeFlags(false, false, false)
        else
          && FlagsTell(verify, old(sigs), o.sigs, {}, res.allValid, res.increased)
          && SigsGained(verify, old(sigs), o.sigs, {}, sigs)
          && BitsGained(verify, keys, old(sigs), o.sigs, {}, old(bits), bits)
          && (res.strictSuperset <==> res.allValid && ((o.bits == {} && old(bits) == {}) || old(bits) < o.bits))
    {
      if msg != o.msg || keyHash != o.keyHash || keys != o.keys {
        return MergeFlags(false, false, false);
      }
      var allValid, increased := true, false;
      var looksLikeStrictSuperset := (o.bits == {} && bits == {}) || bits < o.bits;
      var rest := o.sigs.Keys;
      while rest != {}
        invariant Valid() && rest <= o.sigs.Keys
        invariant FlagsTell(verify, old(sigs), o.sigs, rest, allValid, increased)
        invariant SigsGained(verify, old(sigs), o.sigs, rest, sigs)
        invariant BitsGained(verify, keys, old(sigs), o.sigs, rest, old(bits), bits)
        decreases |rest|
      {
        var otherSig :| otherSig in rest;
        MergedOneMore(verify, keys, old(sigs), o.sigs, rest, old(bits), bits, sigs, allValid, increased, otherSig);
        rest := rest - {otherSig};
        var added, ok := MergeSignature(otherSig, o.sigs[otherSig]);
        increased := increased || added;
        allValid := allValid && ok;
      }
      return MergeFlags(allValid, increased, looksLikeStrictSuperset && allValid);
    }

    /** The stored signatures, each with the encoded index of its key, in order of the identifiers. */
    method AsSparse() returns (es: seq<SparseSig>)
      requires Valid()
      ensures Lists(Model(), es) && Sorted(es) && |es| == |sigs|
    {
      es := [];
      var rest := sigs.Keys;
      while rest != {}
        invariant rest <= sigs.Keys && Sorted(es) && |es| + |rest| == |sigs|
        invariant forall e :: e in es ==> ListedRight(Model(), e)
        invariant forall s :: s in sigs && s !in rest ==> exists k :: 0 <= k < |es| && es[k].sig == s
        decreases |rest|
      {
        var sig :| sig in rest;
        var e := SparseSig(Encode(keyIdxs[sigs[sig]]), sig);
        var before := es;
        es := InsertSorted(es, e);
        assert |multiset(es)| == |multiset(before)| + 1;
        ListsMore(Model(), before, es, e, rest - {sig});
        rest := rest - {sig};
      }
    }

    method MergeSparse(pubKeyHash: string, es: seq<RawSig>) returns (panicked: bool, res: MergeFlags)
      requires Valid()
      modifies this
      ensures Valid()
      ensures keyHash != pubKeyHash ==> !panicked && Model() == old(Model()) && res == MergeFlags(false, false, false)
      ensures keyHash == pubKeyHash ==> (panicked <==> !Readable(es))
      ensures keyHash == pubKeyHash && Readable(es) ==>
        var m := MergeAll(verify, old(Model()), Read(es));
        && Model() == m.p
        && res == MergeFlags(m.allValid, |bits| > |old(bits)|, old(bits) < m.added)
    {
      panicked, res := false, MergeFlags(false, false, false);
      if keyHash != pubKeyHash {
        return;
      }
      var allValid, before := true, bits;
      var added: set<nat> := {};
      for i := 0 to |es|
        invariant Valid() && Readable(es[..i])
        invariant Merging(Model(), allValid, added) == MergeAll(verify, old(Model()), Read(es[..i]))
      {
        if es[i].keyId.Short? {
          panicked := true;
          return;
        }
        ReadNext(es, i);
        var n := es[i].keyId.n;
        if n >= |keys| {
          allValid := false;
        } else {
          var r := AddSignature(es[i].sig, keys[n]);
          if r.Added? {
            added := added + {n};
          } else {
            allValid := false;
          }
        }
      }
      assert es[..|es|] == es;
      res := MergeFlags(allValid, |bits| > |before|, before < added);
    }

    method HasSparseKeyID(id: KeyId) returns (has: bool, valid: bool)
      ensures valid <==> id.Exact? && id.n < |keys|
      ensures has <==> valid && id.n in bits
    {
      if !id.Exact? {
        return false, false;
      }
      if id.n >= |keys| {
        return false, false;
      }
      return id.n in bits, true;
    }
  }

  lemma ReadNext(es: seq<RawSig>, i: nat)
    requires i < |es| && Readable(es[..i]) && !es[i].keyId.Short?
    ensures Readable(es[..i + 1])
    ensures Read(es[..i + 1]) == Read(es[..i]) + [SparseSig(es[i].keyId.n, es[i].sig)]
    ensures Read(es[..i + 1])[..i] == Read(es[..i])
  {
  }

  /** Deriving and merging a proof's own sparse form reports all signatures valid and restores its bits. */
  method SparseRoundTrip(p: SignatureProof) returns (q: SignatureProof, res: MergeFlags)
    requires p.Valid() && Distinct(p.keys) && |p.keys| <= ID_SPACE
    requires OneKeyEach(p.verify, p.keys) && Owners(p.Model()) == p.bits
    ensures q.Valid() && q.keys == p.keys && q.bits == p.bits && res.allValid
    ensures res.increased <==> p.bits != {}
  {
    var es := p.AsSparse();
    q := new SignatureProof.Derive(p);
    RoundTripIff(p.verify, p.Model(), es);
    MergeKeysSame(p.verify, Empty(p.Model()), es);
    var panicked;
    panicked, res := q.MergeSparse(p.keyHash, Write(es));
  }
}
