/**
 The prefix-wrapped key-value store (damocles-manager/pkg/kvstore/prefix_wrapper.go).

 A wrapper keeps its keys in a shared inner store, each behind the wrapper's prefix.
 */
module PrefixStore {
  import opened Common

  newtype byte = x: int | 0 <= x < 256

  const SLASH: byte := 47

  type Key = seq<byte>
  type Val = seq<byte>
  type Store = map<Key, Val>

  /** The prefix a wrapper uses; an empty one is refused. */
  function Normalize(prefix: Key): Result<Key> {
    if prefix == [] then Err
    else if prefix[|prefix| - 1] != SLASH then Ok(prefix + [SLASH])
    else Ok(prefix)
  }

  /** A prefix gets exactly one slash more if it does not end in one; none is refused but the empty one. */
  lemma NormalizeIs(prefix: Key)
    ensures Normalize(prefix).Ok? <==> prefix != []
    ensures prefix != [] ==> var p := Normalize(prefix).value;
                             && p[|p| - 1] == SLASH && Normalize(p) == Ok(p)
                             && (p == prefix || p == prefix + [SLASH])
  {
  }

  function MakeKey(prefix: Key, raw: Key): Key {
    prefix + raw
  }

  /** What an iterator over the inner store reports: stripped only if something remains. */
  function IterKey(prefixLen: nat, key: Key): Key {
    if |key| > prefixLen then key[prefixLen..] else key
  }

  /** The store a wrapper stands for: the inner entries behind its prefix, without it. */
  ghost function Wrapped(inner: Store, prefix: Key): Store {
    var raws := set key | key in inner && prefix <= key :: key[|prefix|..];
    map raw | raw in raws && MakeKey(prefix, raw) in inner :: inner[MakeKey(prefix, raw)]
  }

  lemma WrappedAt(inner: Store, prefix: Key, raw: Key)
    ensures raw in Wrapped(inner, prefix) <==> MakeKey(prefix, raw) in inner
    ensures raw in Wrapped(inner, prefix) ==> Wrapped(inner, prefix)[raw] == inner[MakeKey(prefix, raw)]
  {
    var key := MakeKey(prefix, raw);
    assert prefix <= key && key[|prefix|..] == raw;
  }

  /** Two stores that answer alike for every key are the same wrapped store. */
  lemma WrappedIs(inner: Store, prefix: Key, s: Store)
    requires forall raw: Key :: raw in s <==> MakeKey(prefix, raw) in inner
    requires forall raw: Key :: raw in s ==> s[raw] == inner[MakeKey(prefix, raw)]
    ensures Wrapped(inner, prefix) == s
  {
    forall raw: Key
      ensures raw in Wrapped(inner, prefix) <==> raw in s
      ensures raw in s ==> Wrapped(inner, prefix)[raw] == s[raw]
    {
      WrappedAt(inner, prefix, raw);
    }
  }

  // ---------------------------------------------------------------------------
  // Operations

  lemma SameKey(prefix: Key, a: Key, b: Key)
    ensures MakeKey(prefix, a) == MakeKey(prefix, b) <==> a == b
  {
    assert MakeKey(prefix, a)[|prefix|..] == a;
    assert MakeKey(prefix, b)[|prefix|..] == b;
  }

  /** Putting and deleting through a wrapper is putting and deleting in the store it stands for. */
  lemma PutDelCommute(inner: Store, prefix: Key, raw: Key, val: Val)
    ensures Wrapped(inner[MakeKey(prefix, raw) := val], prefix) == Wrapped(inner, prefix)[raw := val]
    ensures Wrapped(inner - {MakeKey(prefix, raw)}, prefix) == Wrapped(inner, prefix) - {raw}
  {
    forall r: Key
      ensures r in Wrapped(inner, prefix) <==> MakeKey(prefix, r) in inner
      ensures r in Wrapped(inner, prefix) ==> Wrapped(inner, prefix)[r] == inner[MakeKey(prefix, r)]
      ensures MakeKey(prefix, r) == MakeKey(prefix, raw) <==> r == raw
    {
      WrappedAt(inner, prefix, r);
      SameKey(prefix, r, raw);
    }
    WrappedIs(inner[MakeKey(prefix, raw) := val], prefix, Wrapped(inner, prefix)[raw := val]);
    WrappedIs(inner - {MakeKey(prefix, raw)}, prefix, Wrapped(inner, prefix) - {raw});
  }

  /** A scan: every key with the prefix once, in whatever order the store has. */
  ghost predicate Scans(s: Store, prefix: Key, keys: seq<Key>) {
    && (forall i, j :: 0 <= i < j < |keys| ==> keys[i] != keys[j])
    && (forall key: Key :: key in keys <==> key in s && prefix <= key)
  }

  /** A wrapped iterator yields the scan of the store the wrapper stands for, key by key; the one
      key it gets wrong is the empty one, for which it reports the bare prefix. */
  lemma ScanCommutes(inner: Store, prefix: Key, under: Key, keys: seq<Key>)
    requires prefix != [] && Scans(inner, MakeKey(prefix, under), keys)
    ensures forall i :: 0 <= i < |keys| ==> prefix <= keys[i]
    ensures Scans(Wrapped(inner, prefix), under, Stripped(prefix, keys))
    ensures forall i :: 0 <= i < |keys| ==>
              (IterKey(|prefix|, keys[i]) == Stripped(prefix, keys)[i] <==> Stripped(prefix, keys)[i] != [])
    ensures forall i :: 0 <= i < |keys| && Stripped(prefix, keys)[i] == [] ==> IterKey(|prefix|, keys[i]) == prefix
  {
    var raws := Stripped(prefix, keys);
    forall i | 0 <= i < |keys| ensures prefix <= keys[i] && keys[i] == MakeKey(prefix, raws[i]) {
      assert keys[i] in keys;
      Behind(prefix, under, keys[i]);
    }
    forall raw: Key ensures raw in raws <==> raw in Wrapped(inner, prefix) && under <= raw {
      WrappedAt(inner, prefix, raw);
      BehindIff(prefix, under, raw);
      if MakeKey(prefix, raw) in keys {
        var i :| 0 <= i < |keys| && keys[i] == MakeKey(prefix, raw);
        SameKey(prefix, raws[i], raw);
      }
      if raw in raws {
        var i :| 0 <= i < |raws| && raws[i] == raw;
        assert keys[i] in keys;
      }
    }
  }

  function Stripped(prefix: Key, keys: seq<Key>): seq<Key> {
    seq(|keys|, i requires 0 <= i < |keys| => if |prefix| <= |keys[i]| then keys[i][|prefix|..] else [])
  }

  lemma Behind(prefix: Key, under: Key, key: Key)
    requires MakeKey(prefix, under) <= key
    ensures prefix <= key && key == MakeKey(prefix, key[|prefix|..])
  {
    assert key[..|prefix|] == MakeKey(prefix, under)[..|prefix|] == prefix;
  }

  lemma BehindIff(prefix: Key, under: Key, raw: Key)
    ensures MakeKey(prefix, under) <= MakeKey(prefix, raw) <==> under <= raw
  {
    var a, b := MakeKey(prefix, under), MakeKey(prefix, raw);
    assert a[|prefix|..] == under && b[|prefix|..] == raw;
    if a <= b {
      assert forall i :: 0 <= i < |under| ==> under[i] == a[|prefix| + i] == b[|prefix| + i] == raw[i];
    }
  }

  // ---------------------------------------------------------------------------
  // Sharing the inner store

  predicate Apart(p: Key, q: Key) {
    !(p <= q) && !(q <= p)
  }

  /** Keys behind one prefix are never behind another that is apart from it. */
  lemma SharedKey(p: Key, q: Key, a: Key, b: Key)
    ensures MakeKey(p, a) == MakeKey(q, b) ==> !Apart(p, q)
  {
    var key, other := MakeKey(p, a), MakeKey(q, b);
    assert key[..|p|] == p && other[..|q|] == q;
    if key == other && |p| <= |q| {
      assert q[..|p|] == p;
    } else if key == other {
      assert p[..|q|] == q;
    }
  }

  /** A change behind `p` is invisible through `q` when the two are apart. */
  lemma ApartUnseen(inner: Store, p: Key, q: Key, raw: Key, val: Val)
    requires Apart(p, q)
    ensures Wrapped(inner[MakeKey(p, raw) := val], q) == Wrapped(inner, q)
    ensures Wrapped(inner - {MakeKey(p, raw)}, q) == Wrapped(inner, q)
  {
    forall r: Key
      ensures r in Wrapped(inner, q) <==> MakeKey(q, r) in inner
      ensures r in Wrapped(inner, q) ==> Wrapped(inner, q)[r] == inner[MakeKey(q, r)]
      ensures MakeKey(q, r) != MakeKey(p, raw)
    {
      WrappedAt(inner, q, r);
      SharedKey(p, q, raw, r);
    }
    WrappedIs(inner[MakeKey(p, raw) := val], q, Wrapped(inner, q));
    WrappedIs(inner - {MakeKey(p, raw)}, q, Wrapped(inner, q));
  }

  /** When one prefix extends the other, each wrapper can write a key the other one reads. */
  lemma NestedSeen(p: Key, q: Key, val: Val)
    requires p <= q || q <= p
    ensures exists raw: Key :: Wrapped(map[MakeKey(p, raw) := val], q) != Wrapped(map[], q)
  {
    var raw: Key, r: Key := if p <= q then q[|p|..] else [], if p <= q then [] else p[|q|..];
    assert MakeKey(p, raw) == MakeKey(q, r);
    WrappedAt(map[MakeKey(p, raw) := val], q, r);
    WrappedAt(map[], q, r);
  }

  /** Two wrappers never see each other's writes exactly when neither prefix extends the other. */
  lemma UnseenIffApart(p: Key, q: Key)
    ensures Apart(p, q) <==>
            forall inner: Store, raw: Key, val: Val :: Unseen(inner, p, q, raw, val)
  {
    if Apart(p, q) {
      forall inner: Store, raw: Key, val: Val ensures Unseen(inner, p, q, raw, val) {
        ApartUnseen(inner, p, q, raw, val);
      }
    } else {
      NestedSeen(p, q, []);
      var raw: Key :| Wrapped(map[MakeKey(p, raw) := []], q) != Wrapped(map[], q);
      var none: Store := map[];
      assert none[MakeKey(p, raw) := []] == map[MakeKey(p, raw) := []];
      assert !Unseen(none, p, q, raw, []);
    }
  }

  ghost predicate Unseen(inner: Store, p: Key, q: Key, raw: Key, val: Val) {
    Wrapped(inner[MakeKey(p, raw) := val], q) == Wrapped(inner, q)
  }

  /** Prefixes made from different names without slashes are apart. */
  lemma NamesAreApart(a: Key, b: Key)
    requires a != [] && b != [] && a != b && SLASH !in a && SLASH !in b
    ensures Normalize(a).Ok? && Normalize(b).Ok? && Apart(Normalize(a).value, Normalize(b).value)
  {
    assert a[|a| - 1] in a && b[|b| - 1] in b;
    SlashEnds(a, b);
    SlashEnds(b, a);
  }

  lemma SlashEnds(a: Key, b: Key)
    requires SLASH !in a && SLASH !in b
    ensures a + [SLASH] <= b + [SLASH] ==> a == b
  {
    var p, q := a + [SLASH], b + [SLASH];
    assert |a| < |b| ==> q[|a|] == b[|a|] && b[|a|] in b;
    if p <= q && |a| == |b| {
      assert a == p[..|a|] == q[..|a|] == b;
    }
    assert p <= q ==> p[|a|] == q[|a|];
  }

  // ---------------------------------------------------------------------------
  // prefix_wrapper.go

  class InnerStore {
    var entries: Store

    constructor ()
      ensures entries == map[]
    {
      entries := map[];
    }
  }

  class WrappedStore {
    const prefix: Key
    const inner: InnerStore

    constructor (prefix: Key, inner: InnerStore)
      requires Normalize(prefix).Ok?
      ensures this.prefix == Normalize(prefix).value && this.inner == inner
    {
      this.prefix, this.inner := Normalize(prefix).value, inner;
    }

    /** The store this wrapper stands for. */
    ghost function View(): Store
      reads this, inner
    {
      Wrapped(inner.entries, prefix)
    }

    method Get(key: Key) returns (r: Result<Val>)
      ensures r == if key in View() then Ok(View()[key]) else Err
    {
      WrappedAt(inner.entries, prefix, key);
      var full := MakeKey(prefix, key);
      r := if full in inner.entries then Ok(inner.entries[full]) else Err;
    }

    method Put(key: Key, val: Val)
      modifies inner
      ensures View() == old(View())[key := val]
      ensures inner.entries == old(inner.entries)[MakeKey(prefix, key) := val]
    {
      PutDelCommute(inner.entries, prefix, key, val);
      inner.entries := inner.entries[MakeKey(prefix, key) := val];
    }

    method Del(key: Key)
      modifies inner
      ensures View() == old(View()) - {key}
      ensures inner.entries == old(inner.entries) - {MakeKey(prefix, key)}
    {
      PutDelCommute(inner.entries, prefix, key, []);
      inner.entries := inner.entries - {MakeKey(prefix, key)};
    }
  }

  // ---------------------------------------------------------------------------
  // Runs

  /** An operation through the first or the second of two wrappers. */
  datatype Op = Put(first: bool, key: Key, val: Val) | Del(first: bool, key: Key)

  function Apply(inner: Store, prefix: Key, op: Op): Store {
    match op
    case Put(_, key, val) => inner[MakeKey(prefix, key) := val]
    case Del(_, key) => inner - {MakeKey(prefix, key)}
  }

  /** The inner store after the first `n` operations through both wrappers. */
  function Run(inner: Store, p: Key, q: Key, ops: seq<Op>, n: nat): Store
    requires n <= |ops|
  {
    if n == 0 then inner
    else Apply(Run(inner, p, q, ops, n - 1), if ops[n - 1].first then p else q, ops[n - 1])
  }

  /** A store of its own that gets only the operations of one wrapper. */
  function RunAlone(s: Store, ops: seq<Op>, n: nat, first: bool): Store
    requires n <= |ops|
  {
    if n == 0 then s
    else if ops[n - 1].first == first then Apply(RunAlone(s, ops, n - 1, first), [], ops[n - 1])
    else RunAlone(s, ops, n - 1, first)
  }

  lemma ApplyCommutes(inner: Store, prefix: Key, op: Op)
    ensures Wrapped(Apply(inner, prefix, op), prefix) == Apply(Wrapped(inner, prefix), [], op)
  {
    assert MakeKey([], op.key) == op.key;
    PutDelCommute(inner, prefix, op.key, if op.Put? then op.val else []);
  }

  /** `s` is the store the wrapper stands for. */
  ghost predicate StandsFor(inner: Store, prefix: Key, s: Store) {
    forall raw: Key :: SameAt(inner, prefix, s, raw)
  }

  ghost predicate SameAt(inner: Store, prefix: Key, s: Store, raw: Key) {
    && (raw in s <==> MakeKey(prefix, raw) in inner)
    && (raw in s ==> s[raw] == inner[MakeKey(prefix, raw)])
  }

  lemma StandsForIff(inner: Store, prefix: Key, s: Store)
    ensures StandsFor(inner, prefix, s) <==> s == Wrapped(inner, prefix)
  {
    if StandsFor(inner, prefix, s) {
      forall raw: Key
        ensures raw in s <==> MakeKey(prefix, raw) in inner
        ensures raw in s ==> s[raw] == inner[MakeKey(prefix, raw)]
      {
        assert SameAt(inner, prefix, s, raw);
      }
      WrappedIs(inner, prefix, s);
    } else {
      var raw: Key :| !SameAt(inner, prefix, s, raw);
      WrappedAt(inner, prefix, raw);
    }
  }

  lemma StepIsOwn(inner: Store, mine: Key, other: Key, op: Op, m: Store, o: Store)
    requires Apart(mine, other) && StandsFor(inner, mine, m) && StandsFor(inner, other, o)
    ensures StandsFor(Apply(inner, mine, op), mine, Apply(m, [], op))
    ensures StandsFor(Apply(inner, mine, op), other, o)
  {
    StandsForIff(inner, mine, m);
    StandsForIff(inner, other, o);
    ApplyCommutes(inner, mine, op);
    ApartUnseen(inner, mine, other, op.key, if op.Put? then op.val else []);
    StandsForIff(Apply(inner, mine, op), mine, Apply(m, [], op));
    StandsForIff(Apply(inner, mine, op), other, o);
  }

  lemma RunStep(inner: Store, p: Key, q: Key, s: Store, t: Store, op: Op, next: Store, s': Store, t': Store)
    requires Apart(p, q) && StandsFor(inner, p, s) && StandsFor(inner, q, t)
    requires next == Apply(inner, if op.first then p else q, op)
    requires s' == (if op.first then Apply(s, [], op) else s) && t' == (if op.first then t else Apply(t, [], op))
    ensures StandsFor(next, p, s') && StandsFor(next, q, t')
  {
    if op.first {
      StepIsOwn(inner, p, q, op, s, t);
    } else {
      StepIsOwn(inner, q, p, op, t, s);
    }
  }

  /** Over any interleaving of operations, each of two wrappers apart behaves as a store of its
      own on which only its own operations happened. */
  lemma {:induction false} WrappersAreIndependent(inner: Store, p: Key, q: Key, s: Store, t: Store, ops: seq<Op>, n: nat)
    requires n <= |ops| && Apart(p, q) && StandsFor(inner, p, s) && StandsFor(inner, q, t)
    ensures StandsFor(Run(inner, p, q, ops, n), p, RunAlone(s, ops, n, true))
    ensures StandsFor(Run(inner, p, q, ops, n), q, RunAlone(t, ops, n, false))
  {
    if n > 0 {
      WrappersAreIndependent(inner, p, q, s, t, ops, n - 1);
      RunStep(Run(inner, p, q, ops, n - 1), p, q, RunAlone(s, ops, n - 1, true), RunAlone(t, ops, n - 1, false),
              ops[n - 1], Run(inner, p, q, ops, n), RunAlone(s, ops, n, true), RunAlone(t, ops, n, false));
    }
  }

  /** Wrapping a wrapper is wrapping once with both prefixes. */
  lemma NestingComposes(inner: Store, p: Key, q: Key)
    ensures Wrapped(Wrapped(inner, p), q) == Wrapped(inner, p + q)
  {
    forall raw: Key
      ensures raw in Wrapped(inner, p + q) <==> MakeKey(q, raw) in Wrapped(inner, p)
      ensures raw in Wrapped(inner, p + q) ==> Wrapped(inner, p + q)[raw] == Wrapped(inner, p)[MakeKey(q, raw)]
    {
      assert MakeKey(p + q, raw) == MakeKey(p, MakeKey(q, raw));
      WrappedAt(inner, p + q, raw);
      WrappedAt(inner, p, MakeKey(q, raw));
    }
    WrappedIs(Wrapped(inner, p), q, Wrapped(inner, p + q));
  }
}
