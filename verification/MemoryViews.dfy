/** Many memory views over one flat store: each view's keys carry its identity as a prefix, and the views behave as
    independent maps. Time to live is 0 throughout. */
module MemoryViews {
  import opened Graph
  import opened Wrappers
  import opened Base64Url

  datatype Scope = Working | Session | Store

  /** Whose keys: a tier, an agent and a session. The long-term tier leaves both ids empty. */
  datatype Identity = Identity(scope: Scope, agent: Text, session: Text)

  datatype Value = Value(token: int)

  type Entries = map<Text, Value>

  function Ascii(s: string): Text {
    seq(|s|, i requires 0 <= i < |s| => s[i] as int % 256)
  }

  function ScopeName(s: Scope): Text {
    match s
    case Working => Ascii("working")
    case Session => Ascii("session")
    case Store => Ascii("store")
  }

  function KeyPrefix(v: Identity): Text {
    Ascii("mem:") + (ScopeName(v.scope) + [COLON] + (Encode(v.agent) + [COLON] + (Encode(v.session) + [COLON])))
  }

  function PhysicalKey(v: Identity, logical: Text): Text {
    KeyPrefix(v) + logical
  }

  function LogicalKey(v: Identity, physical: Text): Text {
    if KeyPrefix(v) <= physical then physical[|KeyPrefix(v)|..] else physical
  }

  // ---- keys

  /** Logical and physical keys of one view round-trip both ways. */
  lemma KeysRoundTrip(v: Identity, key: Text)
    ensures LogicalKey(v, PhysicalKey(v, key)) == key
    ensures KeyPrefix(v) <= key ==> PhysicalKey(v, LogicalKey(v, key)) == key
  {
    hide KeyPrefix;
  }

  /** A field that ends at its first delimiter can be read off in one way only. */
  lemma {:induction false} FieldSplits(a: Text, b: Text, x: Text, y: Text)
    requires COLON !in a && COLON !in b && a + [COLON] + x == b + [COLON] + y
    ensures a == b && x == y
    decreases |a|
  {
    var s, t := a + [COLON] + x, b + [COLON] + y;
    assert s[0] == if a == [] then COLON else a[0];
    assert t[0] == if b == [] then COLON else b[0];
    if a == [] {
      assert s[1..] == x && t[1..] == y;
    } else {
      assert s[1..] == a[1..] + [COLON] + x && t[1..] == b[1..] + [COLON] + y;
      FieldSplits(a[1..], b[1..], x, y);
    }
  }

  lemma ScopeNames(a: Scope, b: Scope)
    ensures COLON !in ScopeName(a)
    ensures ScopeName(a) == ScopeName(b) ==> a == b
  {
    assert ScopeName(Working)[0] == 119;
    assert |ScopeName(Session)| == 7 && ScopeName(Session)[0] == 115;
    assert |ScopeName(Store)| == 5;
  }

  /** No key belongs to two identities: whatever follows their prefixes, distinct ones part ways before it. */
  lemma PrefixesApart(v: Identity, u: Identity, x: Text, y: Text)
    requires PhysicalKey(v, x) == PhysicalKey(u, y)
    ensures v == u && x == y
  {
    hide Encode, ScopeName, Ascii;
    var p, q := PhysicalKey(v, x), PhysicalKey(u, y);
    var n := |Ascii("mem:")|;
    var vs, us := Encode(v.session) + [COLON] + x, Encode(u.session) + [COLON] + y;
    var va, ua := Encode(v.agent) + [COLON] + vs, Encode(u.agent) + [COLON] + us;
    assert p[n..] == ScopeName(v.scope) + [COLON] + va;
    assert q[n..] == ScopeName(u.scope) + [COLON] + ua;
    ScopeNames(v.scope, u.scope);
    ScopeNames(u.scope, v.scope);
    FieldSplits(ScopeName(v.scope), ScopeName(u.scope), va, ua);
    EncodeHasNoColon(v.agent);
    EncodeHasNoColon(u.agent);
    FieldSplits(Encode(v.agent), Encode(u.agent), vs, us);
    EncodeHasNoColon(v.session);
    EncodeHasNoColon(u.session);
    FieldSplits(Encode(v.session), Encode(u.session), x, y);
    EncodeInjective(v.agent, u.agent);
    EncodeInjective(v.session, u.session);
  }

  /** Split at its first four delimiters a key shows "mem", the tier, the two ids encoded, and the logical key. */
  lemma KeyFields(v: Identity, key: Text) returns (tier: Text, agent: Text, session: Text)
    ensures PhysicalKey(v, key) == [109, 101, 109] + [58] + tier + [58] + agent + [58] + session + [58] + key
    ensures 58 !in tier && 58 !in agent && 58 !in session
    ensures tier == match v.scope
                    case Working => [119, 111, 114, 107, 105, 110, 103]
                    case Session => [115, 101, 115, 115, 105, 111, 110]
                    case Store => [115, 116, 111, 114, 101]
    ensures agent == Encode(v.agent) && Decode(agent) == v.agent && session == Encode(v.session) && Decode(session) == v.session
  {
    hide Encode, Decode;
    tier, agent, session := ScopeName(v.scope), Encode(v.agent), Encode(v.session);
    ScopeNames(v.scope, v.scope);
    DecodeEncode(v.agent);
    DecodeEncode(v.session);
    EncodeHasNoColon(v.agent);
    EncodeHasNoColon(v.session);
    assert Ascii("mem:") == [109, 101, 109] + [58];
  }

  /** In particular no identity's prefix is a prefix of another's keys. */
  lemma PrefixIsOwn(v: Identity, u: Identity, key: Text)
    requires KeyPrefix(v) <= PhysicalKey(u, key)
    ensures v == u
  {
    hide KeyPrefix;
    var p := PhysicalKey(u, key);
    assert p == PhysicalKey(v, p[|KeyPrefix(v)|..]);
    PrefixesApart(v, u, p[|KeyPrefix(v)|..], key);
  }

  // ---- the flat store

  class MapStore {
    var entries: Entries

    constructor ()
      ensures entries == map[]
    {
      entries := map[];
    }

    method Get(key: Text) returns (r: Option<Value>)
      ensures r == if key in entries then Some(entries[key]) else None
    {
      r := if key in entries then Some(entries[key]) else None;
    }

    method Set(key: Text, value: Value)
      modifies this
      ensures entries == old(entries)[key := value]
    {
      entries := entries[key := value];
    }

    method Delete(key: Text)
      modifies this
      ensures entries == old(entries) - {key}
    {
      entries := entries - {key};
    }

    /** Every entry under the prefix, once, in no particular order. */
    method List(prefix: Text) returns (r: seq<(Text, Value)>)
      ensures forall i, j :: 0 <= i < j < |r| ==> r[i].0 != r[j].0
      ensures forall e :: e in r <==> e.0 in entries && prefix <= e.0 && e.1 == entries[e.0]
    {
      r := [];
      var rest := entries.Keys;
      while rest != {}
        invariant rest <= entries.Keys
        invariant forall i, j :: 0 <= i < j < |r| ==> r[i].0 != r[j].0
        invariant forall e :: e in r <==> e.0 in entries.Keys - rest && prefix <= e.0 && e.1 == entries[e.0]
        decreases |rest|
      {
        var k :| k in rest;
        if prefix <= k {
          r := r + [(k, entries[k])];
        }
        rest := rest - {k};
      }
    }

    method BatchGet(keys: seq<Text>) returns (r: Entries)
      ensures forall k :: k in r <==> k in keys && k in entries
      ensures forall k :: k in r ==> r[k] == entries[k]
    {
      r := map[];
      for i := 0 to |keys|
        invariant forall k :: k in r <==> k in keys[..i] && k in entries
        invariant forall k :: k in r ==> r[k] == entries[k]
      {
        var v := Get(keys[i]);
        if v.Some? {
          r := r[keys[i] := v.value];
        }
      }
    }

    method BatchSet(more: Entries)
      modifies this
      ensures entries == old(entries) + more
    {
      var rest := more.Keys;
      while rest != {}
        invariant rest <= more.Keys
        invariant entries.Keys == old(entries).Keys + (more.Keys - rest)
        invariant forall k :: k in entries ==> entries[k] == if k in more.Keys - rest then more[k] else old(entries)[k]
        decreases |rest|
      {
        var k :| k in rest;
        entries := entries[k := more[k]];
        rest := rest - {k};
      }
    }
  }

  // ---- what a view's operations do to the flat store, and to its own map

  datatype Op = Set(key: Text, value: Value) | Delete(key: Text) | Clear | BatchSet(more: Entries)

  /** The physical entries of a batch. */
  ghost predicate IsPhysical(v: Identity, more: Entries, physical: Entries) {
    && (forall k :: k in more ==> PhysicalKey(v, k) in physical && physical[PhysicalKey(v, k)] == more[k])
    && (forall p :: p in physical ==> KeyPrefix(v) <= p && LogicalKey(v, p) in more)
  }

  function Physical(v: Identity, more: Entries): Entries {
    map p | p in set k | k in more :: PhysicalKey(v, k) :: more[p[|KeyPrefix(v)|..]]
  }

  lemma PhysicalIs(v: Identity, more: Entries)
    ensures IsPhysical(v, more, Physical(v, more))
  {
    hide KeyPrefix;
    forall k | k in more ensures PhysicalKey(v, k) in Physical(v, more) && Physical(v, more)[PhysicalKey(v, k)] == more[k] {
      KeysRoundTrip(v, k);
    }
    forall p | p in Physical(v, more) ensures KeyPrefix(v) <= p && LogicalKey(v, p) in more {
      var k :| k in more && p == PhysicalKey(v, k);
      KeysRoundTrip(v, k);
    }
  }

  function FlatStep(entries: Entries, v: Identity, op: Op): Entries {
    match op
    case Set(k, x) => entries[PhysicalKey(v, k) := x]
    case Delete(k) => entries - {PhysicalKey(v, k)}
    case Clear => map p | p in entries && !(KeyPrefix(v) <= p) :: entries[p]
    case BatchSet(more) => entries + Physical(v, more)
  }

  function OwnStep(own: Entries, op: Op): Entries {
    match op
    case Set(k, x) => own[k := x]
    case Delete(k) => own - {k}
    case Clear => map[]
    case BatchSet(more) => own + more
  }

  /** The flat store holds exactly this map under the view's prefix. */
  ghost predicate Holds(entries: Entries, v: Identity, own: Entries) {
    forall k :: (PhysicalKey(v, k) in entries <==> k in own) && (k in own ==> entries[PhysicalKey(v, k)] == own[k])
  }

  /** Keys outside the view's prefix are untouched, whoever they belong to. */
  lemma StepForeign(entries: Entries, v: Identity, op: Op, p: Text)
    requires !(KeyPrefix(v) <= p)
    ensures p in FlatStep(entries, v, op) <==> p in entries
    ensures p in entries ==> FlatStep(entries, v, op)[p] == entries[p]
  {
    hide KeyPrefix;
    match op
    case BatchSet(more) => PhysicalIs(v, more);
    case Set(k, _) => KeysRoundTrip(v, k);
    case Delete(k) => KeysRoundTrip(v, k);
    case Clear =>
  }

  lemma SameKey(v: Identity, j: Text, k: Text)
    ensures PhysicalKey(v, j) == PhysicalKey(v, k) <==> j == k
    ensures KeyPrefix(v) <= PhysicalKey(v, k)
  {
    hide KeyPrefix;
    KeysRoundTrip(v, j);
    KeysRoundTrip(v, k);
  }

  lemma StepOwnAt(entries: Entries, v: Identity, own: Entries, op: Op, k: Text)
    requires (PhysicalKey(v, k) in entries <==> k in own) && (k in own ==> entries[PhysicalKey(v, k)] == own[k])
    ensures var flat, next := FlatStep(entries, v, op), OwnStep(own, op);
            (PhysicalKey(v, k) in flat <==> k in next) && (k in next ==> flat[PhysicalKey(v, k)] == next[k])
  {
    hide KeyPrefix, PhysicalKey, Physical;
    match op
    case Set(j, _) => SameKey(v, j, k);
    case Delete(j) => SameKey(v, j, k);
    case Clear => SameKey(v, k, k);
    case BatchSet(more) => BatchOwn(v, more, k);
  }

  /** A view sees its own operations as those of a map of its own. */
  lemma StepOwn(entries: Entries, v: Identity, own: Entries, op: Op)
    requires Holds(entries, v, own)
    ensures Holds(FlatStep(entries, v, op), v, OwnStep(own, op))
  {
    hide PhysicalKey, FlatStep, OwnStep;
    var flat, next := FlatStep(entries, v, op), OwnStep(own, op);
    forall k ensures (PhysicalKey(v, k) in flat <==> k in next) && (k in next ==> flat[PhysicalKey(v, k)] == next[k]) {
      StepOwnAt(entries, v, own, op, k);
    }
  }

  lemma BatchOwn(v: Identity, more: Entries, k: Text)
    ensures PhysicalKey(v, k) in Physical(v, more) <==> k in more
    ensures k in more ==> Physical(v, more)[PhysicalKey(v, k)] == more[k]
  {
    hide KeyPrefix, PhysicalKey, Physical;
    PhysicalIs(v, more);
    RoundTrip(v, k);
  }

  lemma RoundTrip(v: Identity, k: Text)
    ensures LogicalKey(v, PhysicalKey(v, k)) == k
  {
    KeysRoundTrip(v, k);
  }

  /** And does not see anyone else's. */
  lemma StepOther(entries: Entries, v: Identity, op: Op, u: Identity, own: Entries)
    requires u != v && Holds(entries, u, own)
    ensures Holds(FlatStep(entries, v, op), u, own)
  {
    hide KeyPrefix, PhysicalKey, FlatStep;
    forall k
      ensures PhysicalKey(u, k) in FlatStep(entries, v, op) <==> k in own
      ensures k in own ==> FlatStep(entries, v, op)[PhysicalKey(u, k)] == own[k]
    {
      if KeyPrefix(v) <= PhysicalKey(u, k) {
        PrefixIsOwn(v, u, k);
      }
      StepForeign(entries, v, op, PhysicalKey(u, k));
    }
  }

  /** The flat store after a history of operations by any views. */
  function Flat(h: seq<(Identity, Op)>): Entries {
    if h == [] then map[] else FlatStep(Flat(h[..|h| - 1]), h[|h| - 1].0, h[|h| - 1].1)
  }

  /** A map that only this identity's operations ever touch. */
  function Own(h: seq<(Identity, Op)>, v: Identity): Entries {
    if h == [] then map[]
    else if h[|h| - 1].0 == v then OwnStep(Own(h[..|h| - 1], v), h[|h| - 1].1)
    else Own(h[..|h| - 1], v)
  }

  /** Any number of views over one store, in any interleaving, are independent maps, one per identity. */
  lemma {:induction false} ViewsAreIndependent(h: seq<(Identity, Op)>, v: Identity)
    ensures Holds(Flat(h), v, Own(h, v))
  {
    hide FlatStep, OwnStep, Holds;
    if h == [] {
      Initially(v);
    } else {
      var init, last := h[..|h| - 1], h[|h| - 1];
      ViewsAreIndependent(init, v);
      if last.0 == v {
        StepOwn(Flat(init), v, Own(init, v), last.1);
      } else {
        StepOther(Flat(init), last.0, last.1, v, Own(init, v));
      }
    }
  }

  lemma Initially(v: Identity)
    ensures Holds(map[], v, map[])
  {
  }

  // ---- views

  lemma Requested(v: Identity, keys: seq<Text>, physical: seq<Text>, k: Text)
    requires |physical| == |keys| && forall i :: 0 <= i < |keys| ==> physical[i] == PhysicalKey(v, keys[i])
    ensures PhysicalKey(v, k) in physical <==> k in keys
  {
    hide KeyPrefix, PhysicalKey;
    if PhysicalKey(v, k) in physical {
      var i :| 0 <= i < |physical| && physical[i] == PhysicalKey(v, k);
      SameKey(v, k, keys[i]);
    }
    if k in keys {
      var i :| 0 <= i < |keys| && keys[i] == k;
      assert physical[i] == PhysicalKey(v, k);
    }
  }

  /** The store's entries under a view's prefix, and the same under their logical names. */
  ghost predicate Listing(entries: Entries, v: Identity, prefix: Text, raw: seq<(Text, Value)>, r: seq<(Text, Value)>) {
    && (forall i, j :: 0 <= i < j < |raw| ==> raw[i].0 != raw[j].0)
    && (forall e :: e in raw <==> e.0 in entries && PhysicalKey(v, prefix) <= e.0 && e.1 == entries[e.0])
    && |r| == |raw| && forall k :: 0 <= k < |raw| ==> r[k] == (LogicalKey(v, raw[k].0), raw[k].1)
  }

  lemma UnderPrefix(v: Identity, prefix: Text, p: Text)
    ensures PhysicalKey(v, prefix) <= p <==> KeyPrefix(v) <= p && prefix <= LogicalKey(v, p)
  {
    hide KeyPrefix;
    var a := KeyPrefix(v);
    if a + prefix <= p {
      assert p[..|a|] == a && p[|a|..][..|prefix|] == prefix;
    }
    if a <= p && prefix <= p[|a|..] {
      assert p == a + p[|a|..];
    }
  }

  lemma ListedOnce(entries: Entries, v: Identity, prefix: Text, raw: seq<(Text, Value)>, r: seq<(Text, Value)>)
    requires Listing(entries, v, prefix, raw, r)
    ensures forall i, j :: 0 <= i < j < |r| ==> r[i].0 != r[j].0
  {
    hide KeyPrefix, PhysicalKey, LogicalKey;
    forall i, j | 0 <= i < j < |r| ensures r[i].0 != r[j].0 {
      assert raw[i] in raw && raw[j] in raw;
      UnderPrefix(v, prefix, raw[i].0);
      UnderPrefix(v, prefix, raw[j].0);
      KeysRoundTrip(v, raw[i].0);
      KeysRoundTrip(v, raw[j].0);
    }
  }

  lemma ListedRight(entries: Entries, v: Identity, prefix: Text, raw: seq<(Text, Value)>, r: seq<(Text, Value)>, own: Entries, e: (Text, Value))
    requires Listing(entries, v, prefix, raw, r) && Holds(entries, v, own)
    ensures e in r <==> e.0 in own && prefix <= e.0 && e.1 == own[e.0]
  {
    hide KeyPrefix, PhysicalKey, LogicalKey;
    var p := PhysicalKey(v, e.0);
    KeysRoundTrip(v, e.0);
    SameKey(v, e.0, e.0);
    UnderPrefix(v, prefix, p);
    if e in r {
      var k :| 0 <= k < |r| && r[k] == e;
      assert raw[k] in raw;
      UnderPrefix(v, prefix, raw[k].0);
      KeysRoundTrip(v, raw[k].0);
    }
    if e.0 in own && prefix <= e.0 && e.1 == own[e.0] {
      assert (p, e.1) in raw;
      var k :| 0 <= k < |raw| && raw[k] == (p, e.1);
      assert r[k] == e;
    }
  }

  lemma Cleared(before: Entries, after: Entries, v: Identity, raw: seq<(Text, Value)>)
    requires forall e :: e in raw <==> e.0 in before && KeyPrefix(v) <= e.0 && e.1 == before[e.0]
    requires after == before - (set k | 0 <= k < |raw| :: raw[k].0)
    ensures after == FlatStep(before, v, Op.Clear)
  {
    hide KeyPrefix;
    forall p | p in before ensures p in after <==> !(KeyPrefix(v) <= p) {
      if KeyPrefix(v) <= p {
        assert (p, before[p]) in raw;
        var k :| 0 <= k < |raw| && raw[k] == (p, before[p]);
        assert raw[k].0 == p;
      }
    }
  }

  class Memory {
    const store: MapStore
    const id: Identity

    constructor (store: MapStore, id: Identity)
      ensures this.store == store && this.id == id
    {
      this.store, this.id := store, id;
    }

    /** The same store under another identity; the prefixes do not nest. */
    method ForSession(agent: Text, session: Text) returns (m: Memory)
      ensures m.store == store && m.id == Identity(Session, agent, session)
    {
      m := new Memory(store, Identity(Session, agent, session));
    }

    method Get(key: Text) returns (r: Option<Value>)
      ensures r == if PhysicalKey(id, key) in store.entries then Some(store.entries[PhysicalKey(id, key)]) else None
      ensures forall own :: Holds(store.entries, id, own) ==> r == if key in own then Some(own[key]) else None
    {
      hide KeyPrefix;
      r := store.Get(PhysicalKey(id, key));
    }

    method Set(key: Text, value: Value)
      modifies store
      ensures store.entries == FlatStep(old(store.entries), id, Op.Set(key, value))
    {
      store.Set(PhysicalKey(id, key), value);
    }

    method Delete(key: Text)
      modifies store
      ensures store.entries == FlatStep(old(store.entries), id, Op.Delete(key))
    {
      store.Delete(PhysicalKey(id, key));
    }

    /** Lists the view's own keys under a prefix, by their logical names. */
    method List(prefix: Text) returns (r: seq<(Text, Value)>)
      ensures forall i, j :: 0 <= i < j < |r| ==> r[i].0 != r[j].0
      ensures forall own :: Holds(store.entries, id, own) ==>
                forall e :: e in r <==> e.0 in own && prefix <= e.0 && e.1 == own[e.0]
    {
      hide KeyPrefix, PhysicalKey, LogicalKey, Holds;
      var raw := store.List(PhysicalKey(id, prefix));
      r := [];
      for i := 0 to |raw|
        invariant |r| == i && forall k :: 0 <= k < i ==> r[k] == (LogicalKey(id, raw[k].0), raw[k].1)
      {
        r := r + [(LogicalKey(id, raw[i].0), raw[i].1)];
      }
      ListedOnce(store.entries, id, prefix, raw, r);
      forall own, e | Holds(store.entries, id, own) ensures e in r <==> e.0 in own && prefix <= e.0 && e.1 == own[e.0] {
        ListedRight(store.entries, id, prefix, raw, r, own, e);
      }
    }

    /** Empties this view and nothing else. */
    method Clear()
      modifies store
      ensures store.entries == FlatStep(old(store.entries), id, Op.Clear)
    {
      hide KeyPrefix;
      var raw := store.List(KeyPrefix(id));
      for i := 0 to |raw|
        invariant store.entries == old(store.entries) - (set k | 0 <= k < i :: raw[k].0)
      {
        store.Delete(raw[i].0);
        assert (set k | 0 <= k < i + 1 :: raw[k].0) == (set k | 0 <= k < i :: raw[k].0) + {raw[i].0};
      }
      Cleared(old(store.entries), store.entries, id, raw);
    }

    method BatchGet(keys: seq<Text>) returns (r: Entries)
      ensures forall own :: Holds(store.entries, id, own) ==>
                (forall k :: k in r <==> k in keys && k in own) && (forall k :: k in r ==> k in own && r[k] == own[k])
    {
      hide KeyPrefix;
      var physical: seq<Text> := [];
      for i := 0 to |keys|
        invariant |physical| == i && forall k :: 0 <= k < i ==> physical[k] == PhysicalKey(id, keys[k])
      {
        physical := physical + [PhysicalKey(id, keys[i])];
      }
      var raw := store.BatchGet(physical);
      r := map[];
      var rest := raw.Keys;
      while rest != {}
        invariant rest <= raw.Keys
        invariant forall k :: k in r <==> PhysicalKey(id, k) in raw.Keys - rest
        invariant forall k :: k in r ==> r[k] == raw[PhysicalKey(id, k)]
        decreases |rest|
      {
        var p :| p in rest;
        var i :| 0 <= i < |physical| && physical[i] == p;
        KeysRoundTrip(id, keys[i]);
        forall k ensures PhysicalKey(id, k) == p <==> k == LogicalKey(id, p) {
          SameKey(id, k, keys[i]);
        }
        r := r[LogicalKey(id, p) := raw[p]];
        rest := rest - {p};
      }
      forall k ensures PhysicalKey(id, k) in physical <==> k in keys {
        Requested(id, keys, physical, k);
      }
    }

    method BatchSet(more: Entries)
      modifies store
      ensures store.entries == FlatStep(old(store.entries), id, Op.BatchSet(more))
    {
      store.BatchSet(Physical(id, more));
    }
  }
}
