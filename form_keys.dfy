/** Bracket keys. A route flattens a nested dictionary argument `d` under a
    prefix `p` by writing every entry `(k, v)` of `d` as the flat key `p[k]`
    (one write per entry, in no particular order); the bare key `p` is never
    written. */
module FormKeys {
  import opened Wire

  /** The flat key `prefix[k]`. */
  function BracketKey(prefix: string, k: string): (r: string)
    ensures |r| == |prefix| + |k| + 2
    ensures r[|r| - 1] == ']'
  {
    prefix + "[" + k + "]"
  }

  /** Reads a flat key back under a prefix: `Some(k)` when the key is `prefix[k]`. */
  function Unbracket(prefix: string, key: string): Option<string> {
    if |key| >= |prefix| + 2 && key[..|prefix| + 1] == prefix + "[" && key[|key| - 1] == ']'
    then Some(key[|prefix| + 1..|key| - 1])
    else None
  }

  /** Reading a bracket key back under its own prefix gives the inner key. */
  lemma UnbracketBracketKey(prefix: string, k: string)
    ensures Unbracket(prefix, BracketKey(prefix, k)) == Some(k)
  {
    var key := BracketKey(prefix, k);
    assert key[..|prefix| + 1] == prefix + "[";
    assert key[|prefix| + 1..|key| - 1] == k;
  }

  /** Every key that reads back under a prefix is the bracket key of what it reads back to. */
  lemma BracketKeyUnbracket(prefix: string, key: string)
    requires Unbracket(prefix, key).Some?
    ensures BracketKey(prefix, Unbracket(prefix, key).value) == key
  {
    var k := Unbracket(prefix, key).value;
    assert key == key[..|prefix| + 1] + key[|prefix| + 1..|key| - 1] + [key[|key| - 1]];
  }

  /** Within one prefix, distinct inner keys give distinct flat keys. */
  lemma BracketKeySamePrefix(prefix: string)
    ensures forall k1, k2 :: BracketKey(prefix, k1) == BracketKey(prefix, k2) ==> k1 == k2
  {
    forall k1, k2 | BracketKey(prefix, k1) == BracketKey(prefix, k2)
      ensures k1 == k2
    {
      UnbracketBracketKey(prefix, k1);
      UnbracketBracketKey(prefix, k2);
    }
  }

  /** Two prefixes without `[` never share a flat key unless they are the same
      prefix with the same inner key. */
  lemma BracketKeyInjective(p1: string, k1: string, p2: string, k2: string)
    requires '[' !in p1 && '[' !in p2
    requires BracketKey(p1, k1) == BracketKey(p2, k2)
    ensures p1 == p2 && k1 == k2
  {
    var key := BracketKey(p1, k1);
    assert key[|p1|] == '[' && key[..|p1|] == p1;
    assert key[|p2|] == '[' && key[..|p2|] == p2;
    assert |p1| == |p2|;
    BracketKeySamePrefix(p1);
  }

  /** The flat entries a dictionary contributes under a prefix. */
  function Bracketed(prefix: string, entries: Params): (r: Params)
    ensures forall k :: Lookup(r, BracketKey(prefix, k)) == Lookup(entries, k)
    ensures forall key :: key in r ==> Unbracket(prefix, key).Some? && Unbracket(prefix, key).value in entries
  {
    BracketKeySamePrefix(prefix);
    var r := map k | k in entries :: BracketKey(prefix, k) := entries[k];
    BracketedFacts(prefix, entries, r);
    r
  }

  lemma BracketedFacts(prefix: string, entries: Params, r: Params)
    requires r.Keys == set k | k in entries :: BracketKey(prefix, k)
    requires forall k :: k in entries ==> r[BracketKey(prefix, k)] == entries[k]
    ensures forall k :: Lookup(r, BracketKey(prefix, k)) == Lookup(entries, k)
    ensures forall key :: key in r ==> Unbracket(prefix, key).Some? && Unbracket(prefix, key).value in entries
  {
    forall key | key in r
      ensures Unbracket(prefix, key).Some? && Unbracket(prefix, key).value in entries
    {
      var k :| k in entries && BracketKey(prefix, k) == key;
      UnbracketBracketKey(prefix, k);
    }
    forall k
      ensures Lookup(r, BracketKey(prefix, k)) == Lookup(entries, k)
    {
      if BracketKey(prefix, k) in r {
        var j :| j in entries && BracketKey(prefix, j) == BracketKey(prefix, k);
        BracketKeySamePrefix(prefix);
      }
    }
  }

  /** Every key a bracketed dictionary contributes ends in `]`. */
  lemma BracketedKeysClosed(prefix: string, entries: Params)
    ensures forall key :: key in Bracketed(prefix, entries) ==> |key| > 0 && key[|key| - 1] == ']'
  {
    forall key | key in Bracketed(prefix, entries)
      ensures |key| > 0 && key[|key| - 1] == ']'
    {
      BracketKeyUnbracket(prefix, key);
    }
  }

  /** A key that no bracketed dictionary contributes: the plain parameter names. */
  predicate Plain(key: string) {
    |key| == 0 || key[|key| - 1] != ']'
  }

  /** The bare prefix is never one of the keys a bracketed dictionary contributes. */
  lemma NoBarePrefix(prefix: string, entries: Params)
    ensures prefix !in Bracketed(prefix, entries)
  {
    assert Unbracket(prefix, prefix).None?;
  }

  /** Flattening an optional dictionary into a body, as a value: nothing
      when it is nil. */
  function PutFamily(m: Params, prefix: string, d: Option<Params>): Params {
    if d.Some? then m + Bracketed(prefix, d.value) else m
  }

  /** The entries an optional dictionary contributes under a prefix: none when
      it is nil. */
  function Flattened(prefix: string, d: Option<Params>): Params {
    if d.Some? then Bracketed(prefix, d.value) else map[]
  }

  /** A dictionary holding bracket keys only. */
  predicate NoPlainKeys(m: Params) {
    forall key :: key in m ==> !Plain(key)
  }

  lemma FlattenedNoPlainKeys(prefix: string, d: Option<Params>)
    ensures NoPlainKeys(Flattened(prefix, d))
  {
    if d.Some? {
      BracketedKeysClosed(prefix, d.value);
    }
  }

  /** Joining two dictionaries of bracket keys gives bracket keys only. */
  lemma NoPlainKeysUnion(a: Params, b: Params)
    requires NoPlainKeys(a) && NoPlainKeys(b)
    ensures NoPlainKeys(a + b)
  {
  }

  /** Under its own prefix, a flattening holds exactly the dictionary's
      entries, and nothing when the dictionary is nil. */
  lemma FlattenedAt(prefix: string, d: Option<Params>, k: string)
    ensures Lookup(Flattened(prefix, d), BracketKey(prefix, k)) == if d.Some? then Lookup(d.value, k) else None
  {
  }

  /** A flattening holds nothing under another prefix. */
  lemma OtherFlattenedMissing(prefix: string, d: Option<Params>, p: string, k: string)
    requires '[' !in prefix && '[' !in p && p != prefix
    ensures BracketKey(p, k) !in Flattened(prefix, d)
  {
    if d.Some? {
      OtherPrefixMissing(prefix, d.value, p, k);
    }
  }

  /** `key` is `prefix[k]` for an entry `k` of the dictionary `d`. */
  predicate FamilyKey(key: string, prefix: string, d: Option<Params>) {
    d.Some? && Unbracket(prefix, key).Some? && Unbracket(prefix, key).value in d.value
  }

  /** A flattening holds exactly the keys `prefix[k]` of the dictionary's entries. */
  lemma FlattenedKeys(prefix: string, d: Option<Params>, key: string)
    ensures key in Flattened(prefix, d) <==> FamilyKey(key, prefix, d)
  {
    if FamilyKey(key, prefix, d) {
      BracketKeyUnbracket(prefix, key);
      FlattenedAt(prefix, d, Unbracket(prefix, key).value);
    }
  }

  /** Adding the flattening of another prefix leaves a `p[k]` lookup alone. */
  lemma JoinOther(m: Params, prefix: string, d: Option<Params>, p: string, k: string)
    requires '[' !in prefix && '[' !in p && p != prefix
    ensures Lookup(m + Flattened(prefix, d), BracketKey(p, k)) == Lookup(m, BracketKey(p, k))
  {
    OtherFlattenedMissing(prefix, d, p, k);
  }

  /** Adding a prefix's flattening to keys that lack it: under that prefix
      the result holds exactly the dictionary's entries. */
  lemma JoinOwn(m: Params, prefix: string, d: Option<Params>, k: string)
    requires BracketKey(prefix, k) !in m
    ensures Lookup(m + Flattened(prefix, d), BracketKey(prefix, k)) == if d.Some? then Lookup(d.value, k) else None
  {
    FlattenedAt(prefix, d, k);
  }

  lemma OtherPrefixMissing(prefix: string, d: Params, p: string, k: string)
    requires '[' !in prefix && '[' !in p && p != prefix
    ensures BracketKey(p, k) !in Bracketed(prefix, d)
  {
    var key := BracketKey(p, k);
    if key in Bracketed(prefix, d) {
      BracketKeyUnbracket(prefix, key);
      BracketKeyInjective(p, k, prefix, Unbracket(prefix, key).value);
    }
  }

  // ---------------------------------------------------------------------
  // A route body as a value: the plain fields that were given, joined with
  // the flattened dictionaries.

  /** One flattened dictionary written over such a body. */
  lemma FamilyWrite(fields: Params, flat: Params, prefix: string, d: Option<Params>)
    requires NoPlainKeys(flat)
    ensures PutFamily(fields + flat, prefix, d) == fields + (flat + Flattened(prefix, d))
    ensures NoPlainKeys(flat + Flattened(prefix, d))
  {
    FlattenedNoPlainKeys(prefix, d);
    if d.Some? {
      UnionAssociative(fields, flat, Bracketed(prefix, d.value));
    } else {
      assert flat + map[] == flat;
    }
  }

  /** The empty dictionary is a unit of `+` on either side. */
  lemma UnionEmpty(m: Params)
    ensures map[] + m == m
    ensures m + map[] == m
  {
    assert (map[] + m).Keys == m.Keys;
  }

  lemma UnionAssociative(a: Params, b: Params, c: Params)
    ensures (a + b) + c == a + (b + c)
  {
    forall key
      ensures Lookup((a + b) + c, key) == Lookup(a + (b + c), key)
    {
    }
    SameLookups((a + b) + c, a + (b + c));
  }

  /** Flattens an optional dictionary into a body, when it is given. */
  method InsertFlattened(body: Params, prefix: string, d: Option<Params>) returns (r: Params)
    ensures r == PutFamily(body, prefix, d)
  {
    r := body;
    if d.Some? {
      r := PutBracketed(r, prefix, d.value);
    }
  }

  /** Writes every entry `(k, v)` as `prefix[k]`, one entry at a time in
      no particular order. */
  method PutBracketed(body: Params, prefix: string, entries: Params) returns (r: Params)
    ensures r == body + Bracketed(prefix, entries)
  {
    r := body;
    var todo := entries.Keys;
    BracketedNothing(prefix, entries, todo);
    while todo != {}
      invariant todo <= entries.Keys
      invariant r == body + Bracketed(prefix, entries - todo)
      decreases todo
    {
      var k :| k in todo;
      PutBracketedStep(body, prefix, entries, todo, k);
      r := r[BracketKey(prefix, k) := entries[k]];
      todo := todo - {k};
    }
    MinusNothing(entries, todo);
  }

  /** One turn of the loop in PutBracketed. */
  lemma PutBracketedStep(body: Params, prefix: string, entries: Params, todo: set<string>, k: string)
    requires k in todo && todo <= entries.Keys
    ensures (body + Bracketed(prefix, entries - todo))[BracketKey(prefix, k) := entries[k]]
         == body + Bracketed(prefix, entries - (todo - {k}))
  {
    var before := entries - todo;
    assert entries - (todo - {k}) == before[k := entries[k]];
    BracketedPush(prefix, before, k, entries[k]);
    UnionUpdate(body, Bracketed(prefix, before), BracketKey(prefix, k), entries[k]);
  }

  /** The loop of PutBracketed starts with nothing bracketed. */
  lemma BracketedNothing(prefix: string, entries: Params, todo: set<string>)
    requires todo == entries.Keys
    ensures Bracketed(prefix, entries - todo) == map[]
  {
    assert entries - todo == map[];
  }

  /** The loop of PutBracketed ends with every entry bracketed. */
  lemma MinusNothing(m: Params, ks: set<string>)
    requires ks == {}
    ensures m - ks == m
  {
  }

  /** Adding one entry to a dictionary adds its bracket key to the flattening. */
  lemma BracketedPush(prefix: string, m: Params, k: string, v: Value)
    ensures Bracketed(prefix, m[k := v]) == Bracketed(prefix, m)[BracketKey(prefix, k) := v]
  {
    var lhs := Bracketed(prefix, m[k := v]);
    var rhs := Bracketed(prefix, m)[BracketKey(prefix, k) := v];
    forall key
      ensures Lookup(lhs, key) == Lookup(rhs, key)
    {
      BracketedPushAt(prefix, m, k, v, key);
    }
    SameLookups(lhs, rhs);
  }

  lemma BracketedPushAt(prefix: string, m: Params, k: string, v: Value, key: string)
    ensures Lookup(Bracketed(prefix, m[k := v]), key) == Lookup(Bracketed(prefix, m)[BracketKey(prefix, k) := v], key)
  {
    var inner := Unbracket(prefix, key);
    if inner.Some? {
      var j := inner.value;
      BracketKeyUnbracket(prefix, key);
      assert key == BracketKey(prefix, j);
      if j != k {
        BracketKeySamePrefix(prefix);
      }
    } else {
      UnbracketBracketKey(prefix, k);
    }
  }

  /** Updating a union is updating its right-hand side. */
  lemma UnionUpdate(a: Params, b: Params, key: string, v: Value)
    ensures (a + b)[key := v] == a + b[key := v]
  {
  }

  /** Two dictionaries that agree on every lookup are equal. */
  lemma SameLookups(a: Params, b: Params)
    requires forall key :: Lookup(a, key) == Lookup(b, key)
    ensures a == b
  {
    assert a.Keys == b.Keys by {
      forall key | key in a ensures key in b { assert Lookup(a, key).Some?; }
      forall key | key in b ensures key in a { assert Lookup(b, key).Some?; }
    }
    forall key | key in a ensures a[key] == b[key] { assert Lookup(a, key) == Lookup(b, key); }
  }
}
