/** The mapping list of the state as a finite map keyed by prefix. */
module Mappings {
  import opened Text
  import opened Model
  import opened Routing

  /** What validation guarantees about a stored list. */
  ghost predicate Distinct(ms: seq<Mapping>) {
    DistinctKeys(ByPrefix, ms)
  }

  ghost predicate InOrder(ms: seq<Mapping>) {
    StrictlySorted(ByPrefix, ms)
  }

  predicate Has(ms: seq<Mapping>, prefix: string) {
    exists m :: m in ms && m.prefix == prefix
  }

  /** The finite map a list stands for. */
  ghost function Table(ms: seq<Mapping>): map<string, Mapping> {
    if ms == [] then map[] else Table(ms[1..])[ms[0].prefix := ms[0]]
  }

  lemma {:induction false} TableKeys(ms: seq<Mapping>, prefix: string)
    ensures prefix in Table(ms) <==> Has(ms, prefix)
    ensures prefix in Table(ms) ==> Table(ms)[prefix] in ms && Table(ms)[prefix].prefix == prefix
  {
    if ms != [] {
      TableKeys(ms[1..], prefix);
      if Has(ms, prefix) && ms[0].prefix != prefix {
        var m :| m in ms && m.prefix == prefix;
        assert m in ms[1..];
      }
    }
  }

  lemma {:induction false} TableEntry(ms: seq<Mapping>, m: Mapping)
    requires Distinct(ms) && m in ms
    ensures m.prefix in Table(ms) && Table(ms)[m.prefix] == m
  {
    if ms[0] != m {
      assert m in ms[1..];
      TableEntry(ms[1..], m);
      var i :| 0 <= i < |ms| && ms[i] == m;
      assert ByPrefix(ms[0]) != ByPrefix(ms[i]);
    }
  }

  /** A table whose entries are exactly the members of a list is the list's table. */
  lemma TableFromMembers(ms: seq<Mapping>, t: map<string, Mapping>)
    requires Distinct(ms)
    requires forall m | m in ms :: m.prefix in t && t[m.prefix] == m
    requires forall p | p in t :: t[p] in ms && t[p].prefix == p
    ensures Table(ms) == t
  {
    forall p ensures p in Table(ms) <==> p in t {
      TableKeys(ms, p);
    }
    forall p | p in t ensures Table(ms)[p] == t[p] {
      TableEntry(ms, t[p]);
    }
  }

  lemma TableMembers(ms: seq<Mapping>)
    requires Distinct(ms)
    ensures forall m | m in ms :: m.prefix in Table(ms) && Table(ms)[m.prefix] == m
    ensures forall p | p in Table(ms) :: Table(ms)[p] in ms && Table(ms)[p].prefix == p
  {
    forall m | m in ms ensures m.prefix in Table(ms) && Table(ms)[m.prefix] == m {
      TableEntry(ms, m);
    }
    forall p | p in Table(ms) ensures Table(ms)[p] in ms && Table(ms)[p].prefix == p {
      TableKeys(ms, p);
    }
  }

  lemma InOrderIsDistinct(ms: seq<Mapping>)
    requires InOrder(ms)
    ensures Distinct(ms)
  {
    forall i, j | 0 <= i < j < |ms| ensures ByPrefix(ms[i]) != ByPrefix(ms[j]) {
      LessIrreflexive(ms[i].prefix);
    }
  }

  lemma HeadIsFirst(ms: seq<Mapping>, m: Mapping)
    requires InOrder(ms) && m in ms
    ensures m == ms[0] || Less(ms[0].prefix, m.prefix)
  {
    var i :| 0 <= i < |ms| && ms[i] == m;
    if i > 0 {
      assert Less(ByPrefix(ms[0]), ByPrefix(ms[i]));
    }
  }

  lemma HeadNotInTail(ms: seq<Mapping>)
    requires InOrder(ms) && ms != []
    ensures !Has(ms[1..], ms[0].prefix)
  {
    forall m | m in ms[1..] ensures m.prefix != ms[0].prefix {
      var i :| 0 <= i < |ms[1..]| && ms[1..][i] == m;
      assert Less(ByPrefix(ms[0]), ByPrefix(ms[i + 1]));
      LessIrreflexive(m.prefix);
    }
  }

  lemma TailInOrder(ms: seq<Mapping>)
    requires InOrder(ms) && ms != []
    ensures InOrder(ms[1..])
  {
    forall i, j | 0 <= i < j < |ms[1..]| ensures Less(ByPrefix(ms[1..][i]), ByPrefix(ms[1..][j])) {
      assert ms[1..][i] == ms[i + 1] && ms[1..][j] == ms[j + 1];
    }
  }

  lemma TailTable(ms: seq<Mapping>)
    requires InOrder(ms) && ms != []
    ensures InOrder(ms[1..]) && Table(ms[1..]) == Table(ms) - {ms[0].prefix}
  {
    TailInOrder(ms);
    HeadNotInTail(ms);
    TableKeys(ms[1..], ms[0].prefix);
    hide InOrder, Less, Has;
    var rest := Table(ms[1..]);
    assert rest[ms[0].prefix := ms[0]] - {ms[0].prefix} == rest;
  }

  lemma EmptyTable(ms: seq<Mapping>)
    ensures Table(ms) == map[] <==> ms == []
  {
    if ms != [] { assert ms[0].prefix in Table(ms); }
  }

  /** The list is determined by its map: ordered lists with the same table are equal. */
  lemma {:induction false} TableDetermines(a: seq<Mapping>, b: seq<Mapping>)
    requires InOrder(a) && InOrder(b) && Table(a) == Table(b)
    ensures a == b
    decreases |a|
  {
    InOrderIsDistinct(a);
    InOrderIsDistinct(b);
    TableMembers(a);
    TableMembers(b);
    EmptyTable(a);
    EmptyTable(b);
    if a != [] {
      assert a[0] in b && b[0] in a;
      HeadIsFirst(a, b[0]);
      HeadIsFirst(b, a[0]);
      if Less(a[0].prefix, b[0].prefix) { LessNotBoth(a[0].prefix, b[0].prefix); }
      TailTable(a);
      TailTable(b);
      TableDetermines(a[1..], b[1..]);
      assert a == [a[0]] + a[1..] && b == [b[0]] + b[1..];
    }
  }

  // ----- The operations -----

  method CreateMapping(ms: seq<Mapping>, m: Mapping) returns (ok: bool, ms': seq<Mapping>)
    requires Distinct(ms)
    ensures ok <==> m.prefix !in Table(ms)
    ensures ok ==> InOrder(ms') && Table(ms') == Table(ms)[m.prefix := m]
  {
    ms' := ms;
    for i := 0 to |ms|
      invariant forall j | 0 <= j < i :: ms[j].prefix != m.prefix
    {
      if ms[i].prefix == m.prefix {
        TableEntry(ms, ms[i]);
        return false, ms;
      }
    }
    TableKeys(ms, m.prefix);
    ok, ms' := true, SortBy(ByPrefix, ms + [m]);
    InsertedTable(ms, m);
  }

  lemma InsertedTable(ms: seq<Mapping>, m: Mapping)
    requires Distinct(ms) && !Has(ms, m.prefix)
    ensures Distinct(ms + [m])
    ensures InOrder(SortBy(ByPrefix, ms + [m]))
    ensures Table(SortBy(ByPrefix, ms + [m])) == Table(ms)[m.prefix := m]
  {
    var all := ms + [m];
    assert Distinct(all) by {
      forall i, j | 0 <= i < j < |all| ensures ByPrefix(all[i]) != ByPrefix(all[j]) {
        if j == |ms| { assert all[i] in ms; }
      }
    }
    SortByStrict(ByPrefix, all);
    var ms' := SortBy(ByPrefix, all);
    InOrderIsDistinct(ms');
    TableMembers(ms);
    TableKeys(ms, m.prefix);
    TableFromMembers(ms', Table(ms)[m.prefix := m]);
  }

  method UpdateMapping(ms: seq<Mapping>, oldPrefix: string, m: Mapping) returns (ok: bool, ms': seq<Mapping>)
    requires Distinct(ms)
    ensures ok <==> oldPrefix in Table(ms) && (m.prefix == oldPrefix || m.prefix !in Table(ms))
    ensures ok ==> InOrder(ms') && Table(ms') == (Table(ms) - {oldPrefix})[m.prefix := m]
  {
    TableKeys(ms, oldPrefix);
    TableKeys(ms, m.prefix);
    var found := false;
    ms' := ms;
    for i := 0 to |ms|
      invariant |ms'| == |ms|
      invariant forall j | i <= j < |ms| :: ms'[j] == ms[j]
      invariant forall j | 0 <= j < i :: ms'[j] == if ms[j].prefix == oldPrefix then m else ms[j]
      invariant forall j | 0 <= j < i :: ms[j].prefix == oldPrefix || ms[j].prefix != m.prefix
      invariant found <==> exists j :: 0 <= j < i && ms[j].prefix == oldPrefix
    {
      if ms'[i].prefix == oldPrefix {
        ms', found := ms'[i := m], true;
      } else if ms'[i].prefix == m.prefix {
        assert ms[i] in ms;
        return false, ms;
      }
    }
    if !found { return false, ms; }
    ok := true;
    RenamedTable(ms, ms', oldPrefix, m);
    ms' := SortBy(ByPrefix, ms');
  }

  lemma RenamedDistinct(ms: seq<Mapping>, ms': seq<Mapping>, oldPrefix: string, m: Mapping)
    requires Distinct(ms) && |ms'| == |ms|
    requires forall j | 0 <= j < |ms| :: ms'[j] == if ms[j].prefix == oldPrefix then m else ms[j]
    requires forall j | 0 <= j < |ms| :: ms[j].prefix == oldPrefix || ms[j].prefix != m.prefix
    ensures Distinct(ms')
  {
    forall i, j | 0 <= i < j < |ms'| ensures ByPrefix(ms'[i]) != ByPrefix(ms'[j]) {
      assert ByPrefix(ms[i]) != ByPrefix(ms[j]);
    }
  }

  lemma RenamedTable(ms: seq<Mapping>, ms': seq<Mapping>, oldPrefix: string, m: Mapping)
    requires Distinct(ms) && |ms'| == |ms| && Has(ms, oldPrefix)
    requires forall j | 0 <= j < |ms| :: ms'[j] == if ms[j].prefix == oldPrefix then m else ms[j]
    requires forall j | 0 <= j < |ms| :: ms[j].prefix == oldPrefix || ms[j].prefix != m.prefix
    ensures InOrder(SortBy(ByPrefix, ms'))
    ensures Table(SortBy(ByPrefix, ms')) == (Table(ms) - {oldPrefix})[m.prefix := m]
  {
    RenamedDistinct(ms, ms', oldPrefix, m);
    SortByStrict(ByPrefix, ms');
    var out := SortBy(ByPrefix, ms');
    InOrderIsDistinct(out);
    TableMembers(ms);
    var t := (Table(ms) - {oldPrefix})[m.prefix := m];
    forall x | x in out ensures x.prefix in t && t[x.prefix] == x {
      assert x in ms';
      var j :| 0 <= j < |ms'| && ms'[j] == x;
      assert ms[j] in ms;
    }
    forall p | p in t ensures t[p] in out && t[p].prefix == p {
      if p == m.prefix {
        var y :| y in ms && y.prefix == oldPrefix;
        var j :| 0 <= j < |ms| && ms[j] == y;
        assert ms'[j] in ms';
      } else {
        var j :| 0 <= j < |ms| && ms[j] == Table(ms)[p];
        assert ms'[j] in ms';
      }
    }
    TableFromMembers(out, t);
  }

  method EnableMapping(ms: seq<Mapping>, prefix: string, enabled: bool) returns (ok: bool, ms': seq<Mapping>)
    requires Distinct(ms)
    ensures ok <==> prefix in Table(ms)
    ensures ok ==> Table(ms') == Table(ms)[prefix := Table(ms)[prefix].(enabled := enabled)]
    ensures InOrder(ms) ==> InOrder(ms')
  {
    TableKeys(ms, prefix);
    for i := 0 to |ms|
      invariant forall j | 0 <= j < i :: ms[j].prefix != prefix
    {
      if ms[i].prefix == prefix {
        assert ms[i] in ms;
        ok, ms' := true, ms[i := ms[i].(enabled := enabled)];
        SwitchedTable(ms, i, enabled);
        return;
      }
    }
    ok, ms' := false, ms;
  }

  lemma SwitchedTable(ms: seq<Mapping>, i: nat, enabled: bool)
    requires Distinct(ms) && i < |ms|
    ensures var ms' := ms[i := ms[i].(enabled := enabled)];
            && (InOrder(ms) ==> InOrder(ms'))
            && ms[i].prefix in Table(ms)
            && Table(ms)[ms[i].prefix] == ms[i]
            && Table(ms') == Table(ms)[ms[i].prefix := ms'[i]]
  {
    var ms' := ms[i := ms[i].(enabled := enabled)];
    assert forall j | 0 <= j < |ms| :: ByPrefix(ms'[j]) == ByPrefix(ms[j]);
    assert Distinct(ms');
    assert ms[i] in ms;
    TableMembers(ms);
    var t := Table(ms)[ms[i].prefix := ms'[i]];
    forall x | x in ms' ensures x.prefix in t && t[x.prefix] == x {
      var j :| 0 <= j < |ms'| && ms'[j] == x;
      assert ms[j] in ms;
      assert j < i ==> ByPrefix(ms[j]) != ByPrefix(ms[i]);
      assert i < j ==> ByPrefix(ms[i]) != ByPrefix(ms[j]);
    }
    forall p | p in t ensures t[p] in ms' && t[p].prefix == p {
      if p == ms[i].prefix {
        assert ms'[i] in ms';
      } else {
        var j :| 0 <= j < |ms| && ms[j] == Table(ms)[p];
        assert ms'[j] in ms';
      }
    }
    TableFromMembers(ms', t);
  }

  // ----- Deleting by compaction in place -----

  function Without(ms: seq<Mapping>, prefix: string): (r: seq<Mapping>)
    ensures |r| <= |ms|
  {
    if ms == [] then []
    else
      var last := ms[|ms| - 1];
      Without(ms[..|ms| - 1], prefix) + (if last.prefix == prefix then [] else [last])
  }

  lemma {:induction false} WithoutMembers(ms: seq<Mapping>, prefix: string, m: Mapping)
    ensures m in Without(ms, prefix) <==> m in ms && m.prefix != prefix
    ensures |Without(ms, prefix)| == |ms| <==> !Has(ms, prefix)
  {
    if ms != [] {
      var front, last := ms[..|ms| - 1], ms[|ms| - 1];
      WithoutMembers(front, prefix, m);
      assert ms == front + [last];
      assert Has(ms, prefix) <==> last.prefix == prefix || Has(front, prefix);
    }
  }

  lemma {:induction false} WithoutDistinct(ms: seq<Mapping>, prefix: string)
    requires Distinct(ms)
    ensures Distinct(Without(ms, prefix))
  {
    if ms != [] {
      var front, last := ms[..|ms| - 1], ms[|ms| - 1];
      WithoutDistinct(front, prefix);
      var r := Without(front, prefix);
      forall i | 0 <= i < |r| ensures ByPrefix(r[i]) != ByPrefix(last) {
        WithoutMembers(front, prefix, r[i]);
        var j :| 0 <= j < |front| && front[j] == r[i];
        assert ByPrefix(ms[j]) != ByPrefix(ms[|ms| - 1]);
      }
    }
  }

  lemma {:induction false} WithoutOrder(ms: seq<Mapping>, prefix: string)
    requires InOrder(ms)
    ensures InOrder(Without(ms, prefix))
  {
    if ms != [] {
      var front, last := ms[..|ms| - 1], ms[|ms| - 1];
      WithoutOrder(front, prefix);
      var r := Without(front, prefix);
      forall i | 0 <= i < |r| ensures Less(ByPrefix(r[i]), ByPrefix(last)) {
        WithoutMembers(front, prefix, r[i]);
        var j :| 0 <= j < |front| && front[j] == r[i];
        assert Less(ByPrefix(ms[j]), ByPrefix(ms[|ms| - 1]));
      }
    }
  }

  lemma WithoutTable(ms: seq<Mapping>, prefix: string)
    requires Distinct(ms)
    ensures Distinct(Without(ms, prefix)) && Table(Without(ms, prefix)) == Table(ms) - {prefix}
  {
    WithoutDistinct(ms, prefix);
    TableMembers(ms);
    forall m ensures m in Without(ms, prefix) <==> m in ms && m.prefix != prefix {
      WithoutMembers(ms, prefix, m);
    }
    TableFromMembers(Without(ms, prefix), Table(ms) - {prefix});
  }

  lemma DeletedTable(ms: seq<Mapping>, prefix: string)
    requires Distinct(ms)
    ensures Distinct(Without(ms, prefix)) && Table(Without(ms, prefix)) == Table(ms) - {prefix}
    ensures |Without(ms, prefix)| != |ms| <==> prefix in Table(ms)
    ensures InOrder(ms) ==> InOrder(Without(ms, prefix))
  {
    WithoutTable(ms, prefix);
    TableKeys(ms, prefix);
    if ms != [] { WithoutMembers(ms, prefix, ms[0]); }
    if InOrder(ms) { WithoutOrder(ms, prefix); }
  }

  /** The kept elements are written over the front of the list they are read from. */
  method DeleteMapping(a: array<Mapping>, prefix: string) returns (ok: bool, kept: nat)
    requires Distinct(a[..])
    modifies a
    ensures kept <= a.Length
    ensures a[..kept] == Without(old(a[..]), prefix)
    ensures ok <==> prefix in Table(old(a[..]))
    ensures Distinct(a[..kept]) && Table(a[..kept]) == Table(old(a[..])) - {prefix}
    ensures InOrder(old(a[..])) ==> InOrder(a[..kept])
  {
    ghost var all := a[..];
    kept := 0;
    for i := 0 to a.Length
      invariant kept <= i
      invariant a[..kept] == Without(all[..i], prefix)
      invariant forall j | i <= j < a.Length :: a[j] == all[j]
    {
      var m := a[i];
      assert all[..i + 1][..i] == all[..i];
      if m.prefix != prefix {
        a[kept] := m;
        kept := kept + 1;
      }
    }
    assert all[..a.Length] == all;
    DeletedTable(all, prefix);
    ok := kept != a.Length;
  }

  lemma RemovedAgain(ms: seq<Mapping>, ms': seq<Mapping>, m: Mapping)
    requires InOrder(ms) && InOrder(ms') && !Has(ms, m.prefix)
    requires Table(ms') == Table(ms)[m.prefix := m]
    ensures Without(ms', m.prefix) == ms
  {
    InOrderIsDistinct(ms');
    DeletedTable(ms', m.prefix);
    TableKeys(ms, m.prefix);
    assert Table(ms') - {m.prefix} == Table(ms);
    TableDetermines(Without(ms', m.prefix), ms);
  }

  /** Creating a mapping and deleting it again gives back the same list. */
  lemma CreateThenDelete(ms: seq<Mapping>, m: Mapping)
    requires InOrder(ms) && !Has(ms, m.prefix)
    ensures Without(SortBy(ByPrefix, ms + [m]), m.prefix) == ms
  {
    InOrderIsDistinct(ms);
    InsertedTable(ms, m);
    RemovedAgain(ms, SortBy(ByPrefix, ms + [m]), m);
  }
}
