/**
 `resolve_reexports`: following a package's re-exports, through a table that may be cyclic,
 to the module that defines a name.
 */
module Reexports {
  import opened Options
  import Orders

  /** A name in a module; no symbol means the module itself, `*` every name of it. */
  datatype Key = Key(module_: string, symbol: Option<string>)

  type Table = map<Key, Key>

  datatype Edge = Edge(
    sourcePath: string,
    sourceModule: string,
    destination: string,
    chain: seq<string>,
    importedSymbol: Option<string>,
    boundName: Option<string>)

  function Star(module_: string): Key {
    Key(module_, Some("*"))
  }

  // ----- one hop

  /** The table entry that applies at a place: the exact name, else the star of its module. */
  function Entry(t: Table, at: Key): Option<Key> {
    if at in t then Some(at)
    else if at.symbol != Some("*") && Star(at.module_) in t then Some(Star(at.module_))
    else None
  }

  /** Where it leads: an exact entry renames, a star keeps the name. */
  function Hop(t: Table, at: Key): Key
    requires Entry(t, at).Some?
  {
    if at in t then t[at] else Key(t[Star(at.module_)].module_, at.symbol)
  }

  // ----- the walk, without any memory of where it has been

  predicate Hops(t: Table, at: Key, n: nat)
    decreases n
  {
    n > 0 ==> Entry(t, at).Some? && Hops(t, Hop(t, at), n - 1)
  }

  function Place(t: Table, at: Key, n: nat): Key
    requires Hops(t, at, n)
    decreases n
  {
    if n == 0 then at else Place(t, Hop(t, at), n - 1)
  }

  /** The modules visited by the first `n` hops. */
  function Trail(t: Table, at: Key, n: nat): seq<string>
    requires Hops(t, at, n)
    decreases n
  {
    if n == 0 then [] else [Hop(t, at).module_] + Trail(t, Hop(t, at), n - 1)
  }

  /** The entries used by the first `n` hops. */
  function Used(t: Table, at: Key, n: nat): seq<Key>
    requires Hops(t, at, n)
    decreases n
  {
    if n == 0 then [] else [Entry(t, at).value] + Used(t, Hop(t, at), n - 1)
  }

  predicate Distinct(keys: seq<Key>) {
    forall i, j | 0 <= i < j < |keys| :: keys[i] != keys[j]
  }

  /**
   The `n` hops after which the walk stops: no entry is used twice, and none applies to the
   place reached unless it was already used.
   */
  ghost predicate Stops(t: Table, at: Key, n: nat) {
    && Hops(t, at, n)
    && Distinct(Used(t, at, n))
    && var last := Entry(t, Place(t, at, n)); last.None? || last.value in Used(t, at, n)
  }

  // ----- the loop

  lemma {:induction false} OneMore(t: Table, at: Key, n: nat)
    requires Hops(t, at, n) && Entry(t, Place(t, at, n)).Some?
    ensures Hops(t, at, n + 1)
    ensures Place(t, at, n + 1) == Hop(t, Place(t, at, n))
    ensures Trail(t, at, n + 1) == Trail(t, at, n) + [Place(t, at, n + 1).module_]
    ensures Used(t, at, n + 1) == Used(t, at, n) + [Entry(t, Place(t, at, n)).value]
    decreases n
  {
    if n > 0 {
      OneMore(t, Hop(t, at), n - 1);
    }
  }

  lemma {:induction false} UsedAreEntries(t: Table, at: Key, n: nat)
    requires Hops(t, at, n)
    ensures |Used(t, at, n)| == n && |Trail(t, at, n)| == n
    ensures forall k | k in Used(t, at, n) :: k in t
    decreases n
  {
    if n > 0 {
      UsedAreEntries(t, Hop(t, at), n - 1);
    }
  }

  function Keys(keys: seq<Key>): set<Key> {
    set k | k in keys
  }

  lemma {:induction false} DistinctKeys(keys: seq<Key>)
    requires Distinct(keys)
    ensures |Keys(keys)| == |keys|
  {
    if keys != [] {
      var front := keys[..|keys| - 1];
      DistinctKeys(front);
      assert keys == front + [keys[|keys| - 1]];
      assert Keys(keys) == Keys(front) + {keys[|keys| - 1]};
    }
  }

  /** Each entry is used at most once, so the walk stops within as many hops as the table has entries. */
  lemma WithinTable(t: Table, at: Key, n: nat)
    requires Hops(t, at, n) && Distinct(Used(t, at, n))
    ensures n <= |t|
  {
    UsedAreEntries(t, at, n);
    DistinctKeys(Used(t, at, n));
    Orders.SubsetSize(Keys(Used(t, at, n)), t.Keys);
    assert |t.Keys| == |t|;
  }

  /** The edge with `n` more hops. */
  function Extended(edge: Edge, t: Table, n: nat): Edge
    requires Hops(t, Key(edge.destination, edge.importedSymbol), n)
  {
    var at := Key(edge.destination, edge.importedSymbol);
    edge.(destination := Place(t, at, n).module_, importedSymbol := Place(t, at, n).symbol,
      chain := edge.chain + Trail(t, at, n))
  }

  method ResolveReexports(edge: Edge, reexports: Table) returns (r: Edge, hops: nat)
    ensures Stops(reexports, Key(edge.destination, edge.importedSymbol), hops)
    ensures r == Extended(edge, reexports, hops)
    ensures hops <= |reexports|
  {
    var destination, symbol, chain := edge.destination, edge.importedSymbol, edge.chain;
    var visited: set<Key> := {};
    ghost var start := Key(destination, symbol);
    hops := 0;
    while true
      invariant Hops(reexports, start, hops) && Distinct(Used(reexports, start, hops))
      invariant Key(destination, symbol) == Place(reexports, start, hops)
      invariant chain == edge.chain + Trail(reexports, start, hops)
      invariant visited == Keys(Used(reexports, start, hops))
      invariant hops <= |reexports|
      decreases |reexports| - hops
    {
      var key := Key(destination, symbol);
      var preserveSymbol := false;
      if key !in reexports && symbol != Some("*") && Star(destination) in reexports {
        key := Star(destination);
        preserveSymbol := true;
      }
      if key !in reexports || key in visited {
        break;
      }
      OneMore(reexports, start, hops);
      visited := visited + {key};
      destination := reexports[key].module_;
      if !preserveSymbol {
        symbol := reexports[key].symbol;
      }
      chain := chain + [destination];
      hops := hops + 1;
      WithinTable(reexports, start, hops);
    }
    r := Edge(edge.sourcePath, edge.sourceModule, destination, chain, symbol, edge.boundName);
  }

  // ----- what stopping means

  lemma {:induction false} PlaceSplits(t: Table, at: Key, m: nat, n: nat)
    requires Hops(t, at, m + n)
    ensures Hops(t, at, m) && Hops(t, Place(t, at, m), n) && Place(t, at, m + n) == Place(t, Place(t, at, m), n)
    decreases m
  {
    if m > 0 {
      PlaceSplits(t, Hop(t, at), m - 1, n);
    }
  }

  /** There is one number of hops after which the walk stops. */
  lemma StopsOnce(t: Table, at: Key, m: nat, n: nat)
    requires Stops(t, at, m) && Stops(t, at, n)
    ensures m == n
  {
    if m < n {
      StopsFirst(t, at, m, n);
    } else if n < m {
      StopsFirst(t, at, n, m);
    }
  }

  lemma StopsFirst(t: Table, at: Key, m: nat, n: nat)
    requires m < n && Stops(t, at, m) && Hops(t, at, n)
    ensures !Distinct(Used(t, at, n))
  {
    var used := Used(t, at, n);
    UsedAt(t, at, n, m);
    UsedAreEntries(t, at, m);
    var i: nat :| i < m && Used(t, at, m)[i] == used[m];
    UsedAt(t, at, m, i);
    UsedAt(t, at, n, i);
    assert used[i] == used[m];
  }

  /** The walk, followed for as long as entries apply, ends after `n` hops. */
  ghost predicate Ends(t: Table, at: Key, n: nat) {
    Hops(t, at, n) && Entry(t, Place(t, at, n)).None?
  }

  /**
   The chase reaches a place to which no entry applies exactly when following the table without
   any memory ends, and needs no entry twice.
   */
  lemma ResolvedExactlyWhen(t: Table, at: Key, n: nat)
    requires Stops(t, at, n)
    ensures Entry(t, Place(t, at, n)).None? <==> exists m :: Ends(t, at, m) && Distinct(Used(t, at, m))
  {
    if Entry(t, Place(t, at, n)).None? {
      assert Ends(t, at, n);
    }
    if exists m :: Ends(t, at, m) && Distinct(Used(t, at, m)) {
      var m :| Ends(t, at, m) && Distinct(Used(t, at, m));
      assert Stops(t, at, m);
      StopsOnce(t, at, m, n);
    }
  }

  // ----- without stars, an entry comes back only on a cycle

  lemma {:induction false} ExactUse(t: Table, at: Key, n: nat)
    requires (forall k | k in t :: k.symbol != Some("*")) && Hops(t, at, n) && Entry(t, Place(t, at, n)).Some?
    ensures Entry(t, Place(t, at, n)).value == Place(t, at, n)
  {
  }

  lemma {:induction false} UsedAt(t: Table, at: Key, n: nat, i: nat)
    requires Hops(t, at, n) && i < n
    ensures |Used(t, at, n)| == n && Hops(t, at, i) && Entry(t, Place(t, at, i)) == Some(Used(t, at, n)[i])
    decreases n
  {
    UsedAreEntries(t, at, n);
    if i > 0 {
      UsedAt(t, Hop(t, at), n - 1, i - 1);
    }
  }

  /** From a place it comes back to, the walk never ends. */
  lemma {:induction false} CycleNeverEnds(t: Table, at: Key, d: nat, m: nat)
    requires d > 0 && Hops(t, at, d) && Place(t, at, d) == at
    ensures !Ends(t, at, m)
    decreases m
  {
    if Hops(t, at, m) {
      if m < d {
        PlaceSplits(t, at, m, d - m);
      } else {
        PlaceSplits(t, at, d, m - d);
        CycleNeverEnds(t, at, d, m - d);
      }
    }
  }

  lemma SamePlace(t: Table, at: Key, m: nat, i: nat, j: nat)
    requires (forall k | k in t :: k.symbol != Some("*")) && Hops(t, at, m) && i < j < m
    requires |Used(t, at, m)| == m && Used(t, at, m)[i] == Used(t, at, m)[j]
    ensures Hops(t, at, i) && Hops(t, at, j) && Place(t, at, i) == Place(t, at, j)
  {
    UsedAt(t, at, m, i);
    UsedAt(t, at, m, j);
    ExactUse(t, at, i);
    ExactUse(t, at, j);
  }

  /** Two hops through one exact entry start at one place, so the walk goes round for ever. */
  lemma RepeatNeverEnds(t: Table, at: Key, m: nat, i: nat, j: nat)
    requires (forall k | k in t :: k.symbol != Some("*")) && Hops(t, at, m) && i < j < m
    requires |Used(t, at, m)| == m && Used(t, at, m)[i] == Used(t, at, m)[j]
    ensures !Ends(t, at, m)
  {
    SamePlace(t, at, m, i, j);
    ReturnNeverEnds(t, at, i, j - i, m - i);
  }

  lemma ReturnNeverEnds(t: Table, at: Key, i: nat, d: nat, rest: nat)
    requires d > 0 && Hops(t, at, i) && Hops(t, at, i + d) && Hops(t, at, i + rest)
    requires Place(t, at, i + d) == Place(t, at, i)
    ensures !Ends(t, at, i + rest)
  {
    PlaceSplits(t, at, i, d);
    PlaceSplits(t, at, i, rest);
    CycleNeverEnds(t, Place(t, at, i), d, rest);
  }

  /** In a table without star entries the chase resolves exactly the names whose re-exports are not circular. */
  lemma WithoutStars(t: Table, at: Key, n: nat)
    requires (forall k | k in t :: k.symbol != Some("*")) && Stops(t, at, n)
    ensures Entry(t, Place(t, at, n)).None? <==> exists m :: Ends(t, at, m)
  {
    ResolvedExactlyWhen(t, at, n);
    if m :| Ends(t, at, m) {
      UsedAreEntries(t, at, m);
      if !Distinct(Used(t, at, m)) {
        var i: nat, j: nat :| i < j < m && Used(t, at, m)[i] == Used(t, at, m)[j];
        RepeatNeverEnds(t, at, m, i, j);
      }
    }
  }

  // ----- exact entries and stars

  /** An exact entry wins: star entries added to a table do not change a chase that had exact entries. */
  lemma {:induction false} StarsDoNotShadow(t: Table, stars: Table, at: Key, n: nat)
    requires (forall k | k in t :: k.symbol != Some("*")) && (forall k | k in stars :: k.symbol == Some("*"))
    requires Hops(t, at, n)
    ensures Hops(t + stars, at, n) && Place(t + stars, at, n) == Place(t, at, n)
    ensures Trail(t + stars, at, n) == Trail(t, at, n) && Used(t + stars, at, n) == Used(t, at, n)
    decreases n
  {
    if n > 0 {
      assert Star(at.module_) !in t;
      assert at in t && Hop(t + stars, at) == Hop(t, at);
      StarsDoNotShadow(t, stars, Hop(t, at), n - 1);
    }
  }

  /** Through star entries alone a name moves from module to module and stays the same name. */
  lemma {:induction false} StarsKeepTheName(t: Table, at: Key, n: nat)
    requires (forall k | k in t :: k.symbol == Some("*")) && at.symbol != Some("*") && Hops(t, at, n)
    ensures Place(t, at, n).symbol == at.symbol
    ensures n > 0 ==> Place(t, at, n).module_ in set k | k in t :: t[k].module_
    decreases n
  {
    if n > 0 {
      assert Star(at.module_) in t;
      StarsKeepTheName(t, Hop(t, at), n - 1);
    }
  }

  /** With a star entry, a chase that would end can stop early: the star is needed again under another name. */
  lemma StarStopsEarly()
    ensures var t := map[Star("a") := Star("b"), Key("b", Some("x")) := Key("a", Some("y")),
      Key("b", Some("y")) := Key("c", Some("y"))];
            var at := Key("a", Some("x"));
            Ends(t, at, 4) && Stops(t, at, 2) && Entry(t, Place(t, at, 2)).Some?
  {
    var t := map[Star("a") := Star("b"), Key("b", Some("x")) := Key("a", Some("y")),
      Key("b", Some("y")) := Key("c", Some("y"))];
    var p0 := Key("a", Some("x"));
    var p1, p2, p3, p4 := Key("b", Some("x")), Key("a", Some("y")), Key("b", Some("y")), Key("c", Some("y"));
    assert Entry(t, p0) == Some(Star("a")) && Hop(t, p0) == p1;
    assert Entry(t, p1) == Some(p1) && Hop(t, p1) == p2;
    assert Entry(t, p2) == Some(Star("a")) && Hop(t, p2) == p3;
    assert Entry(t, p3) == Some(p3) && Hop(t, p3) == p4;
    assert Entry(t, p4) == None;
    assert Hops(t, p4, 0) && Hops(t, p3, 1) && Hops(t, p2, 2) && Hops(t, p1, 3) && Hops(t, p0, 4);
    assert Place(t, p0, 4) == Place(t, p1, 3) == Place(t, p2, 2) == Place(t, p3, 1) == Place(t, p4, 0);
    assert Hops(t, p2, 0) && Hops(t, p1, 1) && Hops(t, p0, 2);
    assert Used(t, p1, 1) == [p1] && Used(t, p0, 2) == [Star("a"), p1];
    assert Place(t, p0, 2) == Place(t, p1, 1) == p2;
  }
}
