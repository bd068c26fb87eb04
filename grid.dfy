/**
 * The tile walk over a list of levels: level by level, row by row, column by column,
 * with the newer engine skipping every tile whose hash it has already seen.
 */
module Grid {
  import opened Wrappers
  import opened Mercator
  import opened Levels

  // ----- the nested loops of single -----

  /**
   * Every tile the nested loops still visit from cursor (level li, row ri, column ci),
   * before any deduplication: the rest of this row, then the following rows, then the
   * following levels.
   */
  function Rest(levels: seq<Level>, li: nat, ri: nat, ci: nat): seq<Tile>
    decreases |levels| - li,
      if li < |levels| then |levels[li].rows| - ri else 0,
      if li < |levels| then |levels[li].columns| - ci else 0
  {
    if li >= |levels| then []
    else if ri >= |levels[li].rows| then Rest(levels, li + 1, 0, 0)
    else if ci >= |levels[li].columns| then Rest(levels, li, ri + 1, 0)
    else [Tile(levels[li].columns[ci], levels[li].rows[ri], levels[li].zoom)] + Rest(levels, li, ri, ci + 1)
  }

  /** Every tile the nested loops visit, before any deduplication. */
  function Candidates(levels: seq<Level>): seq<Tile> {
    Rest(levels, 0, 0, 0)
  }

  /** (k, r, c) indexes a column and a row of a level. */
  predicate At(levels: seq<Level>, k: int, r: int, c: int) {
    0 <= k < |levels| && 0 <= r < |levels[k].rows| && 0 <= c < |levels[k].columns|
  }

  /** [column, row, zoom] of level k at row index r and column index c. */
  function TileAt(levels: seq<Level>, k: int, r: int, c: int): Tile
    requires At(levels, k, r, c)
  {
    Tile(levels[k].columns[c], levels[k].rows[r], levels[k].zoom)
  }

  /** (k, r, c) comes at or after (li, ri, ci) in level, row, column order. */
  predicate NotBefore(li: int, ri: int, ci: int, k: int, r: int, c: int) {
    k > li || (k == li && (r > ri || (r == ri && c >= ci)))
  }

  /** t is the tile of some position not before the cursor (li, ri, ci). */
  ghost predicate Ahead(levels: seq<Level>, li: int, ri: int, ci: int, t: Tile) {
    exists k, r, c :: At(levels, k, r, c) && NotBefore(li, ri, ci, k, r, c) && t == TileAt(levels, k, r, c)
  }

  /** The tiles still to visit are exactly those of the cursor positions not before the cursor. */
  lemma {:induction false} RestMembers(levels: seq<Level>, li: nat, ri: nat, ci: nat, t: Tile)
    ensures t in Rest(levels, li, ri, ci) <==> Ahead(levels, li, ri, ci, t)
    decreases |levels| - li,
      if li < |levels| then |levels[li].rows| - ri else 0,
      if li < |levels| then |levels[li].columns| - ci else 0
  {
    if li >= |levels| {
    } else if ri >= |levels[li].rows| {
      RestMembers(levels, li + 1, 0, 0, t);
      AheadNextLevel(levels, li, ri, ci, t);
    } else if ci >= |levels[li].columns| {
      RestMembers(levels, li, ri + 1, 0, t);
      AheadNextRow(levels, li, ri, ci, t);
    } else {
      RestMembers(levels, li, ri, ci + 1, t);
      AheadNextColumn(levels, li, ri, ci, t);
      assert Rest(levels, li, ri, ci) == [TileAt(levels, li, ri, ci)] + Rest(levels, li, ri, ci + 1);
    }
  }

  /** Past the last row of a level, what is ahead starts at the next level. */
  lemma AheadNextLevel(levels: seq<Level>, li: nat, ri: nat, ci: nat, t: Tile)
    requires li < |levels| && ri >= |levels[li].rows|
    ensures Ahead(levels, li, ri, ci, t) <==> Ahead(levels, li + 1, 0, 0, t)
  {
    if Ahead(levels, li, ri, ci, t) {
      var k, r, c :| At(levels, k, r, c) && NotBefore(li, ri, ci, k, r, c) && t == TileAt(levels, k, r, c);
      assert NotBefore(li + 1, 0, 0, k, r, c);
    }
    if Ahead(levels, li + 1, 0, 0, t) {
      var k, r, c :| At(levels, k, r, c) && NotBefore(li + 1, 0, 0, k, r, c) && t == TileAt(levels, k, r, c);
      assert NotBefore(li, ri, ci, k, r, c);
    }
  }

  /** Past the last column of a row, what is ahead starts at the next row. */
  lemma AheadNextRow(levels: seq<Level>, li: nat, ri: nat, ci: nat, t: Tile)
    requires li < |levels| && ci >= |levels[li].columns|
    ensures Ahead(levels, li, ri, ci, t) <==> Ahead(levels, li, ri + 1, 0, t)
  {
    if Ahead(levels, li, ri, ci, t) {
      var k, r, c :| At(levels, k, r, c) && NotBefore(li, ri, ci, k, r, c) && t == TileAt(levels, k, r, c);
      assert NotBefore(li, ri + 1, 0, k, r, c);
    }
    if Ahead(levels, li, ri + 1, 0, t) {
      var k, r, c :| At(levels, k, r, c) && NotBefore(li, ri + 1, 0, k, r, c) && t == TileAt(levels, k, r, c);
      assert NotBefore(li, ri, ci, k, r, c);
    }
  }

  /** On a position, what is ahead is its tile and what is ahead of the next column. */
  lemma AheadNextColumn(levels: seq<Level>, li: nat, ri: nat, ci: nat, t: Tile)
    requires At(levels, li, ri, ci)
    ensures Ahead(levels, li, ri, ci, t) <==> t == TileAt(levels, li, ri, ci) || Ahead(levels, li, ri, ci + 1, t)
  {
    if t == TileAt(levels, li, ri, ci) {
      assert NotBefore(li, ri, ci, li, ri, ci);
    }
    if Ahead(levels, li, ri, ci, t) {
      var k, r, c :| At(levels, k, r, c) && NotBefore(li, ri, ci, k, r, c) && t == TileAt(levels, k, r, c);
      if !(k == li && r == ri && c == ci) {
        assert NotBefore(li, ri, ci + 1, k, r, c);
      }
    }
    if Ahead(levels, li, ri, ci + 1, t) {
      var k, r, c :| At(levels, k, r, c) && NotBefore(li, ri, ci + 1, k, r, c) && t == TileAt(levels, k, r, c);
      assert NotBefore(li, ri, ci, k, r, c);
    }
  }

  /** The candidates are exactly the [column, row, zoom] of every level, nothing else. */
  lemma CandidatesMembers(levels: seq<Level>, t: Tile)
    ensures t in Candidates(levels) <==> exists k, r, c :: At(levels, k, r, c) && t == TileAt(levels, k, r, c)
  {
    RestMembers(levels, 0, 0, 0, t);
    if exists k, r, c :: At(levels, k, r, c) && t == TileAt(levels, k, r, c) {
      var k, r, c :| At(levels, k, r, c) && t == TileAt(levels, k, r, c);
      assert NotBefore(0, 0, 0, k, r, c);
    }
  }

  /** The quick count: the sum of rows.length * columns.length over the levels from li on. */
  function Area(levels: seq<Level>, li: nat): nat
    decreases |levels| - li
  {
    if li >= |levels| then 0 else |levels[li].rows| * |levels[li].columns| + Area(levels, li + 1)
  }

  /** The rest of a row holds one tile per remaining column. */
  lemma {:induction false} RestRowLength(levels: seq<Level>, li: nat, ri: nat, ci: nat)
    requires li < |levels| && ri < |levels[li].rows| && ci <= |levels[li].columns|
    ensures |Rest(levels, li, ri, ci)| == |levels[li].columns| - ci + |Rest(levels, li, ri + 1, 0)|
    decreases |levels[li].columns| - ci
  {
    if ci < |levels[li].columns| {
      RestRowLength(levels, li, ri, ci + 1);
    }
  }

  /** The rest of a level holds one tile per remaining row and column. */
  lemma {:induction false} RestLevelLength(levels: seq<Level>, li: nat, ri: nat)
    requires li < |levels| && ri <= |levels[li].rows|
    ensures |Rest(levels, li, ri, 0)| == (|levels[li].rows| - ri) * |levels[li].columns| + |Rest(levels, li + 1, 0, 0)|
    decreases |levels[li].rows| - ri
  {
    var n := |levels[li].columns|;
    if ri < |levels[li].rows| {
      RestRowLength(levels, li, ri, 0);
      RestLevelLength(levels, li, ri + 1);
      assert (|levels[li].rows| - ri) * n == n + (|levels[li].rows| - (ri + 1)) * n;
    }
  }

  /** The nested loops visit exactly the quick count of tiles. */
  lemma {:induction false} RestArea(levels: seq<Level>, li: nat)
    ensures |Rest(levels, li, 0, 0)| == Area(levels, li)
    decreases |levels| - li
  {
    if li < |levels| {
      RestLevelLength(levels, li, 0);
      RestArea(levels, li + 1);
    }
  }

  // ----- deduplication -----

  /** The tiles of s whose hash is not yet seen, each first occurrence only. */
  function Fresh(s: seq<Tile>, seen: set<int>): seq<Tile> {
    if s == [] then []
    else if Hash(s[0]) in seen then Fresh(s[1..], seen)
    else [s[0]] + Fresh(s[1..], seen + {Hash(s[0])})
  }

  /** The newer engine deduplicates through the seen-set; index.js yields every tile. */
  function Emit(s: seq<Tile>, seen: set<int>, unique: bool): seq<Tile> {
    if unique then Fresh(s, seen) else s
  }

  /** The whole sequence single yields over these levels. */
  function Walk(levels: seq<Level>, unique: bool): seq<Tile> {
    Emit(Candidates(levels), {}, unique)
  }

  /** Every tile Fresh keeps comes from s and has a hash outside seen. */
  lemma {:induction false} FreshMembers(s: seq<Tile>, seen: set<int>)
    ensures forall t :: t in Fresh(s, seen) ==> t in s && Hash(t) !in seen
  {
    if s != [] {
      if Hash(s[0]) in seen {
        FreshMembers(s[1..], seen);
      } else {
        FreshMembers(s[1..], seen + {Hash(s[0])});
      }
    }
  }

  /** No two tiles of f share a hash. */
  predicate DistinctHashes(f: seq<Tile>) {
    forall i, j :: 0 <= i < j < |f| ==> Hash(f[i]) != Hash(f[j])
  }

  /** No two tiles Fresh keeps share a hash. */
  lemma {:induction false} FreshDistinct(s: seq<Tile>, seen: set<int>)
    ensures DistinctHashes(Fresh(s, seen))
  {
    if s != [] {
      if Hash(s[0]) in seen {
        assert Fresh(s, seen) == Fresh(s[1..], seen);
        FreshDistinct(s[1..], seen);
      } else {
        var rest := Fresh(s[1..], seen + {Hash(s[0])});
        FreshDistinct(s[1..], seen + {Hash(s[0])});
        FreshMembers(s[1..], seen + {Hash(s[0])});
        ConsDistinct(s[0], rest);
        assert Fresh(s, seen) == [s[0]] + rest;
      }
    }
  }

  /** A tile whose hash none of rest carries keeps the hashes of [t] + rest distinct. */
  lemma ConsDistinct(t: Tile, rest: seq<Tile>)
    requires DistinctHashes(rest) && forall u :: u in rest ==> Hash(u) != Hash(t)
    ensures DistinctHashes([t] + rest)
  {
    var f := [t] + rest;
    forall i, j | 0 <= i < j < |f| ensures Hash(f[i]) != Hash(f[j]) {
      assert f[j] == rest[j - 1] && f[j] in rest;
      if i > 0 {
        assert f[i] == rest[i - 1];
      }
    }
  }

  /** Every hash of s outside seen is kept: some kept tile carries it. */
  lemma {:induction false} FreshCovers(s: seq<Tile>, seen: set<int>, t: Tile)
    requires t in s && Hash(t) !in seen
    ensures exists u :: u in Fresh(s, seen) && Hash(u) == Hash(t)
  {
    if Hash(s[0]) == Hash(t) {
      assert s[0] in Fresh(s, seen);
    } else {
      assert t in s[1..];
      if Hash(s[0]) in seen {
        FreshCovers(s[1..], seen, t);
      } else {
        FreshCovers(s[1..], seen + {Hash(s[0])}, t);
        var u :| u in Fresh(s[1..], seen + {Hash(s[0])}) && Hash(u) == Hash(t);
        assert u in Fresh(s, seen);
      }
    }
  }

  /** Deduplication never lengthens: the exact count is at most the quick count. */
  lemma {:induction false} FreshShorter(s: seq<Tile>, seen: set<int>)
    ensures |Fresh(s, seen)| <= |s|
  {
    if s != [] {
      if Hash(s[0]) in seen {
        FreshShorter(s[1..], seen);
      } else {
        FreshShorter(s[1..], seen + {Hash(s[0])});
      }
    }
  }

  /** When the hashes of s are distinct and none is seen yet, nothing is dropped. */
  lemma {:induction false} FreshKeepsAll(s: seq<Tile>, seen: set<int>)
    requires DistinctHashes(s) && forall i :: 0 <= i < |s| ==> Hash(s[i]) !in seen
    ensures Fresh(s, seen) == s
  {
    if s != [] {
      var rest := s[1..];
      assert forall i :: 0 <= i < |rest| ==> rest[i] == s[i + 1];
      FreshKeepsAll(rest, seen + {Hash(s[0])});
      assert [s[0]] + rest == s;
    }
  }

  /** The hashes of the tiles of s. */
  function HashesOf(s: seq<Tile>): set<int> {
    set t | t in s :: Hash(t)
  }

  /**
   * An independent reading of the dedup: walking s from the left, a tile is kept exactly
   * when no earlier tile of s has the same hash.
   */
  function FirstOccurrences(s: seq<Tile>): seq<Tile> {
    if s == [] then []
    else
      var p, t := s[..|s| - 1], s[|s| - 1];
      if Hash(t) in HashesOf(p) then FirstOccurrences(p) else FirstOccurrences(p) + [t]
  }

  lemma HashesSnoc(p: seq<Tile>, t: Tile)
    ensures HashesOf(p + [t]) == HashesOf(p) + {Hash(t)}
  {
    assert forall u :: u in p + [t] <==> u in p || u == t;
  }

  lemma FirstOccurrencesSnoc(p: seq<Tile>, t: Tile)
    ensures FirstOccurrences(p + [t]) ==
      if Hash(t) in HashesOf(p) then FirstOccurrences(p) else FirstOccurrences(p) + [t]
  {
    var q := p + [t];
    assert q[..|q| - 1] == p && q[|q| - 1] == t;
  }

  /** Fresh continues FirstOccurrences: after a prefix p, it keeps what p's hashes do not cover. */
  lemma {:induction false} FreshExtends(p: seq<Tile>, s: seq<Tile>)
    ensures FirstOccurrences(p + s) == FirstOccurrences(p) + Fresh(s, HashesOf(p))
    decreases |s|
  {
    if s == [] {
      assert p + s == p;
    } else {
      var t, q := s[0], p + [s[0]];
      assert p + s == q + s[1..];
      assert s == [t] + s[1..];
      FreshExtends(q, s[1..]);
      ExtendStep(p, t, s[1..]);
    }
  }

  /** Moving one tile from the walked part to the prefix keeps FirstOccurrences then Fresh the same. */
  lemma ExtendStep(p: seq<Tile>, t: Tile, rest: seq<Tile>)
    ensures FirstOccurrences(p + [t]) + Fresh(rest, HashesOf(p + [t])) ==
      FirstOccurrences(p) + Fresh([t] + rest, HashesOf(p))
  {
    HashesSnoc(p, t);
    FirstOccurrencesSnoc(p, t);
    FreshCons(t, rest, HashesOf(p));
    if Hash(t) in HashesOf(p) {
      ExtendSeen(p, t, rest);
    } else {
      var f := Fresh(rest, HashesOf(p) + {Hash(t)});
      MoveTile(FirstOccurrences(p), FirstOccurrences(p + [t]), t, f, Fresh([t] + rest, HashesOf(p)));
    }
  }

  lemma ExtendSeen(p: seq<Tile>, t: Tile, rest: seq<Tile>)
    requires Hash(t) in HashesOf(p)
    requires HashesOf(p + [t]) == HashesOf(p) + {Hash(t)}
    requires FirstOccurrences(p + [t]) == FirstOccurrences(p)
    requires Fresh([t] + rest, HashesOf(p)) == Fresh(rest, HashesOf(p))
    ensures FirstOccurrences(p + [t]) + Fresh(rest, HashesOf(p + [t])) ==
      FirstOccurrences(p) + Fresh([t] + rest, HashesOf(p))
  {
    assert HashesOf(p) + {Hash(t)} == HashesOf(p);
  }

  /** Regrouping one tile between a prefix and what follows it. */
  lemma MoveTile(a: seq<Tile>, b: seq<Tile>, t: Tile, f: seq<Tile>, g: seq<Tile>)
    requires b == a + [t] && g == [t] + f
    ensures b + f == a + g
  {
  }

  /** single's seen-set walk keeps exactly the first occurrence of every hash. */
  lemma FreshIsFirstOccurrences(s: seq<Tile>)
    ensures Fresh(s, {}) == FirstOccurrences(s)
  {
    FreshExtends([], s);
    assert [] + s == s;
    assert HashesOf([]) == {};
  }

  // ----- what single yields -----

  /** Every level's columns and rows lie inside the grid of its zoom. */
  predicate AllBounded(levels: seq<Level>) {
    forall k :: 0 <= k < |levels| ==> Bounded(levels[k])
  }

  lemma TileAtValid(levels: seq<Level>, k: int, r: int, c: int)
    requires AllBounded(levels) && At(levels, k, r, c)
    ensures ValidTile(TileAt(levels, k, r, c))
  {
    assert Bounded(levels[k]);
  }

  /** single never yields two tiles with the same hash. */
  lemma WalkUnique(levels: seq<Level>)
    ensures DistinctHashes(Walk(levels, true))
  {
    FreshDistinct(Candidates(levels), {});
  }

  /**
   * single yields exactly the tiles of the levels: every [column, row, zoom] of every
   * level, and nothing else.
   */
  lemma WalkMembers(levels: seq<Level>, t: Tile)
    requires AllBounded(levels)
    ensures t in Walk(levels, true) <==> exists k, r, c :: At(levels, k, r, c) && t == TileAt(levels, k, r, c)
  {
    var s := Candidates(levels);
    CandidatesMembers(levels, t);
    FreshMembers(s, {});
    if t in s {
      FreshCovers(s, {}, t);
      var u :| u in Fresh(s, {}) && Hash(u) == Hash(t);
      CandidatesMembers(levels, u);
      var k, r, c :| At(levels, k, r, c) && t == TileAt(levels, k, r, c);
      var k', r', c' :| At(levels, k', r', c') && u == TileAt(levels, k', r', c');
      TileAtValid(levels, k, r, c);
      TileAtValid(levels, k', r', c');
      HashInjective(u, t);
    }
  }

  /** single yields the first occurrence of every hash, in level, row, column order. */
  lemma WalkOrder(levels: seq<Level>)
    ensures Walk(levels, true) == FirstOccurrences(Candidates(levels))
  {
    FreshIsFirstOccurrences(Candidates(levels));
  }

  /** The exact count never exceeds the quick count. */
  lemma WalkAtMostArea(levels: seq<Level>)
    ensures |Walk(levels, true)| <= Area(levels, 0)
  {
    FreshShorter(Candidates(levels), {});
    RestArea(levels, 0);
  }

  /** When no two candidates share a hash, deduplication drops nothing. */
  lemma WalkDistinct(levels: seq<Level>)
    requires DistinctHashes(Candidates(levels))
    ensures Walk(levels, true) == Candidates(levels)
  {
    FreshKeepsAll(Candidates(levels), {});
  }

  /** Without deduplication (index.js) the walk is every candidate: as many as the quick count. */
  lemma WalkAll(levels: seq<Level>)
    ensures Walk(levels, false) == Candidates(levels)
    ensures |Walk(levels, false)| == Area(levels, 0)
  {
    RestArea(levels, 0);
  }

  // ----- the generator as an object -----

  /**
   * The generator paused at cursor (li, ri, ci) with this seen-set has yielded `yielded`,
   * and what it will still yield completes the whole walk `output`.
   */
  ghost predicate Cursor(levels: seq<Level>, unique: bool, li: nat, ri: nat, ci: nat, seen: set<int>,
                         yielded: seq<Tile>, output: seq<Tile>) {
    output == yielded + Emit(Rest(levels, li, ri, ci), seen, unique)
  }

  lemma CursorStart(levels: seq<Level>, unique: bool)
    ensures Cursor(levels, unique, 0, 0, 0, {}, [], Walk(levels, unique))
  {
  }

  /** Taking the tile under the cursor in index.js: every tile is yielded. */
  lemma CursorTakeAny(levels: seq<Level>, li: nat, ri: nat, ci: nat, seen: set<int>,
                      yielded: seq<Tile>, output: seq<Tile>)
    requires Cursor(levels, false, li, ri, ci, seen, yielded, output)
    requires li < |levels| && ri < |levels[li].rows| && ci < |levels[li].columns|
    ensures Cursor(levels, false, li, ri, ci + 1, seen, yielded + [TileAt(levels, li, ri, ci)], output)
  {
    var t, next := TileAt(levels, li, ri, ci), Rest(levels, li, ri, ci + 1);
    assert Rest(levels, li, ri, ci) == [t] + next;
    assert yielded + ([t] + next) == (yielded + [t]) + next;
  }

  /** Taking a tile whose hash is already in the seen-set: it is skipped. */
  lemma CursorSkip(levels: seq<Level>, li: nat, ri: nat, ci: nat, seen: set<int>,
                   yielded: seq<Tile>, output: seq<Tile>)
    requires Cursor(levels, true, li, ri, ci, seen, yielded, output)
    requires li < |levels| && ri < |levels[li].rows| && ci < |levels[li].columns|
    requires Hash(TileAt(levels, li, ri, ci)) in seen
    ensures Cursor(levels, true, li, ri, ci + 1, seen, yielded, output)
  {
    var t, next := TileAt(levels, li, ri, ci), Rest(levels, li, ri, ci + 1);
    assert Rest(levels, li, ri, ci) == [t] + next;
    FreshCons(t, next, seen);
  }

  /** Taking a tile whose hash is not yet seen: it is yielded and its hash remembered. */
  lemma CursorTakeFresh(levels: seq<Level>, li: nat, ri: nat, ci: nat, seen: set<int>,
                        yielded: seq<Tile>, output: seq<Tile>)
    requires Cursor(levels, true, li, ri, ci, seen, yielded, output)
    requires li < |levels| && ri < |levels[li].rows| && ci < |levels[li].columns|
    requires Hash(TileAt(levels, li, ri, ci)) !in seen
    ensures var t := TileAt(levels, li, ri, ci);
      Cursor(levels, true, li, ri, ci + 1, seen + {Hash(t)}, yielded + [t], output)
  {
    var t, next := TileAt(levels, li, ri, ci), Rest(levels, li, ri, ci + 1);
    assert Rest(levels, li, ri, ci) == [t] + next;
    FreshCons(t, next, seen);
    var f := Fresh(next, seen + {Hash(t)});
    assert yielded + ([t] + f) == (yielded + [t]) + f;
  }

  lemma FreshCons(t: Tile, s: seq<Tile>, seen: set<int>)
    ensures Fresh([t] + s, seen) == if Hash(t) in seen then Fresh(s, seen) else [t] + Fresh(s, seen + {Hash(t)})
  {
    assert ([t] + s)[0] == t && ([t] + s)[1..] == s;
  }

  /** Past the last column, the cursor moves to the first column of the next row. */
  lemma CursorNextRow(levels: seq<Level>, unique: bool, li: nat, ri: nat, ci: nat, seen: set<int>,
                      yielded: seq<Tile>, output: seq<Tile>)
    requires Cursor(levels, unique, li, ri, ci, seen, yielded, output)
    requires li < |levels| && ri < |levels[li].rows| && ci >= |levels[li].columns|
    ensures Cursor(levels, unique, li, ri + 1, 0, seen, yielded, output)
  {
  }

  /** Past the last row, the cursor moves to the next level. */
  lemma CursorNextLevel(levels: seq<Level>, unique: bool, li: nat, ri: nat, ci: nat, seen: set<int>,
                        yielded: seq<Tile>, output: seq<Tile>)
    requires Cursor(levels, unique, li, ri, ci, seen, yielded, output)
    requires li < |levels| && ri >= |levels[li].rows|
    ensures Cursor(levels, unique, li + 1, 0, 0, seen, yielded, output)
  {
  }

  /** What the generator has yielded is a prefix of the whole walk. */
  lemma CursorPrefix(levels: seq<Level>, unique: bool, li: nat, ri: nat, ci: nat, seen: set<int>,
                     yielded: seq<Tile>, output: seq<Tile>)
    requires Cursor(levels, unique, li, ri, ci, seen, yielded, output)
    ensures |yielded| <= |output| && output[..|yielded|] == yielded
  {
  }

  /** Past the last level nothing is left: everything of the walk has been yielded. */
  lemma CursorDone(levels: seq<Level>, unique: bool, li: nat, ri: nat, ci: nat, seen: set<int>,
                   yielded: seq<Tile>, output: seq<Tile>)
    requires Cursor(levels, unique, li, ri, ci, seen, yielded, output)
    requires li >= |levels|
    ensures yielded == output
  {
  }

  /**
   * One turn of the nested loops: take the tile under the cursor, returning it unless its
   * hash is already in the seen-set, or move on to the next row, or to the next level.
   */
  method Step(levels: seq<Level>, unique: bool, li: nat, ri: nat, ci: nat, seen: set<int>,
              ghost yielded: seq<Tile>, ghost output: seq<Tile>)
    returns (li': nat, ri': nat, ci': nat, seen': set<int>, r: Option<Tile>)
    requires li < |levels| && Cursor(levels, unique, li, ri, ci, seen, yielded, output)
    ensures r.Some? ==> Cursor(levels, unique, li', ri', ci', seen', yielded + [r.value], output)
    ensures r.None? ==> Cursor(levels, unique, li', ri', ci', seen', yielded, output)
    ensures (li' == li && ri' == ri && ri < |levels[li].rows| && ci < |levels[li].columns| && ci' == ci + 1) ||
            (li' == li && ri < |levels[li].rows| && ri' == ri + 1 && ci' == 0) ||
            (li' == li + 1 && ri' == 0 && ci' == 0)
  {
    var l := levels[li];
    li', ri', ci', seen', r := li, ri, ci, seen, None;
    if ri < |l.rows| && ci < |l.columns| {
      var t := Tile(l.columns[ci], l.rows[ri], l.zoom);
      ci' := ci + 1;
      if !unique {
        CursorTakeAny(levels, li, ri, ci, seen, yielded, output);
        r := Some(t);
      } else if Hash(t) !in seen {
        CursorTakeFresh(levels, li, ri, ci, seen, yielded, output);
        seen', r := seen + {Hash(t)}, Some(t);
      } else {
        CursorSkip(levels, li, ri, ci, seen, yielded, output);
      }
    } else if ri < |l.rows| {
      CursorNextRow(levels, unique, li, ri, ci, seen, yielded, output);
      ri', ci' := ri + 1, 0;
    } else {
      CursorNextLevel(levels, unique, li, ri, ci, seen, yielded, output);
      li', ri', ci' := li + 1, 0, 0;
    }
  }

  /**
   * The state of the single generator: the level, row and column it is at, and the
   * seen-set of hashes (the `unique` object).
   */
  class TileIterator {
    const levels: seq<Level>
    const unique: bool
    var level: nat
    var row: nat
    var column: nat
    var seen: set<int>
    /** The tiles returned so far, and the whole sequence the walk returns. */
    ghost var yielded: seq<Tile>
    ghost const output: seq<Tile>

    ghost predicate Valid()
      reads this
    {
      Cursor(levels, unique, level, row, column, seen, yielded, output)
    }

    constructor (levels: seq<Level>, unique: bool)
      ensures Valid()
      ensures this.levels == levels && this.unique == unique && yielded == []
      ensures output == Walk(levels, unique)
    {
      this.levels := levels;
      this.unique := unique;
      output := Walk(levels, unique);
      level, row, column := 0, 0, 0;
      seen := {};
      yielded := [];
      new;
      CursorStart(levels, unique);
    }

    /** next(): the next tile of the walk, or None once it is done. */
    method Next() returns (r: Option<Tile>)
      requires Valid()
      modifies this
      ensures Valid()
      ensures r.Some? ==> yielded == old(yielded) + [r.value]
      ensures r.None? ==> yielded == old(yielded) && yielded == output
      ensures |yielded| <= |output| && output[..|yielded|] == yielded
    {
      var li: nat, ri: nat, ci: nat, s := level, row, column, seen;
      r := None;
      while li < |levels|
        invariant Cursor(levels, unique, li, ri, ci, s, yielded, output) && yielded == old(yielded) && r.None?
        decreases |levels| - li,
          if li < |levels| then |levels[li].rows| - ri else 0,
          if li < |levels| then |levels[li].columns| - ci else 0
      {
        li, ri, ci, s, r := Step(levels, unique, li, ri, ci, s, yielded, output);
        if r.Some? {
          break;
        }
      }
      if r.None? {
        CursorDone(levels, unique, li, ri, ci, s, yielded, output);
      } else {
        yielded := yielded + [r.value];
      }
      CursorPrefix(levels, unique, li, ri, ci, s, yielded, output);
      level, row, column, seen := li, ri, ci, s;
    }
  }
}

/**
 * The consumers of single: all drains it into an array, count either sums the levels or
 * drains it while counting.
 */
module Drain {
  import opened Wrappers
  import opened Mercator
  import opened Levels
  import opened Grid

  /** The loop of all: push every value until done. */
  method Collect(it: TileIterator) returns (tiles: seq<Tile>)
    requires it.Valid() && it.yielded == []
    modifies it
    ensures tiles == it.output
  {
    tiles := [];
    while true
      invariant it.Valid() && tiles == it.yielded
      decreases |it.output| - |it.yielded|
    {
      var v := it.Next();
      if v.None? {
        return;
      }
      tiles := tiles + [v.value];
    }
  }

  /** The exact loop of count: count the values until done. */
  method Tally(it: TileIterator) returns (n: nat)
    requires it.Valid() && it.yielded == []
    modifies it
    ensures n == |it.output|
  {
    n := 0;
    while true
      invariant it.Valid() && n == |it.yielded|
      decreases |it.output| - |it.yielded|
    {
      var v := it.Next();
      if v.None? {
        return;
      }
      n := n + 1;
    }
  }

  /** The quick loop of count: `count += rows.length * columns.length` over the levels. */
  method QuickSum(levels: seq<Level>) returns (n: nat)
    ensures n == Area(levels, 0)
  {
    n := 0;
    var k := 0;
    while k < |levels|
      invariant 0 <= k <= |levels| && n + Area(levels, k) == Area(levels, 0)
    {
      n := n + |levels[k].rows| * |levels[k].columns|;
      k := k + 1;
    }
  }
}
