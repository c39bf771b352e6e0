/** The element diff of src/transform/diff.ts: Myers' shortest edit script
  * between the spanned elements `a` and the target elements `b`, where two
  * elements match when their types are equal. `shortestEdit` runs the
  * forward pass over the array `v` of furthest-reaching points and keeps a
  * snapshot of `v` per round; `diff` walks the snapshots back from
  * `(|a|, |b|)`.
  *
  * The proof follows the grid view of the algorithm: a point `(x, y)` has
  * consumed `a[..x]` and `b[..y]`; a right move deletes, a down move inserts,
  * a diagonal move pairs two elements of the same type. `Far(d, k)` is the
  * `x` that round `d` stores for diagonal `k = x - y`. */
module Diffs {
  import opened Wrappers
  import opened NodeTypes
  import opened Ir

  /** A diff entry (src/transform/diff.ts:3-19). */
  datatype Change = Insert(to: Bare) | Delete(from: IrNode) | Modify(from: IrNode, to: Bare)

  // ---------------------------------------------------------------------
  // Reading an edit script

  /** The `from` elements of the modify and delete entries, in order. */
  function Froms(s: seq<Change>): seq<IrNode>
  {
    if |s| == 0 then [] else Froms(s[..|s| - 1]) + From(s[|s| - 1])
  }

  function From(c: Change): seq<IrNode>
  {
    if c.Insert? then [] else [c.from]
  }

  /** The `to` elements of the modify and insert entries, in order. */
  function Tos(s: seq<Change>): seq<Bare>
  {
    if |s| == 0 then [] else Tos(s[..|s| - 1]) + To(s[|s| - 1])
  }

  function To(c: Change): seq<Bare>
  {
    if c.Delete? then [] else [c.to]
  }

  /** Every modify pairs two elements of the same type. */
  predicate TypedModifies(s: seq<Change>)
  {
    forall i :: 0 <= i < |s| && s[i].Modify? ==> s[i].from.tag == s[i].to.tag
  }

  /** An edit script turning `a` into `b`. */
  predicate Aligns(s: seq<Change>, a: seq<IrNode>, b: seq<Bare>)
  {
    Froms(s) == a && Tos(s) == b && TypedModifies(s)
  }

  /** The number of insert and delete entries. */
  function Edits(s: seq<Change>): nat
  {
    if |s| == 0 then 0 else Edits(s[..|s| - 1]) + (if s[|s| - 1].Modify? then 0 else 1)
  }

  // ---------------------------------------------------------------------
  // The grid

  /** Whether the cell `(x, y)` lets a diagonal move through. */
  predicate Eq(a: seq<IrNode>, b: seq<Bare>, x: int, y: int)
  {
    0 <= x < |a| && 0 <= y < |b| && a[x].tag == b[y].tag
  }

  /** The cell at `x` on diagonal `k`. */
  predicate Cell(a: seq<IrNode>, b: seq<Bare>, x: int, k: int)
  {
    Eq(a, b, x, x - k)
  }

  /** The end of the run of diagonal moves from `x` on diagonal `k` (the
    * `while` of src/transform/diff.ts:89-92). */
  function Snake(a: seq<IrNode>, b: seq<Bare>, x: int, k: int): (r: int)
    ensures r >= x
    ensures !Cell(a, b, r, k)
    ensures forall i :: x <= i < r ==> Cell(a, b, i, k)
    decreases |a| - x
  {
    if Cell(a, b, x, k) then Snake(a, b, x + 1, k) else x
  }

  /** The diagonals round `d` visits: `-d, -d + 2, …, d`. */
  predicate OnRound(d: int, k: int)
  {
    0 <= d && -d <= k <= d && (d - k) % 2 == 0
  }

  /** Whether round `d` reaches diagonal `k` from `k + 1` by a down move
    * (an insert) rather than from `k - 1` by a right move (a delete). */
  predicate GoesDown(a: seq<IrNode>, b: seq<Bare>, d: int, k: int)
    requires OnRound(d, k) && d >= 1
    decreases d, 0
  {
    k == -d || (k != d && Far(a, b, d - 1, k - 1) < Far(a, b, d - 1, k + 1))
  }

  /** Where round `d` starts on diagonal `k` (src/transform/diff.ts:82-86);
    * round 0 starts from the initial `v[1] = 0`. */
  function Start(a: seq<IrNode>, b: seq<Bare>, d: int, k: int): int
    requires OnRound(d, k)
    decreases d, 1
  {
    if d == 0 then 0
    else if GoesDown(a, b, d, k) then Far(a, b, d - 1, k + 1)
    else Far(a, b, d - 1, k - 1) + 1
  }

  /** The furthest `x` round `d` reaches on diagonal `k`. */
  function Far(a: seq<IrNode>, b: seq<Bare>, d: int, k: int): int
    requires OnRound(d, k)
    decreases d, 2
  {
    Snake(a, b, Start(a, b, d, k), k)
  }

  /** Whether the point of round `d` on diagonal `k` is past both ends, the
    * test that ends the forward pass (src/transform/diff.ts:95-97). */
  predicate Done(a: seq<IrNode>, b: seq<Bare>, d: int, k: int)
    requires OnRound(d, k)
  {
    Far(a, b, d, k) >= |a| && Far(a, b, d, k) - k >= |b|
  }

  /** The points of every round lie in the quadrant `x, y >= 0`. */
  lemma {:induction false} FarBounds(a: seq<IrNode>, b: seq<Bare>, d: int, k: int)
    requires OnRound(d, k)
    ensures 0 <= Start(a, b, d, k) <= Far(a, b, d, k)
    ensures 0 <= Start(a, b, d, k) - k
    decreases d
  {
    if d > 0 {
      if GoesDown(a, b, d, k) {
        FarBounds(a, b, d - 1, k + 1);
      } else {
        FarBounds(a, b, d - 1, k - 1);
      }
    }
  }

  // ---------------------------------------------------------------------
  // Paths through the grid

  datatype Move = Right | Down | Diagonal

  /** Where a path from `(0, 0)` ends, or `None` when it takes a diagonal
    * move through a cell whose elements differ. */
  function Walk(a: seq<IrNode>, b: seq<Bare>, ms: seq<Move>): Option<(int, int)>
  {
    if |ms| == 0 then Some((0, 0))
    else
      match Walk(a, b, ms[..|ms| - 1])
      case None => None
      case Some(p) =>
        match ms[|ms| - 1]
        case Right => Some((p.0 + 1, p.1))
        case Down => Some((p.0, p.1 + 1))
        case Diagonal => if Eq(a, b, p.0, p.1) then Some((p.0 + 1, p.1 + 1)) else None
  }

  /** The number of right and down moves. */
  function Cost(ms: seq<Move>): nat
  {
    if |ms| == 0 then 0 else Cost(ms[..|ms| - 1]) + (if ms[|ms| - 1] == Diagonal then 0 else 1)
  }

  /** The round before any edit starts at the origin. */
  lemma AtOrigin(a: seq<IrNode>, b: seq<Bare>, c: int, k: int)
    requires c == 0 && k == 0
    ensures OnRound(c, k) && Far(a, b, c, k) >= 0
  {
    FarBounds(a, b, c, k);
  }

  /** A diagonal move keeps the round and the diagonal: the round's snake
    * does not stop before a matching cell. */
  lemma AfterDiagonal(a: seq<IrNode>, b: seq<Bare>, c0: int, x0: int, k0: int, c: int, x: int, k: int)
    requires OnRound(c0, k0) && Far(a, b, c0, k0) >= x0 && Cell(a, b, x0, k0)
    requires c == c0 && k == k0 && x == x0 + 1
    ensures OnRound(c, k) && Far(a, b, c, k) >= x
  {
  }

  /** A down move leads to the next round, one diagonal down. */
  lemma AfterDown(a: seq<IrNode>, b: seq<Bare>, c0: int, x0: int, k0: int, c: int, x: int, k: int)
    requires OnRound(c0, k0) && Far(a, b, c0, k0) >= x0
    requires c == c0 + 1 && k == k0 - 1 && x == x0
    ensures OnRound(c, k) && Far(a, b, c, k) >= x
  {
    FarBounds(a, b, c, k);
  }

  /** A right move leads to the next round, one diagonal up. */
  lemma AfterRight(a: seq<IrNode>, b: seq<Bare>, c0: int, x0: int, k0: int, c: int, x: int, k: int)
    requires OnRound(c0, k0) && Far(a, b, c0, k0) >= x0
    requires c == c0 + 1 && k == k0 + 1 && x == x0 + 1
    ensures OnRound(c, k) && Far(a, b, c, k) >= x
  {
    FarBounds(a, b, c, k);
  }

  /** Round `c` reaches at least as far as any path of cost `c`: the
    * furthest-reaching property of the forward pass. */
  lemma {:induction false} FarReaches(a: seq<IrNode>, b: seq<Bare>, ms: seq<Move>, x: int, y: int, c: int)
    requires Walk(a, b, ms) == Some((x, y)) && Cost(ms) == c
    ensures OnRound(c, x - y) && Far(a, b, c, x - y) >= x
    decreases |ms|
  {
    if |ms| > 0 {
      var init := ms[..|ms| - 1];
      var mv := ms[|ms| - 1];
      assert ms == init + [mv];
      Prefix(a, b, init, mv);
      var q := Walk(a, b, init).value;
      var c0 := Cost(init);
      FarReaches(a, b, init, q.0, q.1, c0);
      ReachStep(a, b, init, mv, q.0, q.1, c0, x, y, c);
    } else {
      AtOrigin(a, b, c, x - y);
    }
  }

  /** One more move keeps a path within the reach of its round. */
  lemma ReachStep(a: seq<IrNode>, b: seq<Bare>, init: seq<Move>, mv: Move, qx: int, qy: int, c0: int, x: int, y: int, c: int)
    requires Walk(a, b, init) == Some((qx, qy)) && Cost(init) == c0
    requires OnRound(c0, qx - qy) && Far(a, b, c0, qx - qy) >= qx
    requires Walk(a, b, init + [mv]) == Some((x, y)) && Cost(init + [mv]) == c
    ensures OnRound(c, x - y) && Far(a, b, c, x - y) >= x
  {
    match mv
    case Diagonal =>
      StepDiagonalEq(a, b, init, qx, qy);
      StepDiagonal(a, b, init, qx, qy);
      AfterDiagonal(a, b, c0, qx, qx - qy, c, x, x - y);
    case Down =>
      StepDown(a, b, init, qx, qy);
      AfterDown(a, b, c0, qx, qx - qy, c, x, x - y);
    case Right =>
      StepRight(a, b, init, qx, qy);
      AfterRight(a, b, c0, qx, qx - qy, c, x, x - y);
  }

  /** A path that walks has a prefix that walks. */
  lemma Prefix(a: seq<IrNode>, b: seq<Bare>, ms: seq<Move>, mv: Move)
    requires Walk(a, b, ms + [mv]).Some?
    ensures Walk(a, b, ms).Some?
  {
    var full := ms + [mv];
    assert full[..|full| - 1] == ms;
  }

  lemma StepDown(a: seq<IrNode>, b: seq<Bare>, ms: seq<Move>, x: int, y: int)
    requires Walk(a, b, ms) == Some((x, y))
    ensures Walk(a, b, ms + [Down]) == Some((x, y + 1)) && Cost(ms + [Down]) == Cost(ms) + 1
  {
    var full := ms + [Down];
    assert full[..|full| - 1] == ms;
  }

  lemma StepRight(a: seq<IrNode>, b: seq<Bare>, ms: seq<Move>, x: int, y: int)
    requires Walk(a, b, ms) == Some((x, y))
    ensures Walk(a, b, ms + [Right]) == Some((x + 1, y)) && Cost(ms + [Right]) == Cost(ms) + 1
  {
    var full := ms + [Right];
    assert full[..|full| - 1] == ms;
  }

  lemma StepDiagonal(a: seq<IrNode>, b: seq<Bare>, ms: seq<Move>, x: int, y: int)
    requires Walk(a, b, ms) == Some((x, y)) && Eq(a, b, x, y)
    ensures Walk(a, b, ms + [Diagonal]) == Some((x + 1, y + 1)) && Cost(ms + [Diagonal]) == Cost(ms)
  {
    var full := ms + [Diagonal];
    assert full[..|full| - 1] == ms;
  }

  /** A diagonal move only passes a matching cell. */
  lemma StepDiagonalEq(a: seq<IrNode>, b: seq<Bare>, ms: seq<Move>, x: int, y: int)
    requires Walk(a, b, ms) == Some((x, y)) && Walk(a, b, ms + [Diagonal]).Some?
    ensures Eq(a, b, x, y)
  {
    var full := ms + [Diagonal];
    assert full[..|full| - 1] == ms;
  }

  /** `ms` followed by `t` right moves. */
  lemma {:induction false} Rights(a: seq<IrNode>, b: seq<Bare>, ms: seq<Move>, x: int, y: int, t: nat) returns (r: seq<Move>)
    requires Walk(a, b, ms) == Some((x, y))
    ensures Walk(a, b, r) == Some((x + t, y)) && Cost(r) == Cost(ms) + t
  {
    if t == 0 {
      r := ms;
    } else {
      var r0 := Rights(a, b, ms, x, y, t - 1);
      StepRight(a, b, r0, x + t - 1, y);
      r := r0 + [Right];
    }
  }

  /** `ms` followed by `t` down moves. */
  lemma {:induction false} Downs(a: seq<IrNode>, b: seq<Bare>, ms: seq<Move>, x: int, y: int, t: nat) returns (r: seq<Move>)
    requires Walk(a, b, ms) == Some((x, y))
    ensures Walk(a, b, r) == Some((x, y + t)) && Cost(r) == Cost(ms) + t
  {
    if t == 0 {
      r := ms;
    } else {
      var r0 := Downs(a, b, ms, x, y, t - 1);
      StepDown(a, b, r0, x, y + t - 1);
      r := r0 + [Down];
    }
  }

  /** `ms` followed by `t` diagonal moves through matching cells. */
  lemma {:induction false} Diagonals(a: seq<IrNode>, b: seq<Bare>, ms: seq<Move>, x: int, k: int, t: nat) returns (r: seq<Move>)
    requires Walk(a, b, ms) == Some((x, x - k))
    requires forall i :: x <= i < x + t ==> Cell(a, b, i, k)
    ensures Walk(a, b, r) == Some((x + t, x - k + t)) && Cost(r) == Cost(ms)
  {
    if t == 0 {
      r := ms;
    } else {
      var r0 := Diagonals(a, b, ms, x, k, t - 1);
      assert Cell(a, b, x + t - 1, k);
      StepDiagonal(a, b, r0, x + t - 1, x - k + t - 1);
      r := r0 + [Diagonal];
    }
  }

  /** A path of cost `d` to where round `d` starts on diagonal `k`. */
  lemma {:induction false} PathToStart(a: seq<IrNode>, b: seq<Bare>, d: int, k: int) returns (ms: seq<Move>)
    requires OnRound(d, k)
    ensures Walk(a, b, ms) == Some((Start(a, b, d, k), Start(a, b, d, k) - k)) && Cost(ms) == d
    decreases d, 0
  {
    if d == 0 {
      ms := [];
    } else if GoesDown(a, b, d, k) {
      assert Start(a, b, d, k) == Far(a, b, d - 1, k + 1);
      var pre := PathToFar(a, b, d - 1, k + 1);
      ms := Extend(a, b, pre, Down, Far(a, b, d - 1, k + 1), k + 1);
    } else {
      assert Start(a, b, d, k) == Far(a, b, d - 1, k - 1) + 1;
      var pre := PathToFar(a, b, d - 1, k - 1);
      ms := Extend(a, b, pre, Right, Far(a, b, d - 1, k - 1), k - 1);
    }
  }

  /** A down or right move from the point `x` on diagonal `k`. */
  lemma Extend(a: seq<IrNode>, b: seq<Bare>, pre: seq<Move>, mv: Move, x: int, k: int) returns (ms: seq<Move>)
    requires mv != Diagonal && Walk(a, b, pre) == Some((x, x - k))
    ensures mv == Down ==> Walk(a, b, ms) == Some((x, x - k + 1))
    ensures mv == Right ==> Walk(a, b, ms) == Some((x + 1, x - k))
    ensures Cost(ms) == Cost(pre) + 1
  {
    if mv == Down {
      StepDown(a, b, pre, x, x - k);
    } else {
      StepRight(a, b, pre, x, x - k);
    }
    ms := pre + [mv];
  }

  /** Every point of the forward pass is reached by a path of its round's
    * cost. */
  lemma {:induction false} PathToFar(a: seq<IrNode>, b: seq<Bare>, d: int, k: int) returns (ms: seq<Move>)
    requires OnRound(d, k)
    ensures Walk(a, b, ms) == Some((Far(a, b, d, k), Far(a, b, d, k) - k)) && Cost(ms) == d
    decreases d, 1
  {
    FarBounds(a, b, d, k);
    var head := PathToStart(a, b, d, k);
    var t := Far(a, b, d, k) - Start(a, b, d, k);
    ms := Diagonals(a, b, head, Start(a, b, d, k), k, t);
  }

  // ---------------------------------------------------------------------
  // Clamping a path to the grid

  function Min(x: int, y: int): int
  {
    if x <= y then x else y
  }

  /** How far a point lies past the ends of `a` and `b`. */
  function Excess(a: seq<IrNode>, b: seq<Bare>, x: int, y: int): int
  {
    (x - Min(x, |a|)) + (y - Min(y, |b|))
  }

  /** The path with the moves past the ends dropped: it ends at the nearest
    * point of the grid and saves one edit per dropped move. */
  lemma {:induction false} Clamp(a: seq<IrNode>, b: seq<Bare>, ms: seq<Move>, x: int, y: int) returns (c: seq<Move>)
    requires Walk(a, b, ms) == Some((x, y))
    ensures x >= 0 && y >= 0
    ensures Walk(a, b, c) == Some((Min(x, |a|), Min(y, |b|)))
    ensures Cost(c) + Excess(a, b, x, y) == Cost(ms)
    decreases |ms|
  {
    if |ms| == 0 {
      c := [];
    } else {
      var init := ms[..|ms| - 1];
      var mv := ms[|ms| - 1];
      assert ms == init + [mv];
      Prefix(a, b, init, mv);
      var q := Walk(a, b, init).value;
      var c0 := Clamp(a, b, init, q.0, q.1);
      match mv
      case Down =>
        StepDown(a, b, init, q.0, q.1);
        c := ClampDown(a, b, c0, q.0, q.1);
      case Right =>
        StepRight(a, b, init, q.0, q.1);
        c := ClampRight(a, b, c0, q.0, q.1);
      case Diagonal =>
        StepDiagonalEq(a, b, init, q.0, q.1);
        StepDiagonal(a, b, init, q.0, q.1);
        StepDiagonal(a, b, c0, q.0, q.1);
        c := c0 + [Diagonal];
    }
  }

  lemma ClampDown(a: seq<IrNode>, b: seq<Bare>, c0: seq<Move>, x: int, y: int) returns (c: seq<Move>)
    requires Walk(a, b, c0) == Some((Min(x, |a|), Min(y, |b|)))
    ensures Walk(a, b, c) == Some((Min(x, |a|), Min(y + 1, |b|)))
    ensures Cost(c) + Excess(a, b, x, y + 1) == Cost(c0) + Excess(a, b, x, y) + 1
  {
    if y >= |b| {
      c := c0;
    } else {
      StepDown(a, b, c0, Min(x, |a|), y);
      c := c0 + [Down];
    }
  }

  lemma ClampRight(a: seq<IrNode>, b: seq<Bare>, c0: seq<Move>, x: int, y: int) returns (c: seq<Move>)
    requires Walk(a, b, c0) == Some((Min(x, |a|), Min(y, |b|)))
    ensures Walk(a, b, c) == Some((Min(x + 1, |a|), Min(y, |b|)))
    ensures Cost(c) + Excess(a, b, x + 1, y) == Cost(c0) + Excess(a, b, x, y) + 1
  {
    if x >= |a| {
      c := c0;
    } else {
      StepRight(a, b, c0, x, Min(y, |b|));
      c := c0 + [Right];
    }
  }

  /** Clamping the point of round `d` on diagonal `k` to the grid gives the
    * point `(cx, cy)`, which round `j`, cheaper by the clamped distance,
    * reaches. */
  lemma ClampedReach(a: seq<IrNode>, b: seq<Bare>, d: int, k: int, cx: int, cy: int, j: int)
    requires OnRound(d, k)
    requires cx == Min(Far(a, b, d, k), |a|) && cy == Min(Far(a, b, d, k) - k, |b|)
    requires j == d - Excess(a, b, Far(a, b, d, k), Far(a, b, d, k) - k)
    ensures OnRound(j, cx - cy) && Far(a, b, j, cx - cy) >= cx
  {
    var x := Far(a, b, d, k);
    var ms := PathToFar(a, b, d, k);
    var c := Clamp(a, b, ms, x, x - k);
    FarReaches(a, b, c, cx, cy, j);
  }

  /** The pass stops on the first round that reaches `(|a|, |b|)`, and the
    * point it stops at is exactly that one. */
  lemma ExactEnd(a: seq<IrNode>, b: seq<Bare>, d: int, k: int)
    requires OnRound(d, k) && Done(a, b, d, k)
    requires NoneDone(a, b, d)
    ensures Far(a, b, d, k) == |a| && k == |a| - |b|
  {
    var x := Far(a, b, d, k);
    var j := d - Excess(a, b, x, x - k);
    ClampedReach(a, b, d, k, |a|, |b|, j);
    DoneAt(a, b, j, |a|, |b|);
  }

  /** By round `|a| + |b|` the pass has stopped: deleting everything and
    * inserting everything is a path of that cost. */
  lemma Terminates(a: seq<IrNode>, b: seq<Bare>)
    ensures OnRound(|a| + |b|, |a| - |b|) && Done(a, b, |a| + |b|, |a| - |b|)
  {
    var deletes := Rights(a, b, [], 0, 0, |a|);
    var path := Downs(a, b, deletes, |a|, 0, |b|);
    FarReaches(a, b, path, |a|, |b|, Cost(path));
  }

  // ---------------------------------------------------------------------
  // Edit scripts as paths

  function MoveOf(c: Change): Move
  {
    match c
    case Insert(_) => Down
    case Delete(_) => Right
    case Modify(_, _) => Diagonal
  }

  /** The path an edit script takes: one move per entry. */
  function Moves(s: seq<Change>): (ms: seq<Move>)
    ensures |ms| == |s|
  {
    if |s| == 0 then [] else Moves(s[..|s| - 1]) + [MoveOf(s[|s| - 1])]
  }

  /** Prepending an entry adds its `from` element in front. */
  lemma {:induction false} ConsFroms(c: Change, s: seq<Change>)
    ensures Froms([c] + s) == From(c) + Froms(s)
  {
    if |s| > 0 {
      var init := s[..|s| - 1];
      ConsFroms(c, init);
      assert ([c] + s)[..|s|] == [c] + init;
      AppendAssoc(From(c), Froms(init), From(s[|s| - 1]));
    } else {
      assert [c][..0] == [];
    }
  }

  /** Prepending an entry adds its `to` element in front. */
  lemma {:induction false} ConsTos(c: Change, s: seq<Change>)
    ensures Tos([c] + s) == To(c) + Tos(s)
  {
    if |s| > 0 {
      var init := s[..|s| - 1];
      ConsTos(c, init);
      assert ([c] + s)[..|s|] == [c] + init;
      AppendAssoc(To(c), Tos(init), To(s[|s| - 1]));
    } else {
      assert [c][..0] == [];
    }
  }

  /** Prepending an insert or a delete adds one edit. */
  lemma {:induction false} ConsEdits(c: Change, s: seq<Change>)
    ensures Edits([c] + s) == Edits(s) + (if c.Modify? then 0 else 1)
  {
    if |s| > 0 {
      var init := s[..|s| - 1];
      ConsEdits(c, init);
      assert ([c] + s)[..|s|] == [c] + init;
    } else {
      assert [c][..0] == [];
    }
  }

  /** A script that turns the tails `a[x..]` into `b[y..]`, with the count
    * of its edits. */
  predicate Tail(a: seq<IrNode>, b: seq<Bare>, s: seq<Change>, x: int, y: int, e: int)
  {
    0 <= x <= |a| && 0 <= y <= |b| && Froms(s) == a[x..] && Tos(s) == b[y..] && TypedModifies(s) && Edits(s) == e
  }

  /** Prepending keeps modifies typed. */
  lemma ConsTyped(c: Change, s: seq<Change>)
    requires TypedModifies(s) && (c.Modify? ==> c.from.tag == c.to.tag)
    ensures TypedModifies([c] + s)
  {
    var t := [c] + s;
    forall i | 0 <= i < |t| && t[i].Modify?
      ensures t[i].from.tag == t[i].to.tag
    {
      if i > 0 {
        assert t[i] == s[i - 1];
      }
    }
  }

  /** Prepending an entry whose elements sit just before the tails. */
  lemma ConsTail(a: seq<IrNode>, b: seq<Bare>, c: Change, s: seq<Change>, x: int, y: int, e: int, x': int, y': int, e': int)
    requires Tail(a, b, s, x, y, e)
    requires 0 <= x' <= |a| && 0 <= y' <= |b|
    requires From(c) + a[x..] == a[x'..] && To(c) + b[y..] == b[y'..]
    requires c.Modify? ==> c.from.tag == c.to.tag
    requires e' == e + (if c.Modify? then 0 else 1)
    ensures Tail(a, b, [c] + s, x', y', e')
  {
    ConsFroms(c, s);
    ConsTos(c, s);
    ConsEdits(c, s);
    ConsTyped(c, s);
  }

  /** The backtrack's `modify` entry pairs `a[x - 1]` with `b[y - 1]`. */
  lemma PrependModify(a: seq<IrNode>, b: seq<Bare>, s: seq<Change>, x: int, y: int, e: int)
    requires Tail(a, b, s, x, y, e) && x > 0 && y > 0 && a[x - 1].tag == b[y - 1].tag
    ensures Tail(a, b, [Modify(a[x - 1], b[y - 1])] + s, x - 1, y - 1, e)
  {
    assert a[x - 1..] == [a[x - 1]] + a[x..];
    assert b[y - 1..] == [b[y - 1]] + b[y..];
    ConsTail(a, b, Modify(a[x - 1], b[y - 1]), s, x, y, e, x - 1, y - 1, e);
  }

  /** The backtrack's `insert` entry adds `b[y - 1]`. */
  lemma PrependInsert(a: seq<IrNode>, b: seq<Bare>, s: seq<Change>, x: int, y: int, e: int, y': int)
    requires Tail(a, b, s, x, y, e) && y > 0 && y' == y - 1
    ensures Tail(a, b, [Insert(b[y'])] + s, x, y', e + 1)
  {
    assert b[y'..] == [b[y']] + b[y..];
    assert [] + a[x..] == a[x..];
    ConsTail(a, b, Insert(b[y']), s, x, y, e, x, y', e + 1);
  }

  /** The backtrack's `delete` entry removes `a[x - 1]`. */
  lemma PrependDelete(a: seq<IrNode>, b: seq<Bare>, s: seq<Change>, x: int, y: int, e: int, x': int, y': int)
    requires Tail(a, b, s, x, y, e) && x > 0 && x' == x - 1 && y' == y
    ensures Tail(a, b, [Delete(a[x'])] + s, x', y', e + 1)
  {
    assert a[x'..] == [a[x']] + a[x..];
    assert [] + b[y..] == b[y..];
    ConsTail(a, b, Delete(a[x']), s, x, y, e, x', y', e + 1);
  }

  /** A prefix of a prefix of `a` is a prefix of `a`, and the element after
    * it is the next one of `a`. */
  lemma PrefixParts<T>(p: seq<T>, q: seq<T>, a: seq<T>)
    requires |p + q| <= |a| && p + q == a[..|p + q|]
    ensures |p| <= |a| && p == a[..|p|]
    ensures |q| == 1 ==> q[0] == a[|p|]
  {
    assert (p + q)[..|p|] == p;
    if |q| == 1 {
      assert (p + q)[|p|] == q[0];
    }
  }

  /** One entry taken from the fronts of `a[x..]` and `b[y..]` is one move. */
  lemma ScriptStep(a: seq<IrNode>, b: seq<Bare>, ms: seq<Move>, c: Change, x: int, y: int)
    requires Walk(a, b, ms) == Some((x, y)) && x >= 0
    requires c.Modify? ==> c.from.tag == c.to.tag
    requires !c.Insert? ==> x < |a| && c.from == a[x]
    requires !c.Delete? ==> 0 <= y < |b| && c.to == b[y]
    ensures Walk(a, b, ms + [MoveOf(c)]) == Some((x + |From(c)|, y + |To(c)|))
  {
    match c
    case Insert(_) => StepDown(a, b, ms, x, y);
    case Delete(_) => StepRight(a, b, ms, x, y);
    case Modify(_, _) => StepDiagonal(a, b, ms, x, y);
  }

  /** The part of a script that turns prefixes of `a` and `b` into each
    * other, all but its last entry does too. */
  predicate Consumes(a: seq<IrNode>, b: seq<Bare>, s: seq<Change>, x: int, y: int)
  {
    TypedModifies(s) && x == |Froms(s)| && y == |Tos(s)| && x <= |a| && y <= |b| && Froms(s) == a[..x] && Tos(s) == b[..y]
  }

  lemma ConsumesInit(a: seq<IrNode>, b: seq<Bare>, s: seq<Change>, x: int, y: int)
    requires |s| > 0 && Consumes(a, b, s, x, y)
    ensures var init, c := s[..|s| - 1], s[|s| - 1];
      Consumes(a, b, init, |Froms(init)|, |Tos(init)|) &&
      (c.Modify? ==> c.from.tag == c.to.tag) &&
      (!c.Insert? ==> |Froms(init)| < |a| && c.from == a[|Froms(init)|]) &&
      (!c.Delete? ==> |Tos(init)| < |b| && c.to == b[|Tos(init)|]) &&
      x == |Froms(init)| + |From(c)| && y == |Tos(init)| + |To(c)|
  {
    var init := s[..|s| - 1];
    var c := s[|s| - 1];
    PrefixParts(Froms(init), From(c), a);
    PrefixParts(Tos(init), To(c), b);
    TypedInit(s);
  }

  /** A script whose elements come from the fronts of `a` and `b` in order
    * walks to the lengths it consumed. */
  lemma {:induction false} ScriptWalks(a: seq<IrNode>, b: seq<Bare>, s: seq<Change>, x: int, y: int)
    requires Consumes(a, b, s, x, y)
    ensures Walk(a, b, Moves(s)) == Some((x, y))
  {
    if |s| > 0 {
      var init := s[..|s| - 1];
      var c := s[|s| - 1];
      ConsumesInit(a, b, s, x, y);
      var xi, yi := |Froms(init)|, |Tos(init)|;
      ScriptWalks(a, b, init, xi, yi);
      WalkLast(a, b, s, xi, yi, x, y);
    }
  }

  /** The path of a script is its prefix's path and one more move. */
  lemma WalkLast(a: seq<IrNode>, b: seq<Bare>, s: seq<Change>, xi: int, yi: int, x: int, y: int)
    requires |s| > 0 && Walk(a, b, Moves(s[..|s| - 1])) == Some((xi, yi)) && xi >= 0
    requires var c := s[|s| - 1];
      (c.Modify? ==> c.from.tag == c.to.tag)
      && (!c.Insert? ==> xi < |a| && c.from == a[xi])
      && (!c.Delete? ==> 0 <= yi < |b| && c.to == b[yi])
      && x == xi + |From(c)| && y == yi + |To(c)|
    ensures Walk(a, b, Moves(s)) == Some((x, y))
  {
    ScriptStep(a, b, Moves(s[..|s| - 1]), s[|s| - 1], xi, yi);
  }

  lemma TypedInit(s: seq<Change>)
    requires |s| > 0 && TypedModifies(s)
    ensures TypedModifies(s[..|s| - 1]) && (s[|s| - 1].Modify? ==> s[|s| - 1].from.tag == s[|s| - 1].to.tag)
  {
    var init := s[..|s| - 1];
    assert forall i :: 0 <= i < |init| ==> init[i] == s[i];
  }

  /** A script's path costs its edits. */
  lemma {:induction false} ScriptCost(s: seq<Change>)
    ensures Cost(Moves(s)) == Edits(s)
  {
    if |s| > 0 {
      var init := s[..|s| - 1];
      var ms := Moves(init) + [MoveOf(s[|s| - 1])];
      ScriptCost(init);
      assert ms[..|ms| - 1] == Moves(init);
    }
  }

  lemma AlignedConsumes(a: seq<IrNode>, b: seq<Bare>, t: seq<Change>)
    requires Aligns(t, a, b)
    ensures Consumes(a, b, t, |a|, |b|)
  {
    assert a[..|a|] == a && b[..|b|] == b;
  }

  /** The path of a script from `a` to `b` ends at `(|a|, |b|)` and costs
    * its edits. */
  lemma ScriptPath(a: seq<IrNode>, b: seq<Bare>, t: seq<Change>) returns (ms: seq<Move>)
    requires Aligns(t, a, b)
    ensures Walk(a, b, ms) == Some((|a|, |b|)) && Cost(ms) == Edits(t)
  {
    AlignedConsumes(a, b, t);
    ScriptWalks(a, b, t, |a|, |b|);
    ScriptCost(t);
    ms := Moves(t);
  }

  lemma DoneAt(a: seq<IrNode>, b: seq<Bare>, c: int, x: int, y: int)
    requires x == |a| && y == |b| && OnRound(c, x - y) && Far(a, b, c, x - y) >= x
    ensures Done(a, b, c, x - y)
  {
  }

  /** The round numbered by the cost of a path to `(|a|, |b|)` reaches past
    * both ends. */
  lemma ReachesEnd(a: seq<IrNode>, b: seq<Bare>, ms: seq<Move>, c: int)
    requires Walk(a, b, ms) == Some((|a|, |b|)) && Cost(ms) == c
    ensures OnRound(c, |a| - |b|) && Done(a, b, c, |a| - |b|)
  {
    FarReaches(a, b, ms, |a|, |b|, c);
    DoneAt(a, b, c, |a|, |b|);
  }

  /** No edit script has fewer edits than the round the pass stops at. */
  lemma StopRoundIsMinimal(a: seq<IrNode>, b: seq<Bare>, d: int, t: seq<Change>)
    requires NoneDone(a, b, d)
    requires Aligns(t, a, b)
    ensures d <= Edits(t)
  {
    var ms := ScriptPath(a, b, t);
    ReachesEnd(a, b, ms, Edits(t));
  }

  /** A script without `from` elements only inserts, one without `to`
    * elements only deletes. */
  lemma {:induction false} EmptySides(s: seq<Change>)
    ensures Froms(s) == [] ==> forall i :: 0 <= i < |s| ==> s[i].Insert?
    ensures Tos(s) == [] ==> forall i :: 0 <= i < |s| ==> s[i].Delete?
  {
    if |s| > 0 {
      EmptySides(s[..|s| - 1]);
    }
  }

  // ---------------------------------------------------------------------
  // The algorithm

  /** No round before `d` reaches past both ends. */
  ghost predicate NoneDone(a: seq<IrNode>, b: seq<Bare>, d: int)
  {
    forall j, k :: OnRound(j, k) && j < d ==> !Done(a, b, j, k)
  }

  /** No diagonal of round `d` below `lim` reaches past both ends. */
  ghost predicate RoundNotDone(a: seq<IrNode>, b: seq<Bare>, d: int, lim: int)
  {
    forall k :: OnRound(d, k) && k < lim ==> !Done(a, b, d, k)
  }

  lemma NotDoneStep(a: seq<IrNode>, b: seq<Bare>, d: int, k: int)
    requires RoundNotDone(a, b, d, k) && OnRound(d, k) && !Done(a, b, d, k)
    ensures RoundNotDone(a, b, d, k + 2)
  {
  }

  lemma NoneDoneNext(a: seq<IrNode>, b: seq<Bare>, d: int)
    requires NoneDone(a, b, d) && RoundNotDone(a, b, d, d + 2)
    ensures NoneDone(a, b, d + 1)
  {
  }

  /** The cells of `row` for the diagonals of round `r` below `lim` hold the
    * round's furthest points. */
  predicate Filled(a: seq<IrNode>, b: seq<Bare>, row: seq<int>, r: int, lim: int, offset: int)
  {
    forall k :: OnRound(r, k) && k < lim && 0 <= k + offset < |row| ==> row[k + offset] == Far(a, b, r, k)
  }

  /** A copy of `v` after round `r`. */
  predicate Snapshot(a: seq<IrNode>, b: seq<Bare>, row: seq<int>, r: int, offset: int)
  {
    |row| == 2 * offset + 2 && Filled(a, b, row, r, r + 2, offset)
  }

  /** `trace[d]` is the copy of `v` taken before round `d`. */
  predicate Snapshots(a: seq<IrNode>, b: seq<Bare>, trace: seq<seq<int>>, offset: int)
  {
    offset >= 0 && |trace| >= 1 && |trace[0]| == 2 * offset + 2 && trace[0][1 + offset] == 0 &&
    forall j :: 1 <= j < |trace| ==> Snapshot(a, b, trace[j], j - 1, offset)
  }

  /** Reading the cell of diagonal `k` of a filled row. */
  lemma Read(a: seq<IrNode>, b: seq<Bare>, row: seq<int>, r: int, lim: int, offset: int, k: int, i: int)
    requires Filled(a, b, row, r, lim, offset) && i == k + offset && 0 <= i < |row| && OnRound(r, k) && k < lim
    ensures row[i] == Far(a, b, r, k)
  {
  }

  /** Storing round `d`'s point for diagonal `k` fills one more diagonal and
    * leaves the previous round's cells, of the other parity, alone. */
  lemma Store(a: seq<IrNode>, b: seq<Bare>, row: seq<int>, d: int, k: int, offset: int, x: int)
    requires OnRound(d, k) && 0 <= k + offset < |row| && x == Far(a, b, d, k)
    requires Filled(a, b, row, d, k, offset)
    requires d > 0 ==> Filled(a, b, row, d - 1, d + 1, offset)
    ensures Filled(a, b, row[k + offset := x], d, k + 2, offset)
    ensures d > 0 ==> Filled(a, b, row[k + offset := x], d - 1, d + 1, offset)
  {
    var row' := row[k + offset := x];
    forall j | OnRound(d, j) && j < k + 2 && 0 <= j + offset < |row'|
      ensures row'[j + offset] == Far(a, b, d, j)
    {
      if j != k {
        assert j < k;
      }
    }
    if d > 0 {
      var p := d - 1;
      forall j | OnRound(p, j) && j < d + 1 && 0 <= j + offset < |row'|
        ensures row'[j + offset] == Far(a, b, p, j)
      {
        assert j != k;
      }
    }
  }

  /** The neighbours of a diagonal of round `d` that round `d - 1` visits. */
  lemma Neighbours(d: int, k: int)
    requires OnRound(d, k) && d >= 1
    ensures k != d ==> OnRound(d - 1, k + 1) && k <= d - 2
    ensures k != -d ==> OnRound(d - 1, k - 1) && k >= 2 - d
  {
  }

  /** The choice of src/transform/diff.ts:82-86 (and 32-36): with `lo` and
    * `hi` the previous round's points on diagonals `k - 1` and `k + 1`, the
    * start of round `d` on `k`. */
  lemma StartIs(a: seq<IrNode>, b: seq<Bare>, d: int, k: int, down: bool, lo: int, hi: int, x: int)
    requires OnRound(d, k) && d >= 1
    requires k != d ==> OnRound(d - 1, k + 1) && hi == Far(a, b, d - 1, k + 1)
    requires k != -d ==> OnRound(d - 1, k - 1) && lo == Far(a, b, d - 1, k - 1)
    requires down == (k == -d || (k != d && lo < hi))
    requires x == if down then hi else lo + 1
    ensures down == GoesDown(a, b, d, k) && x == Start(a, b, d, k)
  {
  }

  /** The start of round `d` on diagonal `k`, read from `v` as
    * src/transform/diff.ts:82-86 does. */
  lemma StartFromRow(a: seq<IrNode>, b: seq<Bare>, row: seq<int>, d: int, k: int, offset: int, x: int)
    requires OnRound(d, k) && d <= offset && |row| == 2 * offset + 2
    requires d == 0 ==> row[1 + offset] == 0
    requires d > 0 ==> Filled(a, b, row, d - 1, d + 1, offset)
    requires x == if k == -d || (k != d && row[k + offset - 1] < row[k + offset + 1]) then row[k + offset + 1] else row[k + offset - 1] + 1
    ensures x == Start(a, b, d, k)
  {
    if d == 0 {
    } else if k == -d {
      StartLowest(a, b, row, d, k, offset, x);
    } else if k == d {
      StartHighest(a, b, row, d, k, offset, x);
    } else {
      StartBetween(a, b, row, d, k, offset, x);
    }
  }

  /** The lowest diagonal can only be reached by a down move. */
  lemma StartLowest(a: seq<IrNode>, b: seq<Bare>, row: seq<int>, d: int, k: int, offset: int, x: int)
    requires OnRound(d, k) && 0 < d <= offset && |row| == 2 * offset + 2 && k == -d
    requires Filled(a, b, row, d - 1, d + 1, offset)
    requires x == row[k + offset + 1]
    ensures x == Start(a, b, d, k)
  {
    Neighbours(d, k);
    Read(a, b, row, d - 1, d + 1, offset, k + 1, k + offset + 1);
  }

  /** The highest diagonal can only be reached by a right move. */
  lemma StartHighest(a: seq<IrNode>, b: seq<Bare>, row: seq<int>, d: int, k: int, offset: int, x: int)
    requires OnRound(d, k) && 0 < d <= offset && |row| == 2 * offset + 2 && k == d
    requires Filled(a, b, row, d - 1, d + 1, offset)
    requires x == row[k + offset - 1] + 1
    ensures x == Start(a, b, d, k)
  {
    Neighbours(d, k);
    Read(a, b, row, d - 1, d + 1, offset, k - 1, k + offset - 1);
  }

  /** Between them, the move comes from the neighbour that reached further. */
  lemma StartBetween(a: seq<IrNode>, b: seq<Bare>, row: seq<int>, d: int, k: int, offset: int, x: int)
    requires OnRound(d, k) && 0 < d <= offset && |row| == 2 * offset + 2 && -d < k < d
    requires Filled(a, b, row, d - 1, d + 1, offset)
    requires x == if row[k + offset - 1] < row[k + offset + 1] then row[k + offset + 1] else row[k + offset - 1] + 1
    ensures x == Start(a, b, d, k)
  {
    Neighbours(d, k);
    var lo, hi := row[k + offset - 1], row[k + offset + 1];
    Read(a, b, row, d - 1, d + 1, offset, k + 1, k + offset + 1);
    Read(a, b, row, d - 1, d + 1, offset, k - 1, k + offset - 1);
    StartIs(a, b, d, k, lo < hi, lo, hi, x);
  }

  /** The snake of src/transform/diff.ts:89-92: follow diagonal `k` from
    * `x` while the elements match. */
  method Slide(a: seq<IrNode>, b: seq<Bare>, x0: int, k: int) returns (x: int)
    requires 0 <= x0 && 0 <= x0 - k
    ensures x == Snake(a, b, x0, k)
  {
    x := x0;
    var y := x - k;
    while x < |a| && y < |b| && a[x].tag == b[y].tag
      invariant y == x - k && x0 <= x
      invariant Snake(a, b, x, k) == Snake(a, b, x0, k)
      decreases |a| - x
    {
      x := x + 1;
      y := y + 1;
    }
  }

  /** One diagonal of a round (src/transform/diff.ts:80-93): the start read
    * from the previous round's cells, the snake, and the store. */
  method Visit(a: seq<IrNode>, b: seq<Bare>, v: array<int>, d: int, k: int, offset: int) returns (x: int)
    requires OnRound(d, k) && d <= offset && v.Length == 2 * offset + 2
    requires d == 0 ==> v[1 + offset] == 0
    requires d > 0 ==> Filled(a, b, v[..], d - 1, d + 1, offset)
    requires Filled(a, b, v[..], d, k, offset)
    modifies v
    ensures x == Far(a, b, d, k) && v[..] == old(v[..])[k + offset := x]
    ensures d == 0 ==> v[1 + offset] == 0
    ensures d > 0 ==> Filled(a, b, v[..], d - 1, d + 1, offset)
    ensures Filled(a, b, v[..], d, k + 2, offset)
  {
    var kOffset := k + offset;
    if k == -d || (k != d && v[kOffset - 1] < v[kOffset + 1]) {
      x := v[kOffset + 1];
    } else {
      x := v[kOffset - 1] + 1;
    }
    StartFromRow(a, b, v[..], d, k, offset, x);
    FarBounds(a, b, d, k);
    x := Slide(a, b, x, k);
    ghost var before := v[..];
    v[kOffset] := x;
    assert v[..] == before[kOffset := x];
    Store(a, b, before, d, k, offset, x);
  }

  /** One round of the forward pass (src/transform/diff.ts:79-98): the
    * diagonals `-d, -d + 2, …, d` in turn; `done` when one reaches past both
    * ends, which is then the end point on diagonal `|a| - |b|`. */
  method Round(a: seq<IrNode>, b: seq<Bare>, v: array<int>, d: int, offset: int) returns (done: bool)
    requires 0 <= d <= offset && offset == |a| + |b| && v.Length == 2 * offset + 2
    requires d == 0 ==> v[1 + offset] == 0
    requires d > 0 ==> Filled(a, b, v[..], d - 1, d + 1, offset)
    requires NoneDone(a, b, d)
    modifies v
    ensures done ==> OnRound(d, |a| - |b|) && Far(a, b, d, |a| - |b|) == |a|
    ensures !done ==> Filled(a, b, v[..], d, d + 2, offset) && RoundNotDone(a, b, d, d + 2)
  {
    var k := -d;
    while k <= d
      invariant -d <= k <= d + 2 && (d - k) % 2 == 0
      invariant d == 0 ==> v[1 + offset] == 0
      invariant d > 0 ==> Filled(a, b, v[..], d - 1, d + 1, offset)
      invariant Filled(a, b, v[..], d, k, offset)
      invariant RoundNotDone(a, b, d, k)
    {
      var x := Visit(a, b, v, d, k, offset);
      var y := x - k;
      if x >= |a| && y >= |b| {
        ExactEnd(a, b, d, k);
        return true;
      }
      NotDoneStep(a, b, d, k);
      k := k + 2;
    }
    return false;
  }

  /** `shortestEdit` (src/transform/diff.ts:65-102). `v` has one cell more
    * than the source allocates: with both sides empty the source writes
    * `v[1 + offset]` past its end and the JavaScript array grows. The
    * closing `throw` is unreachable (`Terminates`). */
  method ShortestEdit(a: seq<IrNode>, b: seq<Bare>) returns (trace: seq<seq<int>>, offset: int)
    ensures offset == |a| + |b| && |trace| <= offset + 1
    ensures Snapshots(a, b, trace, offset)
    ensures OnRound(|trace| - 1, |a| - |b|) && Far(a, b, |trace| - 1, |a| - |b|) == |a|
    ensures NoneDone(a, b, |trace| - 1)
  {
    var n := |a|;
    var m := |b|;
    var max := n + m;
    offset := max;
    var v := new int[2 * max + 2](_ => 0);
    trace := [];
    v[1 + offset] := 0;
    var d := 0;
    while d <= max
      invariant 0 <= d <= max + 1 && |trace| == d && v.Length == 2 * max + 2
      invariant d == 0 ==> v[1 + offset] == 0
      invariant d > 0 ==> Snapshots(a, b, trace, offset) && Filled(a, b, v[..], d - 1, d + 1, offset)
      invariant NoneDone(a, b, d)
    {
      trace := trace + [v[..]];
      assert Snapshots(a, b, trace, offset);
      var done := Round(a, b, v, d, offset);
      if done {
        return;
      }
      NoneDoneNext(a, b, d);
      d := d + 1;
    }
    Terminates(a, b);
    assert false;
  }

  /** Where the backtrack leaves round `d` on diagonal `k`: the previous
    * round's point on the diagonal `prevK` that src/transform/diff.ts:32-37
    * picks, which the round's start is one move past. */
  lemma PrevFromRow(a: seq<IrNode>, b: seq<Bare>, row: seq<int>, d: int, k: int, offset: int, prevK: int, prevX: int)
    requires OnRound(d, k) && d <= offset && |row| == 2 * offset + 2
    requires d == 0 ==> row[1 + offset] == 0
    requires d > 0 ==> Filled(a, b, row, d - 1, d + 1, offset)
    requires prevK == if k == -d || (k != d && row[k - 1 + offset] < row[k + 1 + offset]) then k + 1 else k - 1
    requires prevX == row[prevK + offset]
    ensures d > 0 ==> OnRound(d - 1, prevK) && prevX == Far(a, b, d - 1, prevK)
    ensures d == 0 ==> prevK == 1 && prevX == 0
    ensures Start(a, b, d, k) == if prevK == k + 1 then prevX else prevX + 1
  {
    StartFromRow(a, b, row, d, k, offset, if prevK == k + 1 then prevX else prevX + 1);
    if d > 0 {
      Neighbours(d, k);
      Read(a, b, row, d - 1, d + 1, offset, prevK, prevK + offset);
    }
  }

  /** Everything the backtrack needs of round `d`'s point `x` on diagonal
    * `k`: the diagonal run back to the round's start, and the previous
    * round's point one move before it. */
  lemma Predecessor(a: seq<IrNode>, b: seq<Bare>, v: seq<int>, offset: int, d: int, x: int, k: int, prevK: int, prevX: int, prevY: int)
    requires 0 <= d <= offset && |v| == 2 * offset + 2
    requires d == 0 ==> v[1 + offset] == 0
    requires d > 0 ==> Filled(a, b, v, d - 1, d + 1, offset)
    requires OnRound(d, k) && Far(a, b, d, k) == x
    requires prevK == if k == -d || (k != d && v[k - 1 + offset] < v[k + 1 + offset]) then k + 1 else k - 1
    requires prevX == v[prevK + offset] && prevY == prevX - prevK
    ensures Start(a, b, d, k) <= x && 0 <= Start(a, b, d, k) - k
    ensures forall i :: Start(a, b, d, k) <= i < x ==> Cell(a, b, i, k)
    ensures (prevX == Start(a, b, d, k) && prevY == Start(a, b, d, k) - k - 1) || (prevX == Start(a, b, d, k) - 1 && prevY == Start(a, b, d, k) - k)
    ensures d > 0 ==> OnRound(d - 1, prevK) && Far(a, b, d - 1, prevK) == prevX && 0 <= prevX && 0 <= prevY
    ensures d == 0 ==> Start(a, b, d, k) == 0 && k == 0 && prevX == 0 && prevY == -1
  {
    PrevFromRow(a, b, v, d, k, offset, prevK, prevX);
    FarBounds(a, b, d, k);
    if d > 0 {
      FarBounds(a, b, d - 1, prevK);
    }
  }

  /** The `modify` entries of src/transform/diff.ts:40-48: back along
    * diagonal `k` from `x` to the round's start. */
  method Unwind(a: seq<IrNode>, b: seq<Bare>, s: seq<Change>, x0: int, y0: int, k: int, ghost e: int, prevX: int, prevY: int, ghost start: int)
    returns (r: seq<Change>, x: int, y: int)
    requires Tail(a, b, s, x0, y0, e) && y0 == x0 - k && start <= x0
    requires forall i :: start <= i < x0 ==> Cell(a, b, i, k)
    requires (prevX == start && prevY == start - k - 1) || (prevX == start - 1 && prevY == start - k)
    ensures x == start && y == start - k && Tail(a, b, r, x, y, e)
  {
    r, x, y := s, x0, y0;
    while x > prevX && y > prevY
      invariant y == x - k && start <= x <= x0
      invariant Tail(a, b, r, x, y, e)
    {
      assert Cell(a, b, x - 1, k);
      PrependModify(a, b, r, x, y, e);
      r := [Modify(a[x - 1], b[y - 1])] + r;
      x := x - 1;
      y := y - 1;
    }
  }

  /** One round of the backtrack (src/transform/diff.ts:28-59), with `v`
    * the copy of the array taken before round `d`: from the round's point
    * on diagonal `k` back to the previous round's point on `prevK`,
    * prepending the entries passed. */
  method Back(a: seq<IrNode>, b: seq<Bare>, v: seq<int>, offset: int, d: int, s: seq<Change>, x: int, y: int, ghost k0: int, ghost e: int)
    returns (r: seq<Change>, prevK: int, prevX: int, prevY: int, ghost e': int)
    requires 0 <= d <= offset && |v| == 2 * offset + 2
    requires d == 0 ==> v[1 + offset] == 0
    requires d > 0 ==> Filled(a, b, v, d - 1, d + 1, offset)
    requires Tail(a, b, s, x, y, e) && k0 == x - y && OnRound(d, k0) && Far(a, b, d, k0) == x
    ensures prevK == prevX - prevY
    ensures d > 0 ==> e' == e + 1 && Tail(a, b, r, prevX, prevY, e') && OnRound(d - 1, prevK) && Far(a, b, d - 1, prevK) == prevX
    ensures d == 0 ==> e' == e && prevX == 0 && prevY == -1 && Tail(a, b, r, 0, 0, e')
  {
    var k := x - y;
    e' := if d > 0 then e + 1 else e;
    if k == -d || (k != d && v[k - 1 + offset] < v[k + 1 + offset]) {
      prevK := k + 1;
    } else {
      prevK := k - 1;
    }
    prevX := v[prevK + offset];
    prevY := prevX - prevK;
    Predecessor(a, b, v, offset, d, x, k, prevK, prevX, prevY);
    var x1, y1;
    r, x1, y1 := Unwind(a, b, s, x, y, k, e, prevX, prevY, Start(a, b, d, k));
    if d > 0 {
      if x1 == prevX {
        PrependInsert(a, b, r, x1, y1, e, prevY);
        r := [Insert(b[prevY])] + r;
      } else {
        PrependDelete(a, b, r, x1, y1, e, prevX, prevY);
        r := [Delete(a[prevX])] + r;
      }
    } else {
      assert x1 == 0 && y1 == 0;
    }
  }

  /** `diff` (src/transform/diff.ts:21-63): the backtrack from `(|a|, |b|)`
    * through the snapshots, prepending each entry. The result turns `a`
    * into `b`, and no edit script between them has fewer insertions and
    * deletions. */
  method Diff(a: seq<IrNode>, b: seq<Bare>) returns (s: seq<Change>)
    ensures Aligns(s, a, b)
    ensures forall t :: Aligns(t, a, b) ==> Edits(s) <= Edits(t)
    ensures |a| == 0 ==> forall i :: 0 <= i < |s| ==> s[i].Insert?
    ensures |b| == 0 ==> forall i :: 0 <= i < |s| ==> s[i].Delete?
  {
    var trace, offset := ShortestEdit(a, b);
    var x := |a|;
    var y := |b|;
    s := [];
    ghost var last := |trace| - 1;
    var d := |trace| - 1;
    ghost var k := x - y;
    ghost var e := 0;
    while d >= 0
      invariant -1 <= d <= last
      invariant d >= 0 ==> Tail(a, b, s, x, y, e) && e == last - d && OnRound(d, k) && Far(a, b, d, k) == x
      invariant k == x - y
      invariant d < 0 ==> x == 0 && y == -1 && Tail(a, b, s, 0, 0, e) && e == last
    {
      assert d > 0 ==> Snapshot(a, b, trace[d], d - 1, offset);
      s, k, x, y, e := Back(a, b, trace[d], offset, d, s, x, y, k, e);
      d := d - 1;
    }
    assert a[0..] == a && b[0..] == b;
    forall t | Aligns(t, a, b)
      ensures Edits(s) <= Edits(t)
    {
      StopRoundIsMinimal(a, b, last, t);
    }
    EmptySides(s);
  }
}
