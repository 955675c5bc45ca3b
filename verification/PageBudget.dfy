/** How many free pages it takes to map pages: the pages themselves and the page tables on the
    way to them that are not there yet. */
module PageBudget {
  import opened PageTable

  /** The lowest-level and the second-level tables for the virtual pages `vs`. */
  ghost function Lows(vs: set<nat>): set<nat> { set v | v in vs :: v / 512 }

  ghost function Mids(vs: set<nat>): set<nat> { set v | v in vs :: v / 512 / 512 }

  /** How many tables are missing, where those in `low` and `mid` are there. */
  ghost function Missing(low: set<nat>, mid: set<nat>, vs: set<nat>): nat { MissingAt(low, mid, vs, DEPTH) }

  /** The definition of `Missing`, folded: it is unfolded only by calling `MissingIs`. */
  ghost function MissingAt(low: set<nat>, mid: set<nat>, vs: set<nat>, depth: nat): nat {
    if depth == 0 then |Lows(vs) - low| + |Mids(vs) - mid| else MissingAt(low, mid, vs, depth - 1)
  }

  lemma {:induction false} MissingAtIs(low: set<nat>, mid: set<nat>, vs: set<nat>, depth: nat)
    ensures MissingAt(low, mid, vs, depth) == |Lows(vs) - low| + |Mids(vs) - mid|
  {
    if depth > 0 {
      MissingAtIs(low, mid, vs, depth - 1);
    }
  }

  lemma {:induction false} MissingIs(low: set<nat>, mid: set<nat>, vs: set<nat>)
    ensures Missing(low, mid, vs) == |Lows(vs) - low| + |Mids(vs) - mid|
  {
    MissingAtIs(low, mid, vs, DEPTH);
  }

  /** How many free pages it takes to give a space new pages at `vs`. */
  ghost function Need(sp: Space, vs: set<nat>): nat { |vs| + Missing(sp.low.Keys, sp.mid.Keys, vs) }

  /** Between the two worlds `n` pages and the tables for `vs` were taken from the free list. */
  ghost predicate Spent(u: World, w: World, r: nat, vs: set<nat>, n: nat) { SpentAt(u, w, r, vs, n, DEPTH) }

  ghost predicate SpentAt(u: World, w: World, r: nat, vs: set<nat>, n: nat, depth: nat) {
    if depth == 0 then SpentBody(u, w, r, vs, n) else SpentAt(u, w, r, vs, n, depth - 1)
  }

  lemma {:induction false} SpentAtIs(u: World, w: World, r: nat, vs: set<nat>, n: nat, depth: nat)
    ensures SpentAt(u, w, r, vs, n, depth) <==> SpentBody(u, w, r, vs, n)
  {
    if depth > 0 {
      SpentAtIs(u, w, r, vs, n, depth - 1);
    }
  }

  lemma {:induction false} SpentIs(u: World, w: World, r: nat, vs: set<nat>, n: nat)
    ensures Spent(u, w, r, vs, n) <==> SpentBody(u, w, r, vs, n)
  {
    SpentAtIs(u, w, r, vs, n, DEPTH);
  }

  ghost predicate SpentBody(u: World, w: World, r: nat, vs: set<nat>, n: nat) {
    && r in u.spaces && r in w.spaces
    && w.spaces[r].low.Keys == u.spaces[r].low.Keys + Lows(vs)
    && w.spaces[r].mid.Keys == u.spaces[r].mid.Keys + Mids(vs)
    && |u.free| == |w.free| + n + Missing(u.spaces[r].low.Keys, u.spaces[r].mid.Keys, vs)
  }

  lemma {:induction false} SpentNothing(w: World, r: nat)
    requires r in w.spaces
    ensures Spent(w, w, r, {}, 0)
  {
    assert Lows({}) == {} && Mids({}) == {};
    MissingIs(w.spaces[r].low.Keys, w.spaces[r].mid.Keys, {});
    SpentIs(w, w, r, {}, 0);
  }

  lemma {:induction false} MissingOne(low: set<nat>, mid: set<nat>, v: nat)
    ensures Missing(low, mid, {v}) == (if v / 512 in low then 0 else 1) + (if v / 512 / 512 in mid then 0 else 1)
    ensures Lows({v}) == {v / 512} && Mids({v}) == {v / 512 / 512}
  {
    assert Lows({v}) == {v / 512} && Mids({v}) == {v / 512 / 512};
    assert Lows({v}) - low == if v / 512 in low then {} else {v / 512};
    assert Mids({v}) - mid == if v / 512 / 512 in mid then {} else {v / 512 / 512};
    MissingIs(low, mid, {v});
  }

  lemma {:induction false} Larger(a: set<nat>, b: set<nat>)
    requires a <= b
    ensures |a| <= |b|
  {
    assert b == a + (b - a);
  }

  lemma {:induction false} MissingMore(low: set<nat>, mid: set<nat>, vs: set<nat>, ws: set<nat>)
    requires vs <= ws
    ensures Missing(low, mid, vs) <= Missing(low, mid, ws)
  {
    MissingIs(low, mid, vs);
    MissingIs(low, mid, ws);
    Larger(Lows(vs) - low, Lows(ws) - low);
    Larger(Mids(vs) - mid, Mids(ws) - mid);
  }

  /** Tables made for `vs` are there for `ws`. */
  lemma {:induction false} MissingBoth(low: set<nat>, mid: set<nat>, vs: set<nat>, ws: set<nat>)
    ensures Lows(vs + ws) == Lows(vs) + Lows(ws) && Mids(vs + ws) == Mids(vs) + Mids(ws)
    ensures Missing(low, mid, vs + ws) == Missing(low, mid, vs) + Missing(low + Lows(vs), mid + Mids(vs), ws)
  {
    assert Lows(vs + ws) == Lows(vs) + Lows(ws) && Mids(vs + ws) == Mids(vs) + Mids(ws);
    assert Lows(vs + ws) - low == (Lows(vs) - low) + (Lows(ws) - (low + Lows(vs)));
    assert Mids(vs + ws) - mid == (Mids(vs) - mid) + (Mids(ws) - (mid + Mids(vs)));
    MissingIs(low, mid, vs + ws);
    MissingIs(low, mid, vs);
    MissingIs(low + Lows(vs), mid + Mids(vs), ws);
  }

  lemma {:induction false} SpentTwice(u: World, t: World, w: World, r: nat, vs: set<nat>, ws: set<nat>, n: nat, m: nat)
    requires Spent(u, t, r, vs, n) && Spent(t, w, r, ws, m)
    ensures Spent(u, w, r, vs + ws, n + m)
  {
    SpentIs(u, t, r, vs, n);
    SpentIs(t, w, r, ws, m);
    SpentBoth(u, t, w, r, vs, ws, n, m);
    SpentIs(u, w, r, vs + ws, n + m);
  }

  lemma {:induction false} SpentBoth(u: World, t: World, w: World, r: nat, vs: set<nat>, ws: set<nat>, n: nat, m: nat)
    requires SpentBody(u, t, r, vs, n) && SpentBody(t, w, r, ws, m)
    ensures SpentBody(u, w, r, vs + ws, n + m)
  {
    var low, mid := u.spaces[r].low.Keys, u.spaces[r].mid.Keys;
    MissingBoth(low, mid, vs, ws);
    TwoUnions(low, Lows(vs), Lows(ws));
    TwoUnions(mid, Mids(vs), Mids(ws));
  }

  lemma {:induction false} TwoUnions(a: set<nat>, x: set<nat>, y: set<nat>)
    ensures a + x + y == a + (x + y)
  {
    assert a + x + y == a + (x + y);
  }

  /** One more page. */
  lemma {:induction false} SpentMore(u: World, t: World, w: World, r: nat, vs: set<nat>, v: nat)
    requires Spent(u, t, r, vs, |vs|) && Spent(t, w, r, {v}, 1) && v !in vs
    ensures Spent(u, w, r, vs + {v}, |vs + {v}|)
  {
    SpentTwice(u, t, w, r, vs, {v}, |vs|, 1);
  }

  /** If there are not the tables for the next page, there were not the tables for all. */
  lemma {:induction false} TablesRanOut(u: World, t: World, r: nat, vs: set<nat>, v: nat, n: nat, all: set<nat>)
    requires Spent(u, t, r, vs, n) && vs + {v} <= all && r in u.spaces && r in t.spaces
    requires |t.free| < Missing(t.spaces[r].low.Keys, t.spaces[r].mid.Keys, {v})
    ensures |u.free| < n + Missing(u.spaces[r].low.Keys, u.spaces[r].mid.Keys, all)
  {
    SpentIs(u, t, r, vs, n);
    MissingBoth(u.spaces[r].low.Keys, u.spaces[r].mid.Keys, vs, {v});
    MissingMore(u.spaces[r].low.Keys, u.spaces[r].mid.Keys, vs + {v}, all);
  }

  /** If there is not enough for the next page, there was not enough for all of them. */
  lemma {:induction false} RanOut(u: World, t: World, r: nat, vs: set<nat>, v: nat, all: set<nat>)
    requires Spent(u, t, r, vs, |vs|) && v !in vs && vs + {v} <= all
    requires r in u.spaces && r in t.spaces && |t.free| < Need(t.spaces[r], {v})
    ensures |u.free| < Need(u.spaces[r], all)
  {
    SpentIs(u, t, r, vs, |vs|);
    MissingBoth(u.spaces[r].low.Keys, u.spaces[r].mid.Keys, vs, {v});
    MissingMore(u.spaces[r].low.Keys, u.spaces[r].mid.Keys, vs + {v}, all);
    Larger(vs + {v}, all);
  }

  /** What was spent was there. */
  lemma {:induction false} SpentEnough(u: World, w: World, r: nat, vs: set<nat>, n: nat)
    requires Spent(u, w, r, vs, n)
    ensures r in u.spaces && |u.free| >= n + Missing(u.spaces[r].low.Keys, u.spaces[r].mid.Keys, vs)
  {
    SpentIs(u, w, r, vs, n);
  }

  /** The pages v .. v + n - 1. */
  ghost function Range(v: nat, n: nat): set<nat> {
    if n == 0 then {} else Range(v, n - 1) + {v + n - 1}
  }

  lemma {:induction false} RangeIs(v: nat, n: nat)
    ensures |Range(v, n)| == n && forall u :: u in Range(v, n) <==> v <= u < v + n
  {
    if n > 0 {
      RangeIs(v, n - 1);
    }
  }

  /** Page v + a after the pages v .. v + a - 1, `c` pages for each. */
  lemma {:induction false} RangeSpent(u: World, t: World, w: World, r: nat, v: nat, a: nat, n: nat, c: nat)
    requires Spent(u, t, r, Range(v, a), n) && Spent(t, w, r, {v + a}, c)
    ensures Spent(u, w, r, Range(v, a + 1), n + c)
  {
    SpentTwice(u, t, w, r, Range(v, a), {v + a}, n, c);
  }

  lemma {:induction false} RangeRanOut(u: World, t: World, r: nat, v: nat, a: nat, n: nat)
    requires Spent(u, t, r, Range(v, a), a) && a < n && r in u.spaces && r in t.spaces
    requires |t.free| < Need(t.spaces[r], {v + a})
    ensures |u.free| < Need(u.spaces[r], Range(v, n))
  {
    RangeIs(v, a);
    RangeIs(v, n);
    RanOut(u, t, r, Range(v, a), v + a, Range(v, n));
  }

  lemma {:induction false} RangeTablesRanOut(u: World, t: World, r: nat, v: nat, a: nat, n: nat)
    requires Spent(u, t, r, Range(v, a), 0) && a < n && r in u.spaces && r in t.spaces
    requires |t.free| < Missing(t.spaces[r].low.Keys, t.spaces[r].mid.Keys, {v + a})
    ensures |u.free| < Missing(u.spaces[r].low.Keys, u.spaces[r].mid.Keys, Range(v, n))
  {
    RangeIs(v, a);
    RangeIs(v, n);
    TablesRanOut(u, t, r, Range(v, a), v + a, 0, Range(v, n));
  }

  lemma {:induction false} RangeEnough(u: World, w: World, r: nat, v: nat, n: nat)
    requires Spent(u, w, r, Range(v, n), n)
    ensures r in u.spaces && |u.free| >= Need(u.spaces[r], Range(v, n))
  {
    RangeIs(v, n);
    SpentEnough(u, w, r, Range(v, n), n);
  }

  lemma {:induction false} NeedMore(sp: Space, vs: set<nat>, ws: set<nat>)
    requires vs <= ws
    ensures Need(sp, vs) <= Need(sp, ws)
  {
    MissingMore(sp.low.Keys, sp.mid.Keys, vs, ws);
    Larger(vs, ws);
  }

  lemma {:induction false} RangeOne(v: nat)
    ensures Range(v, 1) == {v}
  {
    assert Range(v, 0) == {};
  }

  // ---------------------------------------------------------------- new page tables

  /** What every page table maps. */
  ghost function TopPages(): set<nat> { {TRAMPOLINE, TRAPFRAME} }

  /** How many free pages it takes to give new pages at `vs` to a space with no other tables
      than those for the topmost pages. */
  ghost function ChildNeed(vs: set<nat>): nat { |vs| + Missing(Lows(TopPages()), Mids(TopPages()), vs) }

  /** The two topmost pages share their tables. */
  lemma {:induction false} TopIsTwo()
    ensures Missing({}, {}, TopPages()) == 2
  {
    MissingIs({}, {}, TopPages());
    assert Lows(TopPages()) == {TRAMPOLINE / 512} && Mids(TopPages()) == {TRAMPOLINE / 512 / 512};
    assert Lows(TopPages()) - {} == {TRAMPOLINE / 512} && Mids(TopPages()) - {} == {TRAMPOLINE / 512 / 512};
  }
}
