/** The symbol arena and the macros that work on one context's tree in it, each proved
    against the counts the context stands for. */
module SymbolArenas {
  import opened Words
  import opened Contexts
  import opened SymbolTrees
  import opened ContextWalks
  import opened Rescaling
  import opened Storage

  class RangeCoder {
    const symbols: array<Symbol>
    var nextSymbol: nat

    constructor ()
      ensures symbols.Length == SLOTS && fresh(symbols) && nextSymbol == 0
    {
      symbols := new Symbol[SLOTS];
      nextSymbol := 0;
    }

    method CreateSymbol(value: uint8, count: uint8) returns (symbol: nat)
      requires nextSymbol < symbols.Length
      modifies symbols, this`nextSymbol
      ensures symbol == old(nextSymbol) && nextSymbol == symbol + 1
      ensures symbols[..] == old(symbols[..])[symbol := NewSymbol(value, count)]
    {
      symbol := nextSymbol;
      nextSymbol := nextSymbol + 1;
      symbols[symbol] := Symbol(value, count, count, 0, 0, 0, 0, 0, 0);
    }

    /** A context's first symbol. */
    method CreateTop(context: nat, value: uint8, update: uint8, ghost t: Tree) returns (symbol: nat, ghost t1: Tree)
      requires context < nextSymbol < symbols.Length == SLOTS
      requires Room(symbols[..], context, t, update, nextSymbol) && symbols[context].symbols == 0
      modifies symbols, this`nextSymbol
      ensures |t.counts| == VALUES && value !in t.at && t.counts[value] == 0 && Sum(t.counts, 0, value) == 0
      ensures symbol == old(nextSymbol) && nextSymbol == symbol + 1
      ensures Counts(old(symbols[..]), symbols[..], context, t, t1, value, update, symbol, symbol)
    {
      hide Counts, Holds;
      ghost var s := symbols[..];
      t1 := PlantedCounts(s, context, t, value, update, nextSymbol);
      symbol := CreateSymbol(value, update);
      symbols[context] := symbols[context].(symbols := symbol - context);
      assert symbols[..] == Planted(s, value, update, symbol, context);
    }

    /** A new left child of `node`, whose `under` was just raised. */
    method CreateLeft(node: nat, value: uint8, update: uint8,
                      ghost s0: Arena, ghost s: Arena, ghost context: nat, ghost t: Tree, ghost x: int)
      returns (symbol: nat, ghost t1: Tree)
      requires node < nextSymbol < symbols.Length == SLOTS && |s| == SLOTS
      requires Walking(s0, s, context, t, value, update, nextSymbol, x) && value < x && t.at[x] == node
      requires s[node].left == 0 && s[node].under + update < TWO_16 && symbols[..] == Lifted(s, node, update)
      modifies symbols, this`nextSymbol
      ensures |t.counts| == VALUES && value !in t.at && t.counts[value] == 0
      ensures x in t.lo && 0 <= t.lo[x] <= x < VALUES
      ensures Sum(t.counts, 0, value) == Sum(t.counts, 0, t.lo[x]) && Sum(t.counts, t.lo[x], x) == 0
      ensures symbol == old(nextSymbol) && nextSymbol == symbol + 1
      ensures Counts(s0, symbols[..], context, t, t1, value, update, symbol, symbol)
    {
      hide Counts, Walking;
      ghost var s1 := symbols[..];
      t1 := StopLeft(s0, s, context, t, value, update, nextSymbol, x);
      symbol := CreateSymbol(value, update);
      symbols[node] := symbols[node].(left := symbol - node);
      assert symbols[..] == Grown(s1, value, update, symbol, node, true);
    }

    /** A new right child of `node`. */
    method CreateRight(node: nat, value: uint8, update: uint8,
                       ghost s0: Arena, ghost context: nat, ghost t: Tree, ghost x: int)
      returns (symbol: nat, ghost t1: Tree)
      requires node < nextSymbol < symbols.Length == SLOTS
      requires Walking(s0, symbols[..], context, t, value, update, nextSymbol, x) && value > x && t.at[x] == node
      requires symbols[node].right == 0
      modifies symbols, this`nextSymbol
      ensures |t.counts| == VALUES && value !in t.at && t.counts[value] == 0
      ensures x in t.lo && 0 <= t.lo[x] <= x < VALUES
      ensures Sum(t.counts, 0, value) == Sum(t.counts, 0, t.lo[x]) + Sum(t.counts, t.lo[x], x + 1)
      ensures symbol == old(nextSymbol) && nextSymbol == symbol + 1
      ensures Counts(s0, symbols[..], context, t, t1, value, update, symbol, symbol)
    {
      hide Counts, Walking;
      ghost var s := symbols[..];
      t1 := StopRight(s0, s, context, t, value, update, nextSymbol, x);
      symbol := CreateSymbol(value, update);
      symbols[node] := symbols[node].(right := symbol - node);
      assert symbols[..] == Grown(s, value, update, symbol, node, false);
    }

    /** The node of the value walked to: one more sighting. */
    method CountNode(node: nat, update: uint8,
                     ghost s0: Arena, ghost context: nat, ghost t: Tree, ghost slot: nat, ghost v: uint8)
      returns (ghost t1: Tree)
      requires node < symbols.Length == SLOTS
      requires Walking(s0, symbols[..], context, t, v, update, slot, v) && t.at[v] == node
      requires symbols[node].under + update < TWO_16
      modifies symbols
      ensures |t.counts| == VALUES && v in t.at && v in t.lo && 0 <= t.lo[v] <= v
      ensures Sum(t.counts, 0, v) == Sum(t.counts, 0, t.lo[v]) + Sum(t.counts, t.lo[v], v + 1) - t.counts[v]
      ensures Counts(s0, symbols[..], context, t, t1, v, update, slot, node)
    {
      hide Counts, Walking;
      ghost var s := symbols[..];
      StopHit(s0, s, context, t, v, update, slot);
      t1 := Raised(t, v, update);
      symbols[node] := symbols[node].(under := symbols[node].under + update, count := symbols[node].count + update);
      assert symbols[..] == WithCount(s, node, update);
    }

    method RaiseUnder(node: nat, update: uint8)
      requires node < symbols.Length && symbols[node].under + update < TWO_16
      modifies symbols
      ensures symbols[..] == Lifted(old(symbols[..]), node, update)
      ensures symbols[node].(under := 0) == old(symbols[node]).(under := 0)
    {
      symbols[node] := symbols[node].(under := symbols[node].under + update);
    }

    /** Halves the counts in the subtree of `symbol`; returns their new sum. */
    method RescaleSymbols(symbol: nat, ghost t: Tree, ghost x: int) returns (total: uint16)
      requires symbols.Length == SLOTS && ShapeOk(t) && x in t.at && t.at[x] == symbol
      requires RangeOk(symbols[..], t, t.lo[x], t.hi[x])
      requires Sum(t.counts, 0, |t.counts|) < TWO_16
      modifies symbols
      ensures HalvedIn(old(symbols[..]), symbols[..], t, t.lo[x], t.hi[x])
      ensures x in t.lo && x in t.hi && 0 <= t.lo[x] <= t.hi[x] <= |t.counts|
      ensures total == Sum(HalveAll(t.counts), t.lo[x], t.hi[x])
      decreases if x in t.lo && x in t.hi then t.hi[x] - t.lo[x] else 0
    {
      hide *;
      ghost var s0 := symbols[..];
      ghost var halved := HalveAll(t.counts);
      var node := symbol;
      ghost var y := x;
      total := 0;
      HalvingStarts(s0, t, x);
      HalvingFacts(s0, s0, t, x, x);
      while true
        invariant y in t.at && node == t.at[y] && y in t.lo && 0 <= t.lo[x] <= t.lo[y] <= VALUES
        invariant HalvingAt(s0, symbols[..], t, x, y)
        invariant total == Sum(halved, t.lo[x], t.lo[y])
        decreases if y in t.lo && y in t.hi then t.hi[y] - t.lo[y] else 0
      {
        ghost var s := symbols[..];
        HalvingFacts(s0, s, t, x, y);
        HalvedSums(t.counts, t.lo[x], t.lo[y], y);
        HalveNode(node);
        if symbols[node].left != 0 {
          ghost var z := LeftReady(s0, s, t, x, y);
          var sum := RescaleSymbols(node + symbols[node].left, t, z);
          ghost var s2 := symbols[..];
          OwnUntouched(s, s2, t, y);
          symbols[node] := symbols[node].(under := symbols[node].under + sum);
          PassDone(s0, s, s2, symbols[..], t, x, y, sum);
        } else {
          LeftNothing(s0, s, t, x, y);
          OwnUntouched(s, symbols[..], t, y);
          PassDone(s0, s, symbols[..], symbols[..], t, x, y, 0);
        }
        total := total + symbols[node].under;
        if symbols[node].right == 0 {
          RightDone(s0, s, symbols[..], t, x, y);
          break;
        }
        y := RightNext(s0, s, symbols[..], t, x, y);
        node := node + symbols[node].right;
      }
    }

    method HalveNode(node: nat)
      requires node < symbols.Length
      modifies symbols
      ensures symbols[..] == OwnHalved(old(symbols[..]), node)
      ensures symbols[node].(count := 0, under := 0) == old(symbols[node]).(count := 0, under := 0)
    {
      symbols[node] := symbols[node].(count := symbols[node].count - symbols[node].count / 2);
      symbols[node] := symbols[node].(under := symbols[node].count);
    }

    /** Writes a symbol's parent. */
    method WriteParent(at: nat, symbol: uint16)
      requires at < symbols.Length
      modifies symbols
      ensures symbols[..] == old(symbols[..])[at := old(symbols[..])[at].(parent := symbol)]
    {
      symbols[at] := symbols[at].(parent := symbol);
    }

    /** Updates a context's statistics after a value was counted in it, and halves them when
        they have grown too large. */
    method AdaptContext(context: nat, count: nat, minimum: Minimum, ghost m: Context, ghost v: uint8, ghost t: Tree)
      returns (ghost t2: Tree)
      requires symbols.Length == SLOTS && context < SLOTS && ValidContext(m, minimum)
      requires Holds(symbols[..], context, t) && t.counts == m.counts[v := m.counts[v] + Delta(minimum)]
      requires symbols[context].escapes == m.escapes && symbols[context].total == Total(m, minimum)
      requires count == m.counts[v] + minimum
      modifies symbols
      ensures Holds(symbols[..], context, t2) && t2.at == t.at && t2.counts == Adapted(m, minimum, v).counts
      ensures symbols[context].escapes == Adapted(m, minimum, v).escapes
      ensures symbols[context].total == Total(Adapted(m, minimum, v), minimum)
      ensures Reworked(old(symbols[..]), symbols[..], context, t)
    {
      hide *;
      ghost var s0 := symbols[..];
      AdaptingFacts(m, minimum, v);
      var escapes, total := symbols[context].escapes, symbols[context].total;
      if count <= 0 {
        escapes := escapes + SUBCONTEXT_ESCAPE_DELTA;
        total := total + SUBCONTEXT_ESCAPE_DELTA;
      }
      total := total + Delta(minimum);
      SetStatistics(context, escapes, total, t);
      ghost var s1 := symbols[..];
      t2 := t;
      if count > 0xFF - 2 * Delta(minimum) + minimum || symbols[context].total > LARGEST_TOTAL {
        t2 := ContextRescale(context, minimum, Counted(m, minimum, v), t);
        ReworkedTwice(s0, s1, symbols[..], context, t, t);
      }
    }

    /** Writes a context's statistics. */
    method SetStatistics(context: nat, escapes: uint16, total: uint16, ghost t: Tree)
      requires symbols.Length == SLOTS && context < SLOTS && Holds(symbols[..], context, t)
      modifies symbols
      ensures symbols[context].escapes == escapes && symbols[context].total == total
      ensures Holds(symbols[..], context, t) && Reworked(old(symbols[..]), symbols[..], context, t)
    {
      ghost var s0 := symbols[..];
      symbols[context] := symbols[context].(escapes := escapes, total := total);
      assert symbols[..] == s0[context := s0[context].(escapes := escapes, total := total)];
      StatisticsSet(s0, symbols[..], context, escapes, total, t);
    }

    method ContextRescale(context: nat, minimum: Minimum, ghost m: Context, ghost t: Tree) returns (ghost t2: Tree)
      requires symbols.Length == SLOTS && context < SLOTS && |m.counts| == VALUES
      requires Holds(symbols[..], context, t) && t.counts == m.counts && Total(m, minimum) < TWO_16
      requires symbols[context].escapes == m.escapes && symbols[context].total == Total(m, minimum)
      modifies symbols
      ensures Holds(symbols[..], context, t2) && t2.at == t.at && t2.counts == Rescaled(m).counts
      ensures symbols[context].escapes == Rescaled(m).escapes
      ensures symbols[context].total == Total(Rescaled(m), minimum)
      ensures Reworked(old(symbols[..]), symbols[..], context, t)
    {
      ghost var s0 := symbols[..];
      var total: uint16 := 0;
      hide *;
      RescaledTotal(m, minimum);
      if symbols[context].symbols != 0 {
        ghost var x := TopNode(s0, context, t);
        WholeRange(s0, context, t, x);
        total := RescaleSymbols(context + symbols[context].symbols, t, x);
        HalvedHolds(s0, symbols[..], context, t);
        HalvedReworked(s0, symbols[..], context, t);
      } else {
        NothingToHalve(s0, context, t);
        NothingReworked(s0, context, t);
      }
      ghost var s1 := symbols[..];
      var escapes: uint16 := symbols[context].escapes - symbols[context].escapes / 2;
      total := total + escapes + 256 * minimum;
      SetStatistics(context, escapes, total, HalvedTree(t));
      ReworkedTwice(s0, s1, symbols[..], context, t, HalvedTree(t));
      t2 := HalvedTree(t);
    }

    /** Counts `value` once more in `context` and reports the share it had before. */
    method ContextEncode(context: nat, value: uint8, update: uint8, minimum: Minimum, ghost t: Tree)
      returns (symbol: nat, under: nat, count: nat, ghost t1: Tree)
      requires context < nextSymbol < symbols.Length == SLOTS
      requires Room(symbols[..], context, t, update, nextSymbol)
      modifies symbols, this`nextSymbol
      ensures |t.counts| == VALUES
      ensures Counts(old(symbols[..]), symbols[..], context, t, t1, value, update, old(nextSymbol), symbol)
      ensures nextSymbol == old(nextSymbol) + (if value in t.at then 0 else 1)
      ensures under == Under(t.counts, minimum, value) && count == t.counts[value] + minimum
    {
      hide *;
      ghost var s0 := symbols[..];
      RoomFacts(s0, context, t, update, nextSymbol);
      UnderIs(t.counts, minimum, value);
      ghost var slot := nextSymbol;
      under := if minimum == 0 then 0 else value;
      count := minimum;
      if symbols[context].symbols == 0 {
        symbol, t1 := CreateTop(context, value, update, t);
        return;
      }
      var node := context + symbols[context].symbols;
      ghost var x := WalkBegins(s0, context, t, value, update, slot);
      while true
        invariant nextSymbol == slot && count == minimum && |t.counts| == VALUES
        invariant x in t.at && node == t.at[x] && x in t.lo && 0 <= t.lo[x] <= VALUES
        invariant under == (if minimum == 0 then 0 else value) + Sum(t.counts, 0, t.lo[x])
        invariant Walking(s0, symbols[..], context, t, value, update, slot, x)
        decreases if x in t.lo && x in t.hi then t.hi[x] - t.lo[x] else 0
      {
        ghost var s := symbols[..];
        WalkingFacts(s0, s, context, t, value, update, slot, x);
        if value < symbols[node].value {
          RaiseUnder(node, update);
          if symbols[node].left != 0 {
            x := GoLeft(s0, s, context, t, value, update, slot, x);
            node := node + symbols[node].left;
            continue;
          }
          symbol, t1 := CreateLeft(node, value, update, s0, s, context, t, x);
        } else if value > symbols[node].value {
          under := under + symbols[node].under;
          if symbols[node].right != 0 {
            x := GoRight(s0, s, context, t, value, update, slot, x);
            node := node + symbols[node].right;
            continue;
          }
          symbol, t1 := CreateRight(node, value, update, s0, context, t, x);
        } else {
          count := count + symbols[node].count;
          under := under + symbols[node].under - symbols[node].count;
          t1 := CountNode(node, update, s0, context, t, slot, value);
          symbol := node;
        }
        break;
      }
    }

    /** Looks `code` up in a subcontext and counts the value found; fails when no value's
        share contains the code. */
    method ContextTryDecode(context: nat, code: uint16, update: uint8, ghost t: Tree)
      returns (found: bool, symbol: nat, value: uint8, under: nat, count: nat, ghost t1: Tree)
      requires context < nextSymbol < symbols.Length == SLOTS
      requires Room(symbols[..], context, t, update, nextSymbol)
      modifies symbols, this`nextSymbol
      ensures |t.counts| == VALUES
      ensures found <==> code < Under(t.counts, 0, |t.counts|)
      ensures found ==> value == Locate(t.counts, 0, code) && value in t.at
      ensures found ==> Counts(old(symbols[..]), symbols[..], context, t, t1, value, update, old(nextSymbol), symbol)
      ensures found ==> under == Under(t.counts, 0, value) && count == t.counts[value]
      ensures nextSymbol == old(nextSymbol)
    {
      hide *;
      ghost var s0 := symbols[..];
      ghost var slot := nextSymbol;
      RoomFacts(s0, context, t, update, slot);
      ghost var v: uint8 := Sought(t.counts, 0, code);
      found, symbol, value, under, count, t1 := false, 0, 0, 0, 0, t;
      if symbols[context].symbols == 0 {
        NothingThere(s0, context, t);
        return;
      }
      var node := context + symbols[context].symbols;
      ghost var x := WalkBegins(s0, context, t, v, update, slot);
      while true
        invariant nextSymbol == slot && count == 0 && |t.counts| == VALUES && !found
        invariant x in t.at && node == t.at[x] && x in t.lo && 0 <= t.lo[x] <= VALUES
        invariant under == Sum(t.counts, 0, t.lo[x])
        invariant Walking(s0, symbols[..], context, t, v, update, slot, x)
        decreases if x in t.lo && x in t.hi then t.hi[x] - t.lo[x] else 0
      {
        ghost var s := symbols[..];
        WalkingFacts(s0, s, context, t, v, update, slot, x);
        CodeAgainst(t.counts, 0, t.lo[x], x, code);
        var after: uint16 := under + symbols[node].under;
        var before: uint16 := symbols[node].count;
        if code >= after {
          under := under + symbols[node].under;
          if symbols[node].right != 0 {
            RightMeansMore(s0, s, context, t, v, update, slot, x);
            x := GoRight(s0, s, context, t, v, update, slot, x);
            node := node + symbols[node].right;
            continue;
          }
          NothingRight(s0, s, context, t, v, update, slot, x, code);
          return;
        } else if code < after - before {
          RaiseUnder(node, update);
          if symbols[node].left != 0 {
            x := GoLeft(s0, s, context, t, v, update, slot, x);
            node := node + symbols[node].left;
            continue;
          }
          NothingLeft(s0, s, context, t, v, update, slot, x, code);
          return;
        } else {
          FoundShare(t.counts, 0, code, v);
          value := symbols[node].value;
          count := count + symbols[node].count;
          under := after - before;
          t1 := CountNode(node, update, s0, context, t, slot, v);
          symbol := node;
          found := true;
        }
        break;
      }
    }

    /** Looks `code` up in the root context, where every value has a share, and counts the
        value found, creating its node if it is new. */
    method ContextRootDecode(context: nat, code: uint16, update: uint8, ghost t: Tree)
      returns (symbol: nat, value: uint8, under: nat, count: nat, ghost t1: Tree)
      requires context < nextSymbol < symbols.Length == SLOTS
      requires Room(symbols[..], context, t, update, nextSymbol)
      requires code < Under(t.counts, 1, |t.counts|) < TWO_16
      modifies symbols, this`nextSymbol
      ensures Shares(t.counts, 1, code, value, under, count)
      ensures Counts(old(symbols[..]), symbols[..], context, t, t1, value, update, old(nextSymbol), symbol)
      ensures nextSymbol == old(nextSymbol) + (if value in t.at then 0 else 1)
    {
      hide *;
      ghost var s0 := symbols[..];
      ghost var slot := nextSymbol;
      RoomFacts(s0, context, t, update, slot);
      ghost var v: uint8 := Sought(t.counts, 1, code);
      under := 0;
      count := 1;
      if symbols[context].symbols == 0 {
        RootAlone(s0, context, t, code, v);
        value := code;
        under := code;
        symbol, t1 := CreateTop(context, value, update, t);
        return;
      }
      var node := context + symbols[context].symbols;
      ghost var x := WalkBegins(s0, context, t, v, update, slot);
      while true
        invariant nextSymbol == slot && count == 1 && |t.counts| == VALUES
        invariant x in t.at && node == t.at[x] && x in t.lo && 0 <= t.lo[x] <= VALUES
        invariant under == Sum(t.counts, 0, t.lo[x])
        invariant Walking(s0, symbols[..], context, t, v, update, slot, x)
        decreases if x in t.lo && x in t.hi then t.hi[x] - t.lo[x] else 0
      {
        ghost var s := symbols[..];
        WalkingFacts(s0, s, context, t, v, update, slot, x);
        CodeAgainst(t.counts, 1, t.lo[x], x, code);
        var after: uint16 := under + symbols[node].under + symbols[node].value + 1;
        var before: uint16 := symbols[node].count + 1;
        if code >= after {
          under := under + symbols[node].under;
          if symbols[node].right != 0 {
            x := GoRight(s0, s, context, t, v, update, slot, x);
            node := node + symbols[node].right;
            continue;
          }
          RootRight(s0, s, context, t, v, update, slot, x, code);
          value := symbols[node].value + 1 + (code - after);
          under := code;
          symbol, t1 := CreateRight(node, value, update, s0, context, t, x);
        } else if code < after - before {
          RaiseUnder(node, update);
          if symbols[node].left != 0 {
            x := GoLeft(s0, s, context, t, v, update, slot, x);
            node := node + symbols[node].left;
            continue;
          }
          RootLeft(s0, s, context, t, v, update, slot, x, code);
          value := symbols[node].value - 1 - (after - before - code - 1);
          under := code;
          symbol, t1 := CreateLeft(node, value, update, s0, s, context, t, x);
        } else {
          FoundShare(t.counts, 1, code, v);
          value := symbols[node].value;
          count := count + symbols[node].count;
          under := after - before;
          t1 := CountNode(node, update, s0, context, t, slot, v);
          symbol := node;
        }
        break;
      }
    }
  }
}
