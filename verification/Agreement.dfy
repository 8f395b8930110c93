/**
 The four books side by side: drive each engine over the same operations and compare what they report.
*/
module Agreement {
  import opened Market
  import opened Identity
  import opened Reference
  import opened Refinement
  import GoEngine
  import PythonEngine
  import RustEngine
  import CppEngine

  lemma NextPrefix(e: Engine, ops: seq<Op>, i: nat)
    requires i < |ops|
    ensures Run(e, ops[..i + 1]) == Step(e, Run(e, ops[..i]), ops[i])
    ensures Tape(e, ops[..i + 1]) == Tape(e, ops[..i]) + [Fills(Run(e, ops[..i]), ops[i])]
  {
    PrefixOfPrefix(ops, i + 1, i);
  }

  method RunGo(ops: seq<Op>) returns (tape: seq<seq<Fill>>)
    ensures tape == Tape(Go, ops)
  {
    var book := new GoEngine.Book();
    tape := [];
    for i := 0 to |ops|
      invariant book.Valid() && fresh(book) && fresh(book.bidElems) && fresh(book.askElems)
      invariant book.view == Run(Go, ops[..i]) && tape == Tape(Go, ops[..i])
    {
      NextPrefix(Go, ops, i);
      var fills := [];
      match ops[i] {
        case Limit(id, buy, px, qty) => fills := book.LimitOrder(id, buy, px, qty);
        case Market(id, buy, qty) => fills := book.MarketOrder(id, buy, qty);
        case Cancel(target) => book.CancelOrder(target);
      }
      tape := tape + [fills];
    }
    assert ops[..|ops|] == ops;
  }

  method RunCpp(ops: seq<Op>) returns (tape: seq<seq<Fill>>)
    ensures tape == Tape(Cpp, ops)
  {
    var book := new CppEngine.OrderBook();
    tape := [];
    for i := 0 to |ops|
      invariant book.Valid() && fresh(book) && fresh(book.bidElems) && fresh(book.askElems)
      invariant book.view == Run(Cpp, ops[..i]) && tape == Tape(Cpp, ops[..i])
    {
      NextPrefix(Cpp, ops, i);
      var fills := [];
      match ops[i] {
        case Limit(id, buy, px, qty) => fills := book.LimitOrder(id, buy, px, qty);
        case Market(id, buy, qty) => fills := book.MarketOrder(id, buy, qty);
        case Cancel(target) => var _ := book.CancelOrder(target);
      }
      tape := tape + [fills];
    }
    assert ops[..|ops|] == ops;
  }

  method RunPython(ops: seq<Op>) returns (tape: seq<seq<Fill>>)
    ensures tape == Tape(Python, ops)
  {
    var book := new PythonEngine.OrderBook();
    tape := [];
    for i := 0 to |ops|
      invariant book.Valid() && fresh(book)
      invariant book.View() == Run(Python, ops[..i]) && tape == Tape(Python, ops[..i])
    {
      NextPrefix(Python, ops, i);
      var fills := [];
      match ops[i] {
        case Limit(id, buy, px, qty) => fills := book.LimitOrder(id, buy, px, qty);
        case Market(id, buy, qty) => fills := book.MarketOrder(id, buy, qty);
        case Cancel(target) => var _ := book.CancelOrder(target);
      }
      tape := tape + [fills];
    }
    assert ops[..|ops|] == ops;
  }

  method RunRust(ops: seq<Op>) returns (tape: seq<seq<Fill>>)
    ensures tape == Tape(Rust, ops)
  {
    var book := new RustEngine.Book();
    tape := [];
    for i := 0 to |ops|
      invariant book.Valid() && fresh(book)
      invariant book.View() == Run(Rust, ops[..i]) && tape == Tape(Rust, ops[..i])
    {
      NextPrefix(Rust, ops, i);
      var fills := [];
      match ops[i] {
        case Limit(id, buy, px, qty) => fills := book.LimitOrder(id, buy, px, qty);
        case Market(id, buy, qty) => fills := book.MarketOrder(id, buy, qty);
        case Cancel(target) => book.CancelOrder(target);
      }
      tape := tape + [fills];
    }
    assert ops[..|ops|] == ops;
  }

  /** Go and C++ report the same fills on every run. So do Rust and Python if every limit order that rests is
      fresh for its level, and then, if its id moreover rests nowhere else, all four report the fills of the
      reference book. */
  method RunAll(ops: seq<Op>)
    returns (go: seq<seq<Fill>>, python: seq<seq<Fill>>, rust: seq<seq<Fill>>, cpp: seq<seq<Fill>>)
    ensures |go| == |ops| && cpp == go
    ensures LevelFreshRun(ops) ==> python == go && rust == go
    ensures AdmittedRun(ops) ==> go == python == rust == cpp == TapeOf(ops)
  {
    go := RunGo(ops);
    python := RunPython(ops);
    rust := RunRust(ops);
    cpp := RunCpp(ops);
    GoIsCpp(ops);
    TapeLength(Go, ops);
    if LevelFreshRun(ops) {
      TapesAgree(Python, ops);
      TapesAgree(Rust, ops);
    }
    if AdmittedRun(ops) {
      EnginesRefineReference(Go, ops);
      EnginesRefineReference(Python, ops);
      EnginesRefineReference(Rust, ops);
    }
  }
}
