/**
 * The Hack assembler's symbol resolution (06/Assembler.py): the first pass, which enters
 * every label with the number of instructions before it, and the lookup that turns an
 * A-command's symbol into an address, allocating a fresh variable from 16 upwards for a
 * symbol seen for the first time.
 */
module Assembler {
  import opened Wrappers
  import opened Text
  import opened Rotation
  import opened HackLexer
  import opened HackParser
  import SymbolTable

  /** `_BASE_VAR_ADDR`: the first address given to a variable. */
  const BaseVarAddr: int := 16

  /** The position of the first EOF symbol in the queue, or its length when there is none. */
  function EofIndex(q: seq<Symbol>): (i: nat)
    ensures i <= |q|
    ensures forall j | 0 <= j < i :: q[j].kind != HackToken.EOF
    ensures i < |q| ==> q[i].kind == HackToken.EOF
  {
    if q == [] then 0 else if q[0].kind == HackToken.EOF then 0 else 1 + EofIndex(q[1..])
  }

  predicate HasEof(q: seq<Symbol>) {
    EofIndex(q) < |q|
  }

  lemma EofIndexUnique(q: seq<Symbol>, i: nat)
    requires i < |q| && q[i].kind == HackToken.EOF
    requires forall j | 0 <= j < i :: q[j].kind != HackToken.EOF
    ensures EofIndex(q) == i
  {
  }

  /** Reading `k` symbols before the first EOF brings that EOF `k` places nearer the front. */
  lemma EofIndexRotated(q: seq<Symbol>, k: nat)
    requires k <= EofIndex(q) < |q|
    ensures EofIndex(Rotated(q, k)) == EofIndex(q) - k
  {
    RotatedSplits(q, k);
    var r := q[k..] + q[..k];
    EofIndexUnique(r, EofIndex(q) - k);
  }

  /** An `advance` that does not raise reads only symbols before the first EOF. */
  lemma AdvanceProgress(st: State, q: seq<Symbol>)
    requires HasEof(q) && q[0].kind != HackToken.EOF
    ensures var r := AdvanceSpec(st, q);
      r.outcome.Pass? ==> HasEof(r.queue) && EofIndex(r.queue) < EofIndex(q)
  {
    AdvanceReads(st, q);
    var r := AdvanceSpec(st, q);
    if r.outcome.Pass? {
      if IsOperator(q[0], "@") {
        assert RotateOnce(q)[0] == q[1];
      }
      EofIndexRotated(q, Consumed(q));
    }
  }

  /** The commands the parser yields while `has_more_commands` holds: the fields after each
      `advance`, then the outcome, the fields and the queue where the loop stops. */
  datatype Trace = Trace(outcome: Outcome<ParseError>, commands: seq<State>, state: State, queue: seq<Symbol>)

  function Commands(st: State, q: seq<Symbol>): (r: Trace)
    requires HasEof(q)
    decreases EofIndex(q)
  {
    if q[0].kind == HackToken.EOF then Trace(Pass, [], st, q)
    else
      var s := AdvanceSpec(st, q);
      if s.outcome.Fail? then Trace(s.outcome, [], s.state, s.queue)
      else
        AdvanceProgress(st, q);
        var rest := Commands(s.state, s.queue);
        rest.(commands := [s.state] + rest.commands)
  }

  function Prepend(done: seq<State>, t: Trace): Trace {
    t.(commands := done + t.commands)
  }

  lemma PrependTwice(done: seq<State>, c: State, t: Trace)
    ensures Prepend(done, Prepend([c], t)) == Prepend(done + [c], t)
  {
    assert done + ([c] + t.commands) == (done + [c]) + t.commands;
  }

  /** One turn of the loop, for the result `s` of the `advance` it makes. */
  lemma CommandsStep(st: State, q: seq<Symbol>, s: Step)
    requires HasEof(q) && q[0].kind != HackToken.EOF && s == AdvanceSpec(st, q)
    ensures s.outcome.Fail? ==> Commands(st, q) == Trace(s.outcome, [], s.state, s.queue)
    ensures s.outcome.Pass? ==>
      HasEof(s.queue) && EofIndex(s.queue) < EofIndex(q)
      && s.state.commandType.Some?
      && Commands(st, q) == Prepend([s.state], Commands(s.state, s.queue))
  {
    AdvanceProgress(st, q);
  }

  /** The number of A- and C-commands among `cmds`. */
  function Instructions(cmds: seq<State>): nat {
    if cmds == [] then 0
    else
      var c := cmds[|cmds| - 1];
      Instructions(cmds[..|cmds| - 1])
        + (if c.commandType == Some(A_COMMAND) || c.commandType == Some(C_COMMAND) then 1 else 0)
  }

  /** The table after the first pass has seen `cmds`: each L-command's symbol is entered with
      the number of instructions before it. */
  function Labels(cmds: seq<State>, t0: map<string, int>): map<string, int> {
    if cmds == [] then t0
    else
      var p := cmds[..|cmds| - 1];
      var c := cmds[|cmds| - 1];
      if c.commandType == Some(L_COMMAND) && c.symbol.Some? then Labels(p, t0)[c.symbol.value := Instructions(p)]
      else Labels(p, t0)
  }

  /** The bookkeeping for one command: an A- or C-command counts, an L-command enters its
      symbol with the count so far. */
  function Tally(t: map<string, int>, count: nat, c: State): (map<string, int>, nat) {
    if c.commandType == Some(A_COMMAND) || c.commandType == Some(C_COMMAND) then (t, count + 1)
    else if c.commandType == Some(L_COMMAND) && c.symbol.Some? then (t[c.symbol.value := count], count)
    else (t, count)
  }

  lemma LabelsSnoc(done: seq<State>, c: State, t0: map<string, int>)
    ensures (Labels(done + [c], t0), Instructions(done + [c])) == Tally(Labels(done, t0), Instructions(done), c)
  {
    assert (done + [c])[..|done|] == done;
  }

  predicate Declares(c: State, s: string) {
    c.commandType == Some(L_COMMAND) && c.symbol == Some(s)
  }

  /** A label is mapped to the number of A- and C-commands before its last declaration. */
  lemma {:induction false} LabelAddress(cmds: seq<State>, t0: map<string, int>, i: nat, s: string)
    requires i < |cmds| && Declares(cmds[i], s)
    requires forall j | i < j < |cmds| :: !Declares(cmds[j], s)
    ensures s in Labels(cmds, t0) && Labels(cmds, t0)[s] == Instructions(cmds[..i])
    decreases |cmds|
  {
    var p := cmds[..|cmds| - 1];
    if i < |cmds| - 1 {
      LabelAddress(p, t0, i, s);
      assert p[..i] == cmds[..i];
    } else {
      assert p == cmds[..i];
    }
  }

  /** A symbol no L-command names keeps its entry, or its absence. */
  lemma {:induction false} LabelsKeep(cmds: seq<State>, t0: map<string, int>, s: string)
    requires forall j | 0 <= j < |cmds| :: !Declares(cmds[j], s)
    ensures s in Labels(cmds, t0) <==> s in t0
    ensures s in t0 ==> Labels(cmds, t0)[s] == t0[s]
    decreases |cmds|
  {
    if cmds != [] {
      LabelsKeep(cmds[..|cmds| - 1], t0, s);
    }
  }

  /** Every command the parser yields has a type, so the first pass's "Something went
      wrong" branch is never taken. */
  lemma {:induction false} CommandsTyped(st: State, q: seq<Symbol>)
    requires HasEof(q)
    ensures forall i | 0 <= i < |Commands(st, q).commands| :: Commands(st, q).commands[i].commandType.Some?
    decreases EofIndex(q)
  {
    if q[0].kind != HackToken.EOF {
      var s := AdvanceSpec(st, q);
      CommandsStep(st, q, s);
      if s.outcome.Pass? {
        CommandsTyped(s.state, s.queue);
      }
    }
  }

  lemma {:induction false} RotatedAdd<T>(q: seq<T>, a: nat, b: nat)
    ensures Rotated(Rotated(q, a), b) == Rotated(q, a + b)
    decreases b
  {
    if b > 0 {
      RotatedAdd(q, a, b - 1);
    }
  }

  /** A pass that does not raise stops with the first EOF at the front, having read every
      symbol before it. */
  lemma {:induction false} CommandsStopAtEof(st: State, q: seq<Symbol>)
    requires HasEof(q)
    ensures var r := Commands(st, q);
      r.outcome.Pass? ==> r.queue == Rotated(q, EofIndex(q)) && |r.queue| > 0 && r.queue[0].kind == HackToken.EOF
    decreases EofIndex(q)
  {
    if q[0].kind != HackToken.EOF {
      var s := AdvanceSpec(st, q);
      CommandsStep(st, q, s);
      if s.outcome.Pass? {
        var k := Consumed(q);
        AdvanceReads(st, q);
        assert s.queue == Rotated(q, k);
        CommandsStopAtEof(s.state, s.queue);
        EofIndexRotated(q, k);
        RotatedAdd(q, k, EofIndex(s.queue));
      }
    }
  }

  /** On the queue the lexer builds, the final `advance` of the first pass reads the EOF and
      so brings the queue back to its original order for the second pass. */
  lemma FirstPassResetsQueue(text: string, st: State)
    ensures var q := Scan(text, 0);
      HasEof(q) && EofIndex(q) == |q| - 1
      && (Commands(st, q).outcome.Pass? ==> RotateOnce(Commands(st, q).queue) == q)
  {
    var q := Scan(text, 0);
    ScanWellFormed(text, 0);
    EofIndexUnique(q, |q| - 1);
    CommandsStopAtEof(st, q);
    if Commands(st, q).outcome.Pass? {
      assert RotateOnce(Rotated(q, |q| - 1)) == Rotated(q, |q|);
      RotatedFullCircle(q);
    }
  }

  /** What `_get_address` gives and leaves behind. */
  datatype Resolved = Resolved(address: int, table: map<string, int>, varAddr: int)

  /** `_get_address`: a numeral is its own value; a known symbol its entry; an unknown one is
      entered at the next variable address, which then moves on by one. */
  function Resolve(table: map<string, int>, varAddr: int, symbol: string): Resolved {
    if IsNumeral(symbol) then Resolved(ParseDecimal(symbol), table, varAddr)
    else if symbol in table then Resolved(table[symbol], table, varAddr)
    else Resolved(varAddr, table[symbol := varAddr], varAddr + 1)
  }

  /** A second lookup of the same symbol gives the same address and changes nothing. */
  lemma ResolveIdempotent(table: map<string, int>, varAddr: int, symbol: string)
    ensures var r := Resolve(table, varAddr, symbol);
      Resolve(r.table, r.varAddr, symbol) == r
  {
  }

  /** Only a new non-numeral symbol allocates; everything else leaves table and counter alone. */
  lemma ResolveAllocates(table: map<string, int>, varAddr: int, symbol: string)
    ensures var r := Resolve(table, varAddr, symbol);
      (r.varAddr != varAddr <==> !IsNumeral(symbol) && symbol !in table)
      && (r.varAddr == varAddr ==> r.table == table)
      && (IsNumeral(symbol) ==> r.address == ParseDecimal(symbol))
      && (!IsNumeral(symbol) ==> symbol in r.table && r.table[symbol] == r.address)
  {
  }

  /** The addresses, table and counter after looking up `syms` in order. */
  function ResolveAll(table: map<string, int>, varAddr: int, syms: seq<string>): (seq<int>, Resolved) {
    if syms == [] then ([], Resolved(0, table, varAddr))
    else
      var (addrs, r) := ResolveAll(table, varAddr, syms[..|syms| - 1]);
      var r' := Resolve(r.table, r.varAddr, syms[|syms| - 1]);
      (addrs + [r'.address], r')
  }

  predicate DistinctStrings(syms: seq<string>) {
    forall i, j | 0 <= i < j < |syms| :: syms[i] != syms[j]
  }

  /** Distinct new variables get consecutive addresses in order of first use. */
  lemma {:induction false} ResolveAllConsecutive(table: map<string, int>, varAddr: int, syms: seq<string>)
    requires DistinctStrings(syms)
    requires forall i | 0 <= i < |syms| :: !IsNumeral(syms[i]) && syms[i] !in table
    ensures var (addrs, r) := ResolveAll(table, varAddr, syms);
      |addrs| == |syms| && r.varAddr == varAddr + |syms|
      && (forall i | 0 <= i < |syms| :: addrs[i] == varAddr + i)
      && (forall x :: x in r.table <==> x in table || x in syms)
    decreases |syms|
  {
    if syms != [] {
      var p := syms[..|syms| - 1];
      ResolveAllConsecutive(table, varAddr, p);
      var last := syms[|syms| - 1];
      assert last !in p;
      assert forall x :: x in syms <==> x in p || x == last by {
        assert syms == p + [last];
      }
    }
  }

  /** The assembler over the parser it builds, with the predefined table and the counter at 16.
      The output name derived from the input path is not part of this model. */
  class Assembler {
    const parser: Parser
    const symbolTable: SymbolTable.SymbolTable
    var varAddr: int

    constructor (text: string)
      ensures fresh(parser) && fresh(parser.lexer) && fresh(symbolTable)
      ensures parser.lexer.symbols == Scan(text, 0) && parser.Fields() == State(None, None)
      ensures symbolTable.table == SymbolTable.Predefined && varAddr == BaseVarAddr
    {
      parser := new Parser(text);
      symbolTable := new SymbolTable.SymbolTable();
      varAddr := BaseVarAddr;
    }

    /**
     * `_first_pass`: counts A- and C-commands and enters each label with the count so far,
     * then reads the EOF once more. An exception from the parser ends the pass with the
     * entries made so far kept.
     */
    method FirstPass() returns (o: Outcome<ParseError>)
      requires HasEof(parser.lexer.symbols)
      modifies parser, parser.lexer`symbols, symbolTable
      ensures var p := Commands(old(parser.Fields()), old(parser.lexer.symbols));
        symbolTable.table == Labels(p.commands, old(symbolTable.table))
        && (p.outcome.Fail? ==>
              o == p.outcome && parser.Fields() == p.state && parser.lexer.symbols == p.queue)
        && (p.outcome.Pass? ==>
              o == Pass && parser.Fields() == p.state.(commandType := Some(C_COMMAND))
              && parser.lexer.symbols == RotateOnce(p.queue))
      ensures varAddr == old(varAddr)
    {
      var instrCount := 0;
      ghost var p := Commands(parser.Fields(), parser.lexer.symbols);
      ghost var t0 := symbolTable.table;
      ghost var done: seq<State> := [];
      while parser.HasMoreCommands()
        invariant HasEof(parser.lexer.symbols)
        invariant p == Prepend(done, Commands(parser.Fields(), parser.lexer.symbols))
        invariant symbolTable.table == Labels(done, t0) && instrCount == Instructions(done)
        invariant varAddr == old(varAddr)
        decreases EofIndex(parser.lexer.symbols)
      {
        var r;
        r, instrCount := PassStep(instrCount);
        if r.Fail? {
          assert p.commands == done;
          return r;
        }
        LabelsSnoc(done, parser.Fields(), t0);
        PrependTwice(done, parser.Fields(), Commands(parser.Fields(), parser.lexer.symbols));
        done := done + [parser.Fields()];
      }
      assert p.commands == done;
      assert symbolTable.table == Labels(p.commands, t0);
      o := parser.Advance();
    }

    /** One turn of the first pass's loop: `advance`, then the bookkeeping. */
    method PassStep(instrCount: nat) returns (r: Outcome<ParseError>, count: nat)
      requires HasEof(parser.lexer.symbols) && parser.HasMoreCommands()
      modifies parser, parser.lexer`symbols, symbolTable
      ensures r.Fail? ==>
        Commands(old(parser.Fields()), old(parser.lexer.symbols)) == Trace(r, [], parser.Fields(), parser.lexer.symbols)
        && symbolTable.table == old(symbolTable.table)
      ensures r.Pass? ==>
        HasEof(parser.lexer.symbols) && EofIndex(parser.lexer.symbols) < EofIndex(old(parser.lexer.symbols))
        && Commands(old(parser.Fields()), old(parser.lexer.symbols))
           == Prepend([parser.Fields()], Commands(parser.Fields(), parser.lexer.symbols))
        && (symbolTable.table, count) == Tally(old(symbolTable.table), instrCount, parser.Fields())
      ensures varAddr == old(varAddr)
    {
      ghost var st, q := parser.Fields(), parser.lexer.symbols;
      r := parser.Advance();
      CommandsStep(st, q, Step(r, parser.Fields(), parser.lexer.symbols));
      count := instrCount;
      if r.Pass? {
        count := CountCommand(instrCount);
      }
    }

    /** The body of the first pass's loop after `advance`. A command without a type would
        raise "Something went wrong!"; the parser never leaves one. */
    method CountCommand(instrCount: nat) returns (count: nat)
      requires parser.commandType.Some?
      modifies symbolTable
      ensures (symbolTable.table, count) == Tally(old(symbolTable.table), instrCount, parser.Fields())
    {
      count := instrCount;
      match parser.commandType.value
      case A_COMMAND =>
        count := instrCount + 1;
      case C_COMMAND =>
        count := instrCount + 1;
      case L_COMMAND =>
        if parser.symbol.Some? {
          symbolTable.AddEntry(parser.symbol.value, instrCount);
        }
    }

    /** `_get_address`. */
    method GetAddress(symbol: string) returns (address: int)
      modifies this`varAddr, symbolTable
      ensures Resolved(address, symbolTable.table, varAddr) == Resolve(old(symbolTable.table), old(varAddr), symbol)
    {
      if IsNumeral(symbol) {
        return ParseDecimal(symbol);
      }
      if !symbolTable.Contains(symbol) {
        symbolTable.AddEntry(symbol, varAddr);
        varAddr := varAddr + 1;
      }
      var a := symbolTable.GetAddress(symbol);
      return a.value;
    }
  }
}
