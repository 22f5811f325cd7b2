/**
 * The assembler's symbol table (06/SymbolTable.py). The source keeps the table in a
 * class-level dictionary shared by every instance; the model has one table per object,
 * which is the same thing for the single instance an assembler run creates.
 */
module SymbolTable {
  import opened Wrappers
  import opened Text

  /** The predefined symbols: R0-R15, SCREEN, KBD and the five VM pointers. */
  const Predefined: map<string, int> :=
    map["R0" := 0, "R1" := 1, "R2" := 2, "R3" := 3,
        "R4" := 4, "R5" := 5, "R6" := 6, "R7" := 7,
        "R8" := 8, "R9" := 9, "R10" := 10, "R11" := 11,
        "R12" := 12, "R13" := 13, "R14" := 14, "R15" := 15,
        "SCREEN" := 16384, "KBD" := 24576,
        "SP" := 0, "LCL" := 1, "ARG" := 2, "THIS" := 3, "THAT" := 4]

  /** The register names R0-R15 are predefined with their own numbers. */
  lemma PredefinedRegisters(k: nat)
    requires k < 16
    ensures "R" + Decimal(k) in Predefined && Predefined["R" + Decimal(k)] == k
  {
    if k < 4 {
      RegistersR0(k);
    } else if k < 8 {
      RegistersR4(k);
    } else if k < 12 {
      RegistersR8(k);
    } else {
      RegistersR12(k);
    }
  }

  /** R0-R3. */
  lemma RegistersR0(k: nat)
    requires k < 4
    ensures "R" + Decimal(k) in Predefined && Predefined["R" + Decimal(k)] == k
  {
    if k == 0 {
      assert "R" + Decimal(k) == "R0";
    } else if k == 1 {
      assert "R" + Decimal(k) == "R1";
    } else if k == 2 {
      assert "R" + Decimal(k) == "R2";
    } else {
      assert "R" + Decimal(k) == "R3";
    }
  }

  /** R4-R7. */
  lemma RegistersR4(k: nat)
    requires 4 <= k < 8
    ensures "R" + Decimal(k) in Predefined && Predefined["R" + Decimal(k)] == k
  {
    if k == 4 {
      assert "R" + Decimal(k) == "R4";
    } else if k == 5 {
      assert "R" + Decimal(k) == "R5";
    } else if k == 6 {
      assert "R" + Decimal(k) == "R6";
    } else {
      assert "R" + Decimal(k) == "R7";
    }
  }

  /** R8-R11. */
  lemma RegistersR8(k: nat)
    requires 8 <= k < 12
    ensures "R" + Decimal(k) in Predefined && Predefined["R" + Decimal(k)] == k
  {
    if k == 8 {
      assert "R" + Decimal(k) == "R8";
    } else if k == 9 {
      assert "R" + Decimal(k) == "R9";
    } else if k == 10 {
      assert "R" + Decimal(k) == "R10";
    } else {
      assert "R" + Decimal(k) == "R11";
    }
  }

  /** R12-R15. */
  lemma RegistersR12(k: nat)
    requires 12 <= k < 16
    ensures "R" + Decimal(k) in Predefined && Predefined["R" + Decimal(k)] == k
  {
    if k == 12 {
      assert "R" + Decimal(k) == "R12";
    } else if k == 13 {
      assert "R" + Decimal(k) == "R13";
    } else if k == 14 {
      assert "R" + Decimal(k) == "R14";
    } else {
      assert "R" + Decimal(k) == "R15";
    }
  }

  /** Every predefined address is a 15-bit address. */
  lemma PredefinedInRange(s: string)
    requires s in Predefined
    ensures 0 <= Predefined[s] < 0x8000
  {
  }

  class SymbolTable {
    var table: map<string, int>

    constructor ()
      ensures table == Predefined
    {
      table := Predefined;
    }

    /** `add_entry`: adds or overwrites one symbol and keeps every other entry. */
    method AddEntry(symbol: string, address: int)
      modifies this
      ensures table == old(table)[symbol := address]
      ensures Contains(symbol) && GetAddress(symbol) == Some(address)
      ensures forall other | other != symbol :: GetAddress(other) == old(GetAddress(other))
    {
      table := table[symbol := address];
    }

    function Contains(symbol: string): (r: bool)
      reads this
      ensures r <==> symbol in table
    {
      symbol in table
    }

    /** `get_address`: the stored address, or None exactly when the symbol is absent. */
    function GetAddress(symbol: string): (r: Option<int>)
      reads this
      ensures r.None? <==> !Contains(symbol)
      ensures r.Some? ==> r.value == table[symbol]
    {
      if symbol in table then Some(table[symbol]) else None
    }
  }
}
