/** The search for the debug symbol of an address: first onwards from where the last search
    ended, then from the start. */
module Symbols {
  import opened Uxn

  datatype Symbol = Symbol(isOpcode: bool, addrMin: nat, addrMax: nat, filename: string, line: nat, col: nat)

  type Table = seq<Symbol>

  predicate Contains(sym: Symbol, address: nat) {
    sym.isOpcode && sym.addrMin <= address <= sym.addrMax
  }

  /** The opcode symbols cover disjoint ranges in ascending order; other symbols may be anywhere. */
  ghost predicate Sorted(table: Table) {
    && (forall i :: 0 <= i < |table| && table[i].isOpcode ==> table[i].addrMin <= table[i].addrMax)
    && (forall i, j :: 0 <= i < j < |table| && table[i].isOpcode && table[j].isOpcode ==> table[i].addrMax < table[j].addrMin)
  }

  /** The index of the first symbol that contains an address. */
  function Lookup(table: Table, address: nat): (r: Option<nat>)
    ensures r.Some? ==> r.value < |table| && Contains(table[r.value], address)
    ensures r.None? ==> forall i :: 0 <= i < |table| ==> !Contains(table[i], address)
  {
    if table == [] then None
    else
      var n := |table| - 1;
      var r := Lookup(table[..n], address);
      if r.Some? then r
      else if Contains(table[n], address) then Some(n) else None
  }

  /** In a sorted table no other symbol contains the address. */
  lemma LookupUnique(table: Table, address: nat, i: nat)
    requires Sorted(table) && i < |table| && Contains(table[i], address)
    ensures Lookup(table, address) == Some(i)
  {
    var r := Lookup(table, address);
    assert r.Some?;
  }

  /** One pass over the table, from "from" up to "end": the first symbol that contains the
      address, and where the pass stopped. */
  method Scan(table: Table, address: nat, from: nat, end: nat) returns (found: bool, index: nat)
    requires from <= end <= |table| && Sorted(table)
    ensures from <= index <= end
    ensures found ==> index < end && Contains(table[index], address)
    ensures !found ==> forall i :: from <= i < end ==> !Contains(table[i], address)
  {
    index := from;
    while index < end
      invariant from <= index <= end
      invariant forall i :: from <= i < index ==> !Contains(table[i], address)
    {
      if table[index].isOpcode {
        if table[index].addrMin <= address && address <= table[index].addrMax {
          return true, index;
        }
        if table[index].addrMin > address {
          return false, index;
        }
      }
      index := index + 1;
    }
    found := false;
  }

  /** The symbol of an address, and the hint for the next search.  Whatever the hint, the
      result is the symbol that contains the address, if there is one. */
  method FindSymbol(table: Table, address: nat, hint: nat) returns (symbol: Option<nat>, newHint: nat)
    requires Sorted(table) && hint <= |table|
    ensures symbol == Lookup(table, address)
    ensures newHint <= |table| && (symbol.Some? ==> newHint == symbol.value)
  {
    // Onwards from the hint.
    var found, index := Scan(table, address, hint, |table|);
    if found {
      LookupUnique(table, address, index);
      return Some(index), index;
    }
    // From the start up to the hint.
    found, index := Scan(table, address, 0, hint);
    newHint := index;
    if found {
      LookupUnique(table, address, index);
      symbol := Some(index);
    } else {
      symbol := None;
    }
  }
}
