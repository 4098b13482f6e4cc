/** Column identifiers of a downloaded price table and their normalisation
    to single lower-case names (app.py, lines 120-126), and the lookup
    `data['close']` that the statistics and the chart use (app.py, line 134). */
module Columns {
  import opened Text

  /** A column identifier as the market-data provider returns it: a plain
      label, or a composite (multi-level) identifier, which always has a first level. */
  datatype ColumnId = Label(name: string) | Composite(first: string, rest: seq<string>)

  /** The single name a column identifier is normalised to. */
  function NormalizedName(c: ColumnId): (r: string)
    ensures c.Label? ==> r == Lower(c.name)
    ensures c.Composite? ==> r == Lower(c.first)
    ensures forall i :: 0 <= i < |r| ==> !IsUpperAscii(r[i])
  {
    match c
    case Label(name) => Lower(name)
    case Composite(first, _) => Lower(first)
  }

  /** Specification of the normalisation loop: one name per identifier, in order. */
  function NormalizeAll(cols: seq<ColumnId>): (names: seq<string>)
    ensures |names| == |cols|
    ensures forall i :: 0 <= i < |cols| ==> names[i] == NormalizedName(cols[i])
  {
    seq(|cols|, i requires 0 <= i < |cols| => NormalizedName(cols[i]))
  }

  /** The loop of app.py, lines 120-126: append the lower-cased name (the first
      level's, for a composite identifier) of each column to `new_columns`. */
  method NormalizeColumns(cols: seq<ColumnId>) returns (newColumns: seq<string>)
    ensures |newColumns| == |cols|
    ensures forall i :: 0 <= i < |cols| ==>
              newColumns[i] == (if cols[i].Composite? then Lower(cols[i].first) else Lower(cols[i].name))
    ensures newColumns == NormalizeAll(cols)
  {
    newColumns := [];
    for k := 0 to |cols|
      invariant |newColumns| == k
      invariant forall i :: 0 <= i < k ==> newColumns[i] == NormalizedName(cols[i])
    {
      var col := cols[k];
      if col.Composite? {
        newColumns := newColumns + [Lower(col.first)];
      } else {
        newColumns := newColumns + [Lower(col.name)];
      }
    }
  }

  /** Normalising names that are already normalised leaves them as they are. */
  lemma NormalizeIdempotent(cols: seq<ColumnId>)
    ensures NormalizeAll(seq(|cols|, i requires 0 <= i < |cols| => Label(NormalizeAll(cols)[i]))) == NormalizeAll(cols)
  {
    var names := NormalizeAll(cols);
    var relabelled := seq(|cols|, i requires 0 <= i < |cols| => Label(names[i]));
    forall i | 0 <= i < |cols|
      ensures NormalizeAll(relabelled)[i] == names[i]
    {
      LowerIdempotent(NormalizedName(cols[i]));
    }
  }

  /** The positions, in increasing order, of the columns named `key`,
      counting from position `from`. */
  function PositionsFrom(names: seq<string>, key: string, from: nat): (r: seq<nat>)
    requires from <= |names|
    ensures forall k :: 0 <= k < |r| ==> from <= r[k] < |names| && names[r[k]] == key
    ensures forall k, l :: 0 <= k < l < |r| ==> r[k] < r[l]
    ensures forall j :: from <= j < |names| && names[j] == key ==> j in r
    decreases |names| - from
  {
    if from == |names| then []
    else if names[from] == key then [from] + PositionsFrom(names, key, from + 1)
    else PositionsFrom(names, key, from + 1)
  }

  /** The columns `data[key]` selects: every column named `key`, left to right.
      None means a `KeyError`; one means a single column; more than one means
      a sub-table with that many columns. */
  function Positions(names: seq<string>, key: string): (r: seq<nat>)
    ensures forall k :: 0 <= k < |r| ==> r[k] < |names| && names[r[k]] == key
    ensures forall k, l :: 0 <= k < l < |r| ==> r[k] < r[l]
    ensures forall j :: 0 <= j < |names| && names[j] == key ==> j in r
    ensures r == [] <==> forall j :: 0 <= j < |names| ==> names[j] != key
  {
    var r := PositionsFrom(names, key, 0);
    assert r != [] ==> names[r[0]] == key;
    r
  }

  /** The first selected column is the left-most column named `key`. */
  lemma FirstPositionIsLeftmost(names: seq<string>, key: string)
    requires Positions(names, key) != []
    ensures names[Positions(names, key)[0]] == key
    ensures forall j :: 0 <= j < Positions(names, key)[0] ==> names[j] != key
  {
  }
}
