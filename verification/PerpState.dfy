/** The simulator's saved state (`to_state`, `from_state`): maps and sets written out as lists, and read back. */
module PerpState {
  import opened Ordering
  import opened PerpVenue

  const SCHEMA := 1

  /** A position as saved: its late adds are a sorted list of pairs. */
  datatype SavedPosition = SavedPosition(symbol: int, side: Side, size: Qty, entry: real, stop: real, takeProfit: real,
                                         leverage: real, openedAt: int, lateAdds: seq<(int, real)>, verified: bool)

  datatype Saved = Saved(schema: int, fingerprint: int, params: Params, index: int, leverage: real, cash: real,
                         orderSeq: nat,
                         orders: seq<Order>, positions: seq<SavedPosition>, feesPaid: real, fundingPaid: real,
                         fillLog: seq<Fill>, fundingLog: seq<Charge>, liquidations: seq<Liquidation>, funded: seq<Key>,
                         unprotected: seq<Unprotected>, exits: seq<(Fill, int)>, failStops: nat, forfeited: real,
                         unprinted: nat, volumeUsed: seq<(int, int, real)>)

  // ---------------------------------------------------------------- reading back

  function LateOf(rows: seq<(int, real)>): map<int, real>
    decreases |rows|
  {
    if rows == [] then map[] else LateOf(rows[..|rows| - 1])[rows[|rows| - 1].0 := rows[|rows| - 1].1]
  }

  function PositionOf(row: SavedPosition): Position
  {
    Position(row.side, row.size, row.entry, row.stop, row.takeProfit, row.leverage, row.openedAt,
             LateOf(row.lateAdds), row.verified)
  }

  function PositionsOf(rows: seq<SavedPosition>): map<int, Position>
    decreases |rows|
  {
    if rows == [] then map[]
    else PositionsOf(rows[..|rows| - 1])[rows[|rows| - 1].symbol := PositionOf(rows[|rows| - 1])]
  }

  function VolumesOf(rows: seq<(int, int, real)>): map<int, (int, real)>
    decreases |rows|
  {
    if rows == [] then map[]
    else VolumesOf(rows[..|rows| - 1])[rows[|rows| - 1].0 := (rows[|rows| - 1].1, rows[|rows| - 1].2)]
  }

  /** The state a saved record stands for. */
  ghost function Restored(r: Saved): State
  {
    State(r.index, r.leverage, Purse(r.cash, r.fundingPaid, r.fundingLog, (set k | k in r.funded), r.unprinted),
          PositionsOf(r.positions), r.orders, r.orderSeq, r.feesPaid, r.fillLog, r.exits, r.liquidations, r.unprotected,
          r.failStops, r.forfeited, VolumesOf(r.volumeUsed))
  }

  // ---------------------------------------------------------------- writing out

  /** The part of a map its first `n` keys make. */
  ghost function Part<V>(m: map<int, V>, keys: seq<int>): map<int, V> { map k | k in m && k in keys :: m[k] }

  lemma PartAll<V>(m: map<int, V>)
    ensures Part(m, Ascending(m.Keys)) == m
  {
    forall k | k in m ensures k in Part(m, Ascending(m.Keys)) { assert k in Ascending(m.Keys); }
  }

  lemma PartGrows<V>(m: map<int, V>, keys: seq<int>, i: nat)
    requires i < |keys| && keys[i] in m
    ensures Part(m, keys[..i + 1]) == Part(m, keys[..i])[keys[i] := m[keys[i]]]
  {
    assert keys[..i + 1] == keys[..i] + [keys[i]];
  }

  lemma InAscending(s: set<int>, i: nat)
    requires i < |Ascending(s)|
    ensures Ascending(s)[i] in s
  {
    assert Ascending(s)[i] in Ascending(s);
  }

  method SaveLate(late: map<int, real>) returns (rows: seq<(int, real)>)
    ensures LateOf(rows) == late
  {
    hide Ascending;
    rows := [];
    var keys := Ascending(late.Keys);
    for i := 0 to |keys|
      invariant LateOf(rows) == Part(late, keys[..i])
    {
      InAscending(late.Keys, i);
      PartGrows(late, keys, i);
      var before := rows;
      rows := rows + [(keys[i], late[keys[i]])];
      assert rows[..|rows| - 1] == before;
    }
    assert keys[..|keys|] == keys;
    PartAll(late);
  }

  method SavePositions(positions: map<int, Position>) returns (rows: seq<SavedPosition>)
    ensures PositionsOf(rows) == positions
  {
    hide Ascending;
    rows := [];
    var keys := Ascending(positions.Keys);
    for i := 0 to |keys|
      invariant PositionsOf(rows) == Part(positions, keys[..i])
    {
      InAscending(positions.Keys, i);
      PartGrows(positions, keys, i);
      var p := positions[keys[i]];
      var late := SaveLate(p.lateAdds);
      var before := rows;
      rows := rows + [SavedPosition(keys[i], p.side, p.size, p.entry, p.stop, p.takeProfit, p.leverage, p.openedAt,
                                    late, p.verified)];
      assert rows[..|rows| - 1] == before;
    }
    assert keys[..|keys|] == keys;
    PartAll(positions);
  }

  method SaveVolumes(used: map<int, (int, real)>) returns (rows: seq<(int, int, real)>)
    ensures VolumesOf(rows) == used
  {
    hide Ascending;
    rows := [];
    var keys := Ascending(used.Keys);
    for i := 0 to |keys|
      invariant VolumesOf(rows) == Part(used, keys[..i])
    {
      InAscending(used.Keys, i);
      PartGrows(used, keys, i);
      var before := rows;
      rows := rows + [(keys[i], used[keys[i]].0, used[keys[i]].1)];
      assert rows[..|rows| - 1] == before;
    }
    assert keys[..|keys|] == keys;
    PartAll(used);
  }

  /** The funded keys as a list; its order is no part of what it means. */
  method SaveKeys(keys: set<Key>) returns (rows: seq<Key>)
    ensures forall k :: k in rows <==> k in keys
  {
    rows := [];
    var rest := keys;
    while rest != {}
      invariant forall k :: k in keys <==> k in rows || k in rest
      decreases |rest|
    {
      ghost var any := AnyOf(rest);
      var k :| k in rest;
      rows := rows + [k];
      rest := rest - {k};
    }
  }

  method LoadPositions(rows: seq<SavedPosition>) returns (positions: map<int, Position>)
    ensures positions == PositionsOf(rows)
  {
    positions := map[];
    for i := 0 to |rows|
      invariant positions == PositionsOf(rows[..i])
    {
      assert rows[..i + 1][..i] == rows[..i];
      var late := LoadLate(rows[i].lateAdds);
      var row := rows[i];
      positions := positions[row.symbol :=
      Position(row.side, row.size, row.entry, row.stop, row.takeProfit, row.leverage,
               row.openedAt, late, row.verified)];
    }
    assert rows[..|rows|] == rows;
  }

  method LoadLate(rows: seq<(int, real)>) returns (late: map<int, real>)
    ensures late == LateOf(rows)
  {
    late := map[];
    for i := 0 to |rows|
      invariant late == LateOf(rows[..i])
    {
      assert rows[..i + 1][..i] == rows[..i];
      late := late[rows[i].0 := rows[i].1];
    }
    assert rows[..|rows|] == rows;
  }

  method LoadVolumes(rows: seq<(int, int, real)>) returns (used: map<int, (int, real)>)
    ensures used == VolumesOf(rows)
  {
    used := map[];
    for i := 0 to |rows|
      invariant used == VolumesOf(rows[..i])
    {
      assert rows[..i + 1][..i] == rows[..i];
      used := used[rows[i].0 := (rows[i].1, rows[i].2)];
    }
    assert rows[..|rows|] == rows;
  }

  // ---------------------------------------------------------------- splitting a run

  /** Stopping between two actions and going on from the state reached changes nothing. */
  lemma {:induction false} RunSplits(c: Config, s: State, first: seq<Action>, rest: seq<Action>)
    requires 0.0 <= c.params.maintenance < 1.0
    ensures Run(c, s, first + rest) == Run(c, Run(c, s, first), rest)
    decreases |first|
  {
    hide Act;
    if first == [] {
      assert first + rest == rest;
    } else {
      assert (first + rest)[0] == first[0] && (first + rest)[1..] == first[1..] + rest;
      RunSplits(c, Act(c, s, first[0]), first[1..], rest);
    }
  }
}
