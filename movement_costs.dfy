/**
 * The strategic movement-cost tables: four grids read from a JSON document.
 * Three of them hold traversibility names that a `mapping` object turns into
 * numbers; the fourth holds travel ratings as plain integers. Every grid must
 * have an exact number of rows and columns.
 *
 * The JSON document is modelled by its members: the `mapping` object as the
 * list of its (name, value) members in document order, each grid as rows of
 * strings or integers, and an absent member as `None`.
 */
module MovementCosts {
  import opened Wrappers

  type uint8 = x: int | 0 <= x < 0x100

  /** The C++ conversion of a JSON integer to `uint8_t`: the value modulo 256. */
  function ToUint8(v: int): (b: uint8)
    ensures (b - v) % 0x100 == 0
    ensures 0 <= v < 0x100 ==> b == v
  {
    v % 0x100
  }

  type Grid = seq<seq<uint8>>

  /** Why loading fails: a member assertion, `mapping.at` throwing, or a size assertion. */
  datatype LoadError =
    | MissingMember(member: string)
    | UnknownName(row: nat, col: nat)
    | WrongColumnCount(row: nat)
    | WrongRowCount

  /** `g` has exactly `rows` rows of exactly `cols` entries each. */
  predicate Shaped<T>(g: seq<seq<T>>, rows: nat, cols: nat)
  {
    |g| == rows && forall i :: 0 <= i < |g| ==> |g[i]| == cols
  }

  /** Every name in the grid has an entry in the mapping. */
  predicate AllMapped(names: seq<seq<string>>, mapping: map<string, uint8>)
  {
    forall i, j :: 0 <= i < |names| && 0 <= j < |names[i]| ==> names[i][j] in mapping
  }

  /** The first `n` rows pass the reader's checks: `cols` entries each, all of them known names. */
  predicate NameRowsAccepted(names: seq<seq<string>>, mapping: map<string, uint8>, cols: nat, n: nat)
    requires n <= |names|
  {
    forall i :: 0 <= i < n ==> |names[i]| == cols && forall j :: 0 <= j < |names[i]| ==> names[i][j] in mapping
  }

  /** The first `n` rows have `cols` entries each. */
  predicate IntRowsAccepted(json: seq<seq<int>>, cols: nat, n: nat)
    requires n <= |json|
  {
    forall i :: 0 <= i < n ==> |json[i]| == cols
  }

  /** `g` is `names` cell by cell through the mapping, keeping row and column order. */
  predicate NamesDecoded(names: seq<seq<string>>, mapping: map<string, uint8>, g: Grid)
  {
    |g| == |names| &&
    (forall i :: 0 <= i < |g| ==> |g[i]| == |names[i]|) &&
    (forall i, j :: 0 <= i < |g| && 0 <= j < |g[i]| ==>
       names[i][j] in mapping && g[i][j] == mapping[names[i][j]])
  }

  /** `g` is `json` cell by cell converted to `uint8_t`, keeping row and column order. */
  predicate IntsDecoded(json: seq<seq<int>>, g: Grid)
  {
    |g| == |json| &&
    (forall i :: 0 <= i < |g| ==> |g[i]| == |json[i]|) &&
    (forall i, j :: 0 <= i < |g| && 0 <= j < |g[i]| ==> g[i][j] == ToUint8(json[i][j]))
  }

  /**
   * Reads a grid of traversibility names through `mapping`. Rows are read in order; within
   * a row an unknown name throws, then the row's length is checked, and after the last row
   * the number of rows is checked. The first failing check is the error reported.
   */
  method ReadTraversibilityIntoVector(json: seq<seq<string>>, mapping: map<string, uint8>,
                                      expectedRows: nat, expectedCols: nat)
    returns (r: Result<Grid, LoadError>)
    ensures r.Success? <==> Shaped(json, expectedRows, expectedCols) && AllMapped(json, mapping)
    ensures r.Success? ==> Shaped(r.value, expectedRows, expectedCols) && NamesDecoded(json, mapping, r.value)
    ensures r.Failure? && r.error.UnknownName? ==>
              var i, j := r.error.row, r.error.col;
              i < |json| && j < |json[i]| && json[i][j] !in mapping &&
              NameRowsAccepted(json, mapping, expectedCols, i) &&
              forall c :: 0 <= c < j ==> json[i][c] in mapping
    ensures r.Failure? && r.error.WrongColumnCount? ==>
              var i := r.error.row;
              i < |json| && |json[i]| != expectedCols &&
              NameRowsAccepted(json, mapping, expectedCols, i) &&
              forall c :: 0 <= c < |json[i]| ==> json[i][c] in mapping
    ensures r.Failure? && r.error.WrongRowCount? ==>
              NameRowsAccepted(json, mapping, expectedCols, |json|) && |json| != expectedRows
    ensures r.Failure? ==> !r.error.MissingMember?
  {
    var vec: Grid := [];
    var i := 0;
    while i < |json|
      invariant 0 <= i <= |json| && |vec| == i
      invariant NameRowsAccepted(json, mapping, expectedCols, i)
      invariant NamesDecoded(json[..i], mapping, vec)
    {
      var row: seq<uint8> := [];
      var j := 0;
      while j < |json[i]|
        invariant 0 <= j <= |json[i]| && |row| == j
        invariant forall c :: 0 <= c < j ==> json[i][c] in mapping && row[c] == mapping[json[i][c]]
      {
        var name := json[i][j];
        if name !in mapping {
          return Failure(UnknownName(i, j));
        }
        row := row + [mapping[name]];
        j := j + 1;
      }
      if |row| != expectedCols {
        return Failure(WrongColumnCount(i));
      }
      assert json[..i + 1] == json[..i] + [json[i]];
      vec := vec + [row];
      i := i + 1;
    }
    assert json[..i] == json;
    if |vec| != expectedRows {
      return Failure(WrongRowCount);
    }
    return Success(vec);
  }

  /**
   * Reads a grid of integers, each converted to `uint8_t`. Each row's length is checked
   * when it has been read, and the number of rows at the end.
   */
  method ReadIntIntoVector(json: seq<seq<int>>, expectedRows: nat, expectedCols: nat)
    returns (r: Result<Grid, LoadError>)
    ensures r.Success? <==> Shaped(json, expectedRows, expectedCols)
    ensures r.Success? ==> Shaped(r.value, expectedRows, expectedCols) && IntsDecoded(json, r.value)
    ensures r.Failure? && r.error.WrongColumnCount? ==>
              r.error.row < |json| && |json[r.error.row]| != expectedCols &&
              IntRowsAccepted(json, expectedCols, r.error.row)
    ensures r.Failure? && r.error.WrongRowCount? ==>
              IntRowsAccepted(json, expectedCols, |json|) && |json| != expectedRows
    ensures r.Failure? ==> r.error.WrongColumnCount? || r.error.WrongRowCount?
  {
    var vec: Grid := [];
    var i := 0;
    while i < |json|
      invariant 0 <= i <= |json| && |vec| == i
      invariant IntRowsAccepted(json, expectedCols, i)
      invariant IntsDecoded(json[..i], vec)
    {
      var row: seq<uint8> := [];
      var j := 0;
      while j < |json[i]|
        invariant 0 <= j <= |json[i]| && |row| == j
        invariant forall c :: 0 <= c < j ==> row[c] == ToUint8(json[i][c])
      {
        row := row + [ToUint8(json[i][j])];
        j := j + 1;
      }
      if |row| != expectedCols {
        return Failure(WrongColumnCount(i));
      }
      assert json[..i + 1] == json[..i] + [json[i]];
      vec := vec + [row];
      i := i + 1;
    }
    assert json[..i] == json;
    if |vec| != expectedRows {
      return Failure(WrongRowCount);
    }
    return Success(vec);
  }

  /**
   * The name-to-value table built from the members of the `mapping` object, in order.
   * `std::map::insert` does not replace an existing key, so the first member with a
   * given name decides its value; each value is converted to `uint8_t`.
   */
  function MappingOf(members: seq<(string, int)>): map<string, uint8>
  {
    if members == [] then map[]
    else
      var m := MappingOf(members[..|members| - 1]);
      var name := members[|members| - 1].0;
      if name in m then m else m[name := ToUint8(members[|members| - 1].1)]
  }

  /** The table's keys are exactly the names of the members. */
  lemma {:induction false} MappingOfKeys(members: seq<(string, int)>)
    ensures forall name :: name in MappingOf(members) <==>
              exists k :: 0 <= k < |members| && members[k].0 == name
  {
    if members != [] {
      var n := |members| - 1;
      var prefix := members[..n];
      MappingOfKeys(prefix);
      forall name
        ensures name in MappingOf(members) <==> exists k :: 0 <= k < |members| && members[k].0 == name
      {
        if name in MappingOf(prefix) {
          var k :| 0 <= k < |prefix| && prefix[k].0 == name;
          assert members[k].0 == name;
        } else if exists k :: 0 <= k < |members| && members[k].0 == name {
          var k :| 0 <= k < |members| && members[k].0 == name;
          if k < n {
            assert prefix[k].0 == name;
          }
        }
      }
    }
  }

  /** A name keeps the value of its first member: later members with the same name are ignored. */
  lemma {:induction false} MappingOfFirstWins(members: seq<(string, int)>, k: nat)
    requires k < |members|
    requires forall k' :: 0 <= k' < k ==> members[k'].0 != members[k].0
    ensures members[k].0 in MappingOf(members)
    ensures MappingOf(members)[members[k].0] == ToUint8(members[k].1)
  {
    var n := |members| - 1;
    var prefix := members[..n];
    if k == n {
      MappingOfKeys(prefix);
      assert members[k].0 !in MappingOf(prefix);
    } else {
      MappingOfFirstWins(prefix, k);
    }
  }

  /** The loaded tables. */
  datatype MovementCostsModel = MovementCostsModel(traverseWE: Grid, traverseNS: Grid,
                                                   traverseThrough: Grid, travelRatings: Grid)
  {
    /** The shapes a successful load produces: 16x17, 17x16, 16x16 and 16x16 (rows x columns). */
    predicate Valid()
    {
      Shaped(traverseWE, 16, 17) && Shaped(traverseNS, 17, 16) &&
      Shaped(traverseThrough, 16, 16) && Shaped(travelRatings, 16, 16)
    }

    /**
     * Cost of crossing the west-east edge at column `x` of row `y`. The bounds check is the
     * source's assertion; the index must also lie inside the stored grid, which only the
     * loaded shape guarantees (see `AccessorBounds`). The other accessors read only their
     * own grid in the same way.
     */
    function TraversibilityWestEast(x: uint8, y: uint8): (v: uint8)
      requires y < 16 && x <= 16
      requires y < |traverseWE| && x < |traverseWE[y]|
      ensures v == traverseWE[y][x]
    {
      traverseWE[y][x]
    }

    /** Cost of crossing the north-south edge at column `x` of row `y`. */
    function TraversibilityNorthSouth(x: uint8, y: uint8): (v: uint8)
      requires y <= 16 && x < 16
      requires y < |traverseNS| && x < |traverseNS[y]|
      ensures v == traverseNS[y][x]
    {
      traverseNS[y][x]
    }

    /** Cost of passing through the sector at column `x` of row `y`. */
    function TraversibilityThrough(x: uint8, y: uint8): (v: uint8)
      requires y < 16 && x < 16
      requires y < |traverseThrough| && x < |traverseThrough[y]|
      ensures v == traverseThrough[y][x]
    {
      traverseThrough[y][x]
    }

    /** Travel rating of the sector at column `x` of row `y`. */
    function TravelRating(x: uint8, y: uint8): (v: uint8)
      requires y < 16 && x < 16
      requires y < |travelRatings| && x < |travelRatings[y]|
      ensures v == travelRatings[y][x]
    {
      travelRatings[y][x]
    }
  }

  /**
   * Each accessor's bounds check admits exactly the cells of its grid in a model of the
   * loaded shape: no valid cell is refused and no out-of-range cell is read.
   */
  lemma AccessorBounds(m: MovementCostsModel, x: nat, y: nat)
    requires m.Valid()
    ensures (y < |m.traverseWE| && x < |m.traverseWE[y]|) <==> (y < 16 && x <= 16)
    ensures (y < |m.traverseNS| && x < |m.traverseNS[y]|) <==> (y <= 16 && x < 16)
    ensures (y < |m.traverseThrough| && x < |m.traverseThrough[y]|) <==> (y < 16 && x < 16)
    ensures (y < |m.travelRatings| && x < |m.travelRatings[y]|) <==> (y < 16 && x < 16)
  {
  }

  /** The parsed JSON document: each member the loader asks for, absent or present. */
  datatype Document = Document(
    mapping: Option<seq<(string, int)>>,
    traverseWE: Option<seq<seq<string>>>,
    traverseNS: Option<seq<seq<string>>>,
    traverseThrough: Option<seq<seq<string>>>,
    travelRatings: Option<seq<seq<int>>>)

  /** Every member is present, and every grid has its exact shape and only known names. */
  predicate Loadable(doc: Document)
  {
    doc.mapping.Some? && doc.traverseWE.Some? && doc.traverseNS.Some? &&
    doc.traverseThrough.Some? && doc.travelRatings.Some? &&
    var m := MappingOf(doc.mapping.value);
    Shaped(doc.traverseWE.value, 16, 17) && AllMapped(doc.traverseWE.value, m) &&
    Shaped(doc.traverseNS.value, 17, 16) && AllMapped(doc.traverseNS.value, m) &&
    Shaped(doc.traverseThrough.value, 16, 16) && AllMapped(doc.traverseThrough.value, m) &&
    Shaped(doc.travelRatings.value, 16, 16)
  }

  /**
   * Loads the four tables: builds the name table from the `mapping` members, then reads
   * traverseWE (16x17), traverseNS (17x16), traverseThrough (16x16) through it and
   * travelRatings (16x16) as integers, stopping at the first failure.
   */
  method Deserialize(doc: Document) returns (r: Result<MovementCostsModel, LoadError>)
    ensures r.Success? <==> Loadable(doc)
    ensures r.Success? ==>
              var m := MappingOf(doc.mapping.value);
              r.value.Valid() &&
              NamesDecoded(doc.traverseWE.value, m, r.value.traverseWE) &&
              NamesDecoded(doc.traverseNS.value, m, r.value.traverseNS) &&
              NamesDecoded(doc.traverseThrough.value, m, r.value.traverseThrough) &&
              IntsDecoded(doc.travelRatings.value, r.value.travelRatings)
    ensures r.Success? ==>
              forall x: uint8, y: uint8 :: y < 16 && x <= 16 ==>
                r.value.TraversibilityWestEast(x, y) == MappingOf(doc.mapping.value)[doc.traverseWE.value[y][x]]
    ensures r.Success? ==>
              forall x: uint8, y: uint8 :: y <= 16 && x < 16 ==>
                r.value.TraversibilityNorthSouth(x, y) == MappingOf(doc.mapping.value)[doc.traverseNS.value[y][x]]
    ensures r.Success? ==>
              forall x: uint8, y: uint8 :: y < 16 && x < 16 ==>
                r.value.TraversibilityThrough(x, y) == MappingOf(doc.mapping.value)[doc.traverseThrough.value[y][x]]
    ensures r.Success? ==>
              forall x: uint8, y: uint8 :: y < 16 && x < 16 ==>
                r.value.TravelRating(x, y) == ToUint8(doc.travelRatings.value[y][x])
    ensures doc.mapping.None? ==> r == Failure(MissingMember("mapping"))
    ensures doc.mapping.Some? && doc.traverseWE.None? ==> r == Failure(MissingMember("traverseWE"))
  {
    if doc.mapping.None? {
      return Failure(MissingMember("mapping"));
    }
    var members := doc.mapping.value;
    var mapToEnum: map<string, uint8> := map[];
    var k := 0;
    while k < |members|
      invariant 0 <= k <= |members|
      invariant mapToEnum == MappingOf(members[..k])
    {
      assert members[..k + 1][..k] == members[..k];
      if members[k].0 !in mapToEnum {
        mapToEnum := mapToEnum[members[k].0 := ToUint8(members[k].1)];
      }
      k := k + 1;
    }
    assert members[..k] == members;

    if doc.traverseWE.None? {
      return Failure(MissingMember("traverseWE"));
    }
    var we := ReadTraversibilityIntoVector(doc.traverseWE.value, mapToEnum, 16, 17);
    if we.Failure? {
      return Failure(we.error);
    }

    if doc.traverseNS.None? {
      return Failure(MissingMember("traverseNS"));
    }
    var ns := ReadTraversibilityIntoVector(doc.traverseNS.value, mapToEnum, 17, 16);
    if ns.Failure? {
      return Failure(ns.error);
    }

    if doc.traverseThrough.None? {
      return Failure(MissingMember("traverseThrough"));
    }
    var through := ReadTraversibilityIntoVector(doc.traverseThrough.value, mapToEnum, 16, 16);
    if through.Failure? {
      return Failure(through.error);
    }

    if doc.travelRatings.None? {
      return Failure(MissingMember("travelRatings"));
    }
    var ratings := ReadIntIntoVector(doc.travelRatings.value, 16, 16);
    if ratings.Failure? {
      return Failure(ratings.error);
    }

    return Success(MovementCostsModel(we.value, ns.value, through.value, ratings.value));
  }
}
