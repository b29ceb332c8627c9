/**
 The column contract shared by the feature record, the scaler and the
 model: the twelve columns in training order and the ten of them that are
 scaled.
 */
module Columns {
  import opened Sequences

  datatype Column = X | Y | Month | Day | FFMC | DMC | DC | ISI | Temp | RH | Wind | Rain

  /** The column's name as the record spells it. */
  function Name(c: Column): string {
    match c
    case X => "X"
    case Y => "Y"
    case Month => "month"
    case Day => "day"
    case FFMC => "FFMC"
    case DMC => "DMC"
    case DC => "DC"
    case ISI => "ISI"
    case Temp => "temp"
    case RH => "RH"
    case Wind => "wind"
    case Rain => "rain"
  }

  /** Distinct columns have distinct names, so naming a column by its string is unambiguous. */
  lemma NameInjective(a: Column, b: Column)
    ensures Name(a) == Name(b) ==> a == b
  {
  }

  /** Column order of the record built for the model, the order the artifacts were fit on. */
  const Schema: seq<Column> := [X, Y, Month, Day, FFMC, DMC, DC, ISI, Temp, RH, Wind, Rain]

  /** The columns handed to the scaler, in the order it was fit on. */
  const NumericalCols: seq<Column> := [X, Y, FFMC, DMC, DC, ISI, Temp, RH, Wind, Rain]

  /** The two columns that hold category codes and are never scaled. */
  const CodeCols: set<Column> := {Month, Day}

  /** The names of a list of columns, in order. */
  function Names(cols: seq<Column>): (names: seq<string>)
    ensures |names| == |cols|
  {
    seq(|cols|, i requires 0 <= i < |cols| => Name(cols[i]))
  }

  /** Named, the schema is the key order of the record's dict, and the scaled
      columns are the string list the scaler is indexed with. */
  lemma SchemaNames()
    ensures Names(Schema) ==
              ["X", "Y", "month", "day", "FFMC", "DMC", "DC", "ISI", "temp", "RH", "wind", "rain"]
    ensures Names(NumericalCols) ==
              ["X", "Y", "FFMC", "DMC", "DC", "ISI", "temp", "RH", "wind", "rain"]
    ensures Distinct(Names(Schema))
  {
  }

  /** Position of each column in the schema. */
  function Position(c: Column): nat {
    match c
    case X => 0
    case Y => 1
    case Month => 2
    case Day => 3
    case FFMC => 4
    case DMC => 5
    case DC => 6
    case ISI => 7
    case Temp => 8
    case RH => 9
    case Wind => 10
    case Rain => 11
  }

  /** The schema has twelve columns, each column exactly once, `month` and `day` third and fourth. */
  lemma SchemaShape()
    ensures |Schema| == 12 && Distinct(Schema)
    ensures forall c: Column :: Position(c) < 12 && Schema[Position(c)] == c
    ensures forall c: Column :: c in Schema
    ensures forall a: Column, b: Column :: Position(a) == Position(b) ==> a == b
    ensures Schema[2] == Month && Schema[3] == Day
  {
    forall c: Column ensures c in Schema {
      assert Schema[Position(c)] == c;
    }
  }

  /** The scaled columns are the schema with the `month, day` slice cut out,
      so they keep their schema order and none occurs twice. */
  lemma NumericalColsOrder()
    ensures Schema[2..4] == [Month, Day] && NumericalCols == Schema[..2] + Schema[4..]
    ensures |NumericalCols| == 10 && Distinct(NumericalCols)
    ensures InOrderWithin(Schema, NumericalCols)
  {
    SchemaShape();
    assert NumericalCols == Schema[..2] + Schema[4..];
    CutKeepsOrder(Schema, 2, 4);
    InOrderDistinct(Schema, NumericalCols);
  }

  /** A column is scaled exactly when it is not a code column. */
  lemma NumericalColsMembers()
    ensures forall c: Column :: c in NumericalCols <==> c !in CodeCols
  {
    forall c: Column ensures c in NumericalCols <==> c !in CodeCols {
      match c
      case X => assert NumericalCols[0] == c;
      case Y => assert NumericalCols[1] == c;
      case FFMC => assert NumericalCols[2] == c;
      case DMC => assert NumericalCols[3] == c;
      case DC => assert NumericalCols[4] == c;
      case ISI => assert NumericalCols[5] == c;
      case Temp => assert NumericalCols[6] == c;
      case RH => assert NumericalCols[7] == c;
      case Wind => assert NumericalCols[8] == c;
      case Rain => assert NumericalCols[9] == c;
      case Month =>
      case Day =>
    }
  }
}
