/** Row flattening: turning a decoded message into a flat warehouse row. */
module Transformer {
  import opened Json
  import Router

  /** A warehouse row: column name to scalar value. */
  type Row = map<string, Json>

  const TimestampKey: string := "processing_timestamp"

  /** One assignment `output[key] = value` made while building a row. */
  type Write = (string, Json)

  /** What a nested value becomes: itself if scalar, else its JSON text. */
  function Cell(v: Json): (r: Json)
    ensures r.IsScalar()
    ensures v.IsScalar() ==> r == v
    ensures !v.IsScalar() ==> r == Str(Serialize(v))
  {
    if v.IsScalar() then v else Str(Serialize(v))
  }

  /** The assignments the inner loop makes for a nested object under `key`,
      one per nested field, in order. */
  function NestedWrites(key: string, inner: seq<(string, Json)>): (ws: seq<Write>)
    ensures |ws| == |inner|
  {
    if inner == [] then []
    else NestedWrites(key, inner[..|inner| - 1]) + [(key + "_" + inner[|inner| - 1].0, Cell(inner[|inner| - 1].1))]
  }

  /** The assignments one top-level field makes: none for a routing field,
      the value for a scalar, one per nested field for an object, and the
      JSON text for an array. */
  function FieldWrites(field: (string, Json)): seq<Write> {
    var (key, value) := field;
    if key in Router.RoutingFields then []
    else if value.IsScalar() then [(key, value)]
    else if value.Obj? then NestedWrites(key, value.fields)
    else [(key, Str(Serialize(value)))]
  }

  /** All assignments made for a message, in the order the loops make them. */
  function Writes(fields: seq<(string, Json)>): seq<Write> {
    if fields == [] then []
    else Writes(fields[..|fields| - 1]) + FieldWrites(fields[|fields| - 1])
  }

  /** Performing the assignments `ws` in order on the dictionary `m`. */
  function Apply(m: Row, ws: seq<Write>): Row {
    if ws == [] then m
    else Apply(m, ws[..|ws| - 1])[ws[|ws| - 1].0 := ws[|ws| - 1].1]
  }

  /** `transform_message(message)` run at clock reading `now`. */
  function Transform(fields: seq<(string, Json)>, now: int): Row {
    Apply(map[], Writes(fields))[TimestampKey := Int(now)]
  }

  lemma ApplySnoc(ws: seq<Write>, w: Write)
    ensures Apply(map[], ws + [w]) == Apply(map[], ws)[w.0 := w.1]
  {
    assert (ws + [w])[..|ws|] == ws;
  }

  lemma WritesSnoc(fields: seq<(string, Json)>, i: nat)
    requires i < |fields|
    ensures Writes(fields[..i + 1]) == Writes(fields[..i]) + FieldWrites(fields[i])
  {
    assert fields[..i + 1][..i] == fields[..i];
  }

  lemma NestedWritesSnoc(key: string, inner: seq<(string, Json)>, j: nat)
    requires j < |inner|
    ensures NestedWrites(key, inner[..j + 1]) == NestedWrites(key, inner[..j]) + [(key + "_" + inner[j].0, Cell(inner[j].1))]
  {
    assert inner[..j + 1][..j] == inner[..j];
  }

  lemma FieldWritesCases(key: string, value: Json)
    ensures key in Router.RoutingFields ==> FieldWrites((key, value)) == []
    ensures key !in Router.RoutingFields && value.IsScalar() ==> FieldWrites((key, value)) == [(key, value)]
    ensures key !in Router.RoutingFields && !value.IsScalar() && value.Obj? ==>
              FieldWrites((key, value)) == NestedWrites(key, value.fields)
    ensures key !in Router.RoutingFields && !value.IsScalar() && !value.Obj? ==>
              FieldWrites((key, value)) == [(key, Str(Serialize(value)))]
  {
  }

  /** The nested loop of `transform_message`: each field of the object
      `inner` under `key` is written as `key_field`, a nested container as
      its JSON text. */
  method FlattenInto(output0: Row, ghost before: seq<Write>, key: string, inner: seq<(string, Json)>)
    returns (output: Row)
    requires output0 == Apply(map[], before)
    ensures output == Apply(map[], before + NestedWrites(key, inner))
  {
    output := output0;
    var j := 0;
    assert inner[..0] == [] && before + [] == before;
    while j < |inner|
      invariant 0 <= j <= |inner|
      invariant output == Apply(map[], before + NestedWrites(key, inner[..j]))
    {
      NestedWritesSnoc(key, inner, j);
      var (nestedKey, nestedValue) := inner[j];
      ApplySnoc(before + NestedWrites(key, inner[..j]), (key + "_" + nestedKey, Cell(nestedValue)));
      if nestedValue.IsScalar() {
        output := output[key + "_" + nestedKey := nestedValue];
      } else {
        output := output[key + "_" + nestedKey := Str(Serialize(nestedValue))];
      }
      assert before + NestedWrites(key, inner[..j + 1])
          == (before + NestedWrites(key, inner[..j])) + [(key + "_" + nestedKey, Cell(nestedValue))];
      j := j + 1;
    }
    assert inner[..|inner|] == inner;
  }

  /** `transform_message`: the loop over the fields, the nested loop over an
      object's fields, then the timestamp. */
  method TransformMessage(message: seq<(string, Json)>, now: int) returns (output: Row)
    ensures output == Transform(message, now)
  {
    output := map[];
    var i := 0;
    while i < |message|
      invariant 0 <= i <= |message|
      invariant output == Apply(map[], Writes(message[..i]))
    {
      WritesSnoc(message, i);
      ghost var before := Writes(message[..i]);
      var (key, value) := message[i];
      FieldWritesCases(key, value);
      if key in Router.RoutingFields {
        // the routing fields are skipped
        assert before + [] == before;
      } else if value.IsScalar() {
        ApplySnoc(before, (key, value));
        output := output[key := value];
      } else if value.Obj? {
        output := FlattenInto(output, before, key, value.fields);
      } else {
        ApplySnoc(before, (key, Str(Serialize(value))));
        output := output[key := Str(Serialize(value))];
      }
      assert output == Apply(map[], before + FieldWrites((key, value)));
      i := i + 1;
    }
    assert message[..|message|] == message;
    output := output[TimestampKey := Int(now)];
  }

  // ---------------------------------------------------------------------
  // Properties
  // ---------------------------------------------------------------------

  /** A key is in the dictionary exactly when some assignment wrote it. */
  lemma {:induction false} ApplyKeys(ws: seq<Write>)
    ensures forall k :: k in Apply(map[], ws) <==> exists i :: 0 <= i < |ws| && ws[i].0 == k
  {
    if ws != [] {
      var init, w := ws[..|ws| - 1], ws[|ws| - 1];
      ApplyKeys(init);
      var m := Apply(map[], init);
      assert Apply(map[], ws) == m[w.0 := w.1];
      forall k ensures k in Apply(map[], ws) <==> exists i :: 0 <= i < |ws| && ws[i].0 == k {
        if k == w.0 {
          assert ws[|ws| - 1].0 == k;
        } else if k in m {
          var i :| 0 <= i < |init| && init[i].0 == k;
          assert ws[i] == init[i];
        }
      }
    }
  }

  /** A key holds the value of the last assignment that wrote it. */
  lemma {:induction false} ApplyLastValue(ws: seq<Write>)
    ensures forall i :: 0 <= i < |ws| && (forall j :: i < j < |ws| ==> ws[j].0 != ws[i].0) ==>
              ws[i].0 in Apply(map[], ws) && Apply(map[], ws)[ws[i].0] == ws[i].1
  {
    if ws != [] {
      var init, w := ws[..|ws| - 1], ws[|ws| - 1];
      ApplyLastValue(init);
      var m := Apply(map[], init);
      assert Apply(map[], ws) == m[w.0 := w.1];
      forall i | 0 <= i < |ws| && (forall j :: i < j < |ws| ==> ws[j].0 != ws[i].0)
        ensures ws[i].0 in Apply(map[], ws) && Apply(map[], ws)[ws[i].0] == ws[i].1
      {
        if i < |ws| - 1 {
          assert ws[i] == init[i] && w.0 != ws[i].0;
          forall j | i < j < |init| ensures init[j].0 != init[i].0 {
            assert init[j] == ws[j];
          }
          assert init[i].0 in m && m[init[i].0] == init[i].1;
        } else {
          assert ws[i] == w;
        }
      }
    }
  }

  /** Last write wins: a key is in the dictionary exactly when some
      assignment wrote it, and it holds the value of the last such write.
      The two halves are ApplyKeys and ApplyLastValue; this states them together. */
  lemma ApplyLastWriteWins(ws: seq<Write>)
    ensures forall k :: k in Apply(map[], ws) <==> exists i :: 0 <= i < |ws| && ws[i].0 == k
    ensures forall i :: 0 <= i < |ws| && (forall j :: i < j < |ws| ==> ws[j].0 != ws[i].0) ==>
              ws[i].0 in Apply(map[], ws) && Apply(map[], ws)[ws[i].0] == ws[i].1
  {
    ApplyKeys(ws);
    ApplyLastValue(ws);
  }

  /** Every assignment's value is a scalar and its key is not a routing field. */
  lemma {:induction false} WritesShape(fields: seq<(string, Json)>)
    ensures forall i :: 0 <= i < |Writes(fields)| ==>
              Writes(fields)[i].1.IsScalar() && Writes(fields)[i].0 !in Router.RoutingFields
  {
    if fields != [] {
      WritesShape(fields[..|fields| - 1]);
      var (key, value) := fields[|fields| - 1];
      if key !in Router.RoutingFields && value.Obj? {
        NestedWritesShape(key, value.fields);
      }
    }
  }

  lemma {:induction false} NestedWritesShape(key: string, inner: seq<(string, Json)>)
    ensures forall i :: 0 <= i < |inner| ==>
              NestedWrites(key, inner)[i] == (key + "_" + inner[i].0, Cell(inner[i].1))
    ensures forall i :: 0 <= i < |inner| ==> NestedWrites(key, inner)[i].0 !in Router.RoutingFields
  {
    if inner != [] {
      var n := |inner| - 1;
      NestedWritesShape(key, inner[..n]);
      forall i | 0 <= i < |inner|
        ensures NestedWrites(key, inner)[i] == (key + "_" + inner[i].0, Cell(inner[i].1))
      {
        if i < n {
          assert inner[..n][i] == inner[i];
        }
      }
      forall i | 0 <= i < |inner| ensures NestedWrites(key, inner)[i].0 !in Router.RoutingFields {
        var k := NestedWrites(key, inner)[i].0;
        assert k == key + "_" + inner[i].0;
        assert k[|key|] == '_';
        assert '_' in k;
        assert '_' !in "EntityType" && '_' !in "Table" && '_' !in "TableName";
      }
    }
  }

  /** The output never holds a routing field, never holds a container, and
      always holds the supplied timestamp. */
  lemma TransformShape(fields: seq<(string, Json)>, now: int)
    ensures forall k :: k in Transform(fields, now) ==>
              k !in Router.RoutingFields && Transform(fields, now)[k].IsScalar()
    ensures TimestampKey in Transform(fields, now) && Transform(fields, now)[TimestampKey] == Int(now)
  {
    var ws := Writes(fields);
    WritesShape(fields);
    ApplyLastWriteWins(ws);
    forall k | k in Apply(map[], ws)
      ensures k !in Router.RoutingFields && Apply(map[], ws)[k].IsScalar()
    {
      var i :| 0 <= i < |ws| && ws[i].0 == k;
      var last := LastIndexOf(ws, i);
      assert ws[last].0 == k;
    }
    assert TimestampKey !in Router.RoutingFields;
  }

  /** The columns of the output are the timestamp and the keys some
      assignment wrote; each other column holds its last assignment's value. */
  lemma TransformColumns(fields: seq<(string, Json)>, now: int)
    ensures var ws := Writes(fields);
            forall k :: k in Transform(fields, now) <==> k == TimestampKey || exists i :: 0 <= i < |ws| && ws[i].0 == k
    ensures var ws := Writes(fields);
            forall i :: 0 <= i < |ws| && ws[i].0 != TimestampKey && (forall j :: i < j < |ws| ==> ws[j].0 != ws[i].0) ==>
              ws[i].0 in Transform(fields, now) && Transform(fields, now)[ws[i].0] == ws[i].1
  {
    var ws := Writes(fields);
    ApplyLastWriteWins(ws);
    assert Transform(fields, now) == Apply(map[], ws)[TimestampKey := Int(now)];
    forall k ensures k in Transform(fields, now) <==> k == TimestampKey || exists i :: 0 <= i < |ws| && ws[i].0 == k {
      assert k in Apply(map[], ws) <==> exists i :: 0 <= i < |ws| && ws[i].0 == k;
    }
  }

  /** The last position at or after `i` that writes the same key as `ws[i]`. */
  function LastIndexOf(ws: seq<Write>, i: nat): (r: nat)
    requires i < |ws|
    ensures i <= r < |ws| && ws[r].0 == ws[i].0
    ensures forall j :: r < j < |ws| ==> ws[j].0 != ws[i].0
    decreases |ws| - i
  {
    if exists j :: i < j < |ws| && ws[j].0 == ws[i].0 then
      var j :| i < j < |ws| && ws[j].0 == ws[i].0;
      LastIndexOf(ws, j)
    else i
  }

  /** The assignments made for `{"Data": {"x": 1, "y": "a"}}`. */
  lemma FlattenWrites()
    ensures Writes([("Data", Obj([("x", Int(1)), ("y", Str("a"))]))]) == [("Data_x", Int(1)), ("Data_y", Str("a"))]
  {
    var fields := [("Data", Obj([("x", Int(1)), ("y", Str("a"))]))];
    var inner := [("x", Int(1)), ("y", Str("a"))];
    WritesSnoc(fields, 0);
    assert fields[..1] == fields && fields[..0] == [];
    assert "Data" !in Router.RoutingFields;
    assert FieldWrites(fields[0]) == NestedWrites("Data", inner);
    NestedWritesShape("Data", inner);
    var ws := NestedWrites("Data", inner);
    assert "Data" + "_" + "x" == "Data_x" && "Data" + "_" + "y" == "Data_y";
    assert ws[0] == ("Data_x", Int(1)) && ws[1] == ("Data_y", Str("a"));
  }

  /** `{"Data": {"x": 1, "y": "a"}}` becomes exactly `Data_x`, `Data_y` and the timestamp. */
  lemma FlattenExample(now: int)
    ensures Transform([("Data", Obj([("x", Int(1)), ("y", Str("a"))]))], now)
         == map["Data_x" := Int(1), "Data_y" := Str("a"), TimestampKey := Int(now)]
  {
    FlattenWrites();
    ApplySnoc([("Data_x", Int(1))], ("Data_y", Str("a")));
    ApplySnoc([], ("Data_x", Int(1)));
    assert [("Data_x", Int(1))] + [("Data_y", Str("a"))] == [("Data_x", Int(1)), ("Data_y", Str("a"))];
    assert [] + [("Data_x", Int(1))] == [("Data_x", Int(1))];
    assert Apply(map[], [("Data_x", Int(1)), ("Data_y", Str("a"))]) == map["Data_x" := Int(1), "Data_y" := Str("a")];
  }

  /** A nested container inside an object is stored as its JSON text. */
  lemma NestedContainerSerialized(outer: string, inner: string, v: Json, now: int)
    requires outer !in Router.RoutingFields && outer + "_" + inner != TimestampKey
    requires !v.IsScalar()
    ensures var row := Transform([(outer, Obj([(inner, v)]))], now);
            outer + "_" + inner in row && row[outer + "_" + inner] == Str(Serialize(v))
  {
    var fields := [(outer, Obj([(inner, v)]))];
    WritesSnoc(fields, 0);
    assert fields[..1] == fields && fields[..0] == [];
    NestedWritesShape(outer, [(inner, v)]);
    assert Writes(fields) == [(outer + "_" + inner, Str(Serialize(v)))];
    ApplySnoc([], (outer + "_" + inner, Str(Serialize(v))));
  }

  /** An input field named like the timestamp column is overwritten by it. */
  lemma TimestampWins(v: Json, now: int)
    ensures Transform([(TimestampKey, v)], now)[TimestampKey] == Int(now)
  {
  }

  /** A top-level `a_b` and a flattened `a`/`b` collide; the later write wins. */
  lemma CollisionExample(now: int)
    ensures var row := Transform([("a_b", Int(1)), ("a", Obj([("b", Int(2))]))], now);
            "a_b" in row && row["a_b"] == Int(2)
    ensures var row := Transform([("a", Obj([("b", Int(2))])), ("a_b", Int(1))], now);
            "a_b" in row && row["a_b"] == Int(1)
  {
    CollisionWrites();
    ApplySnoc([("a_b", Int(1))], ("a_b", Int(2)));
    ApplySnoc([("a_b", Int(2))], ("a_b", Int(1)));
    assert [("a_b", Int(1))] + [("a_b", Int(2))] == [("a_b", Int(1)), ("a_b", Int(2))];
    assert [("a_b", Int(2))] + [("a_b", Int(1))] == [("a_b", Int(2)), ("a_b", Int(1))];
  }

  /** The assignments made for the two messages of `CollisionExample`. */
  lemma CollisionWrites()
    ensures Writes([("a_b", Int(1)), ("a", Obj([("b", Int(2))]))]) == [("a_b", Int(1)), ("a_b", Int(2))]
    ensures Writes([("a", Obj([("b", Int(2))])), ("a_b", Int(1))]) == [("a_b", Int(2)), ("a_b", Int(1))]
  {
    var f1 := [("a_b", Int(1)), ("a", Obj([("b", Int(2))]))];
    var f2 := [("a", Obj([("b", Int(2))])), ("a_b", Int(1))];
    FieldWritesNested();
    assert FieldWrites(("a_b", Int(1))) == [("a_b", Int(1))] by {
      assert "a_b" !in Router.RoutingFields;
    }
    WritesPair(f1);
    WritesPair(f2);
  }

  lemma FieldWritesNested()
    ensures FieldWrites(("a", Obj([("b", Int(2))]))) == [("a_b", Int(2))]
  {
    assert "a" !in Router.RoutingFields;
    NestedWritesShape("a", [("b", Int(2))]);
    assert NestedWrites("a", [("b", Int(2))])[0] == ("a" + "_" + "b", Cell(Int(2)));
    assert "a" + "_" + "b" == "a_b";
  }

  lemma WritesPair(fields: seq<(string, Json)>)
    requires |fields| == 2
    ensures Writes(fields) == FieldWrites(fields[0]) + FieldWrites(fields[1])
  {
    assert fields[..0] == [] && fields[..2] == fields;
    WritesSnoc(fields, 0);
    assert Writes(fields[..1]) == FieldWrites(fields[0]);
    WritesSnoc(fields, 1);
  }
}
