/** Table routing: which destination table a decoded message belongs to. */
module Router {
  import opened Json

  /** The fields inspected, in priority order. */
  const RoutingFields: seq<string> := ["EntityType", "Table", "TableName"]

  const DefaultTable: string := "default_table"

  /** `str.isalnum`, restricted to ASCII letters and digits. */
  predicate IsAlnum(c: char) {
    'a' <= c <= 'z' || 'A' <= c <= 'Z' || '0' <= c <= '9'
  }

  function ToLower(c: char): char {
    if 'A' <= c <= 'Z' then (c as int + 32) as char else c
  }

  /** A character a routed table name may hold. */
  predicate IsTableChar(c: char) {
    'a' <= c <= 'z' || '0' <= c <= '9' || c == '_'
  }

  predicate IsTableName(s: string) {
    forall i :: 0 <= i < |s| ==> IsTableChar(s[i])
  }

  /** `''.join(c if c.isalnum() else '_' for c in s)` */
  function ReplaceNonAlnum(s: string): (r: string)
    ensures |r| == |s|
    ensures forall i :: 0 <= i < |s| ==> r[i] == if IsAlnum(s[i]) then s[i] else '_'
  {
    if s == [] then [] else [if IsAlnum(s[0]) then s[0] else '_'] + ReplaceNonAlnum(s[1..])
  }

  /** `s.lower()` */
  function Lower(s: string): (r: string)
    ensures |r| == |s|
    ensures forall i :: 0 <= i < |s| ==> r[i] == ToLower(s[i])
  {
    if s == [] then [] else [ToLower(s[0])] + Lower(s[1..])
  }

  /** The two passes of the clean-up, replacement first and lower-casing
      second, amount to one character-wise map into table characters. */
  function Normalize(s: string): (r: string)
    ensures |r| == |s|
    ensures forall i :: 0 <= i < |s| ==> r[i] == if IsAlnum(s[i]) then ToLower(s[i]) else '_'
    ensures IsTableName(r)
  {
    Lower(ReplaceNonAlnum(s))
  }

  /** Cleaning an already clean name changes nothing. */
  lemma NormalizeIdempotent(s: string)
    ensures Normalize(Normalize(s)) == Normalize(s)
  {
    var n := Normalize(s);
    forall i | 0 <= i < |n|
      ensures Normalize(n)[i] == n[i]
    {
      assert IsTableChar(n[i]);
    }
  }

  /** The field `key` is present with a truthy value. */
  predicate Qualifies(fields: seq<(string, Json)>, key: string) {
    var v := Lookup(fields, key);
    v.Some? && v.value.Truthy()
  }

  /** The loop over the candidate fields with its early return. */
  function RouteFrom(fields: seq<(string, Json)>, candidates: seq<string>): (r: string)
    ensures IsTableName(r) && r != []
  {
    if candidates == [] then DefaultTable
    else if Qualifies(fields, candidates[0]) then Normalize(PyStr(Lookup(fields, candidates[0]).value))
    else RouteFrom(fields, candidates[1..])
  }

  /** `get_table_from_message`: a non-empty name over `[a-z0-9_]`. */
  function Route(fields: seq<(string, Json)>): (r: string)
    ensures IsTableName(r) && r != []
  {
    RouteFrom(fields, RoutingFields)
  }

  /** With no candidate qualifying, the default table is chosen. */
  lemma {:induction false} RouteFromDefault(fields: seq<(string, Json)>, candidates: seq<string>)
    requires forall i :: 0 <= i < |candidates| ==> !Qualifies(fields, candidates[i])
    ensures RouteFrom(fields, candidates) == DefaultTable
  {
    if candidates != [] {
      assert !Qualifies(fields, candidates[0]);
      forall i | 0 <= i < |candidates| - 1 ensures !Qualifies(fields, candidates[1..][i]) {
        assert candidates[1..][i] == candidates[i + 1];
      }
      RouteFromDefault(fields, candidates[1..]);
    }
  }

  /** The first qualifying candidate decides the table. */
  lemma {:induction false} RouteFromFirst(fields: seq<(string, Json)>, candidates: seq<string>, i: nat)
    requires i < |candidates| && Qualifies(fields, candidates[i])
    requires forall j :: 0 <= j < i ==> !Qualifies(fields, candidates[j])
    ensures RouteFrom(fields, candidates) == Normalize(PyStr(Lookup(fields, candidates[i]).value))
  {
    if i > 0 {
      assert !Qualifies(fields, candidates[0]);
      forall j | 0 <= j < i - 1 ensures !Qualifies(fields, candidates[1..][j]) {
        assert candidates[1..][j] == candidates[j + 1];
      }
      assert candidates[1..][i - 1] == candidates[i];
      RouteFromFirst(fields, candidates[1..], i - 1);
    }
  }

  /** The routed table comes from the first of EntityType, Table, TableName
      that is present with a truthy value; with none, it is the default. */
  lemma RouteChoice(fields: seq<(string, Json)>)
    ensures !Qualifies(fields, "EntityType") && !Qualifies(fields, "Table") && !Qualifies(fields, "TableName") ==>
              Route(fields) == DefaultTable
    ensures Qualifies(fields, "EntityType") ==>
              Route(fields) == Normalize(PyStr(Lookup(fields, "EntityType").value))
    ensures !Qualifies(fields, "EntityType") && Qualifies(fields, "Table") ==>
              Route(fields) == Normalize(PyStr(Lookup(fields, "Table").value))
    ensures !Qualifies(fields, "EntityType") && !Qualifies(fields, "Table") && Qualifies(fields, "TableName") ==>
              Route(fields) == Normalize(PyStr(Lookup(fields, "TableName").value))
  {
    var cs := RoutingFields;
    assert cs[0] == "EntityType" && cs[1] == "Table" && cs[2] == "TableName" && |cs| == 3;
    if Qualifies(fields, "EntityType") {
      RouteFromFirst(fields, cs, 0);
    } else if Qualifies(fields, "Table") {
      RouteFromFirst(fields, cs, 1);
    } else if Qualifies(fields, "TableName") {
      RouteFromFirst(fields, cs, 2);
    } else {
      RouteFromDefault(fields, cs);
    }
  }

  /** A message `{"EntityType": "Order", ...}` goes to table `order`. */
  lemma RouteOrderExample(rest: seq<(string, Json)>)
    ensures Route([("EntityType", Str("Order"))] + rest) == "order"
  {
    var m := [("EntityType", Str("Order"))] + rest;
    assert Route(m) == Normalize("Order") by {
      assert m[0] == ("EntityType", Str("Order"));
      assert Lookup(m, "EntityType") == Some(Str("Order"));
      assert Str("Order").Truthy();
      RouteChoice(m);
    }
    NormalizeOrder();
  }

  lemma NormalizeOrder()
    ensures Normalize("Order") == "order"
  {
    var s, clean := "Order", "order";
    assert s[0] == 'O' && s[1] == 'r' && s[2] == 'd' && s[3] == 'e' && s[4] == 'r';
    assert clean[0] == 'o' && clean[1] == 'r' && clean[2] == 'd' && clean[3] == 'e' && clean[4] == 'r';
    NormalizeWord(s, clean);
  }

  /** Cleaning, checked character by character. */
  lemma NormalizeWord(s: string, clean: string)
    requires |s| == |clean|
    requires forall i :: 0 <= i < |s| ==> clean[i] == if IsAlnum(s[i]) then ToLower(s[i]) else '_'
    ensures Normalize(s) == clean
  {
  }

  /** Without `EntityType`, a message `{"Table": "Refund", "id": 3}` goes to table `refund`. */
  lemma RouteTableExample()
    ensures Route([("Table", Str("Refund")), ("id", Int(3))]) == "refund"
  {
    var m := [("Table", Str("Refund")), ("id", Int(3))];
    assert Route(m) == Normalize("Refund") by {
      assert m[0].0 == "Table" && m[1].0 == "id" && "Table" != "EntityType" && "id" != "EntityType";
      assert Lookup(m, "EntityType") == None;
      assert Lookup(m, "Table") == Some(Str("Refund"));
      assert Str("Refund").Truthy();
      RouteChoice(m);
    }
    NormalizeRefund();
  }

  lemma NormalizeRefund()
    ensures Normalize("Refund") == "refund"
  {
    var s, clean := "Refund", "refund";
    assert s[0] == 'R' && s[1] == 'e' && s[2] == 'f' && s[3] == 'u' && s[4] == 'n' && s[5] == 'd';
    assert clean[0] == 'r' && clean[1] == 'e' && clean[2] == 'f' && clean[3] == 'u' && clean[4] == 'n' && clean[5] == 'd';
    NormalizeWord(s, clean);
  }

  /** Empty strings, zero and null are skipped: the message goes to the default table. */
  lemma RouteFalsyExample()
    ensures Route([("EntityType", Str("")), ("Table", Int(0)), ("TableName", Null)]) == DefaultTable
  {
    var m := [("EntityType", Str("")), ("Table", Int(0)), ("TableName", Null)];
    assert Lookup(m, "EntityType") == Some(Str(""));
    assert Lookup(m, "Table") == Some(Int(0));
    assert Lookup(m, "TableName") == Some(Null);
    RouteChoice(m);
  }

  /** Spaces and dashes become underscores. */
  lemma RouteCleanExample()
    ensures Route([("Table", Str("A b-C"))]) == "a_b_c"
  {
    var m := [("Table", Str("A b-C"))];
    assert Route(m) == Normalize("A b-C") by {
      assert m[0].0 == "Table" && "Table" != "EntityType";
      assert Lookup(m, "EntityType") == None;
      assert Lookup(m, "Table") == Some(Str("A b-C"));
      assert Str("A b-C").Truthy();
      RouteChoice(m);
    }
    NormalizeClean();
  }

  lemma NormalizeClean()
    ensures Normalize("A b-C") == "a_b_c"
  {
    var s, clean := "A b-C", "a_b_c";
    assert s[0] == 'A' && s[1] == ' ' && s[2] == 'b' && s[3] == '-' && s[4] == 'C';
    assert clean[0] == 'a' && clean[1] == '_' && clean[2] == 'b' && clean[3] == '_' && clean[4] == 'c';
    NormalizeWord(s, clean);
  }
}
