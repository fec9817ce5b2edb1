/** Grouping patient results by the QC event they were measured under.
    Every row carries its QC event's timestamp and value plus one patient
    result; every distinct timestamp becomes one group. Groups come out in
    ascending timestamp order (the grouping sorts its keys), a group's QC
    value is the one on its first row, and its samples are its rows' patient
    results in input order. */
module Grouping {
  import opened Wrappers

  datatype Row = Row(qcTimestamp: int, qcValue: real, patientResult: real)

  datatype Group = Group(qcTimestamp: int, qcValue: real, samples: seq<real>)

  // ---------------------------------------------------------------------
  // Reference definitions, read directly off the rows

  /** The distinct timestamps the rows mention. */
  function Timestamps(rows: seq<Row>): set<int>
  {
    set r | r in rows :: r.qcTimestamp
  }

  /** The patient results of the rows stamped t, in input order. */
  function SamplesOf(rows: seq<Row>, t: int): seq<real>
  {
    if |rows| == 0 then []
    else (if rows[0].qcTimestamp == t then [rows[0].patientResult] else []) + SamplesOf(rows[1..], t)
  }

  /** The QC value on the first row stamped t. */
  function FirstQcValue(rows: seq<Row>, t: int): real
    requires t in Timestamps(rows)
  {
    if rows[0].qcTimestamp == t then rows[0].qcValue
    else
      assert t in Timestamps(rows[1..]) by {
        var r :| r in rows && r.qcTimestamp == t;
        assert r != rows[0];
        assert r in rows[1..];
      }
      FirstQcValue(rows[1..], t)
  }

  /** The group the rows stamped t form together. */
  function ExpectedGroup(rows: seq<Row>, t: int): Group
    requires t in Timestamps(rows)
  {
    Group(t, FirstQcValue(rows, t), SamplesOf(rows, t))
  }

  // ---------------------------------------------------------------------
  // The grouping itself: a scan over the rows in input order that files
  // each row under its timestamp in a list of groups kept sorted by key

  function GroupKeys(gs: seq<Group>): set<int>
  {
    set g | g in gs :: g.qcTimestamp
  }

  predicate StrictlyIncreasing(gs: seq<Group>)
  {
    forall i, j :: 0 <= i < j < |gs| ==> gs[i].qcTimestamp < gs[j].qcTimestamp
  }

  /** The group a row opens when its timestamp is new: the row's QC value
      and its one patient result. */
  function Seed(r: Row): Group
  {
    Group(r.qcTimestamp, r.qcValue, [r.patientResult])
  }

  /** A later row of an existing group adds its patient result; its QC
      value is not looked at, the group keeps the one it was seeded with. */
  function AddSample(g: Group, r: Row): Group
  {
    g.(samples := g.samples + [r.patientResult])
  }

  /** Files row r into the key-sorted group list gs. */
  function Insert(gs: seq<Group>, r: Row): seq<Group>
  {
    if |gs| == 0 then [Seed(r)]
    else if r.qcTimestamp < gs[0].qcTimestamp then [Seed(r)] + gs
    else if r.qcTimestamp == gs[0].qcTimestamp then [AddSample(gs[0], r)] + gs[1..]
    else [gs[0]] + Insert(gs[1..], r)
  }

  /** The groups of all rows: the groups of all but the last row, with the
      last row filed in. */
  function GroupBy(rows: seq<Row>): seq<Group>
  {
    if |rows| == 0 then []
    else Insert(GroupBy(rows[..|rows| - 1]), rows[|rows| - 1])
  }

  /** The first group in gs whose key is t, if any. */
  function Find(gs: seq<Group>, t: int): Option<Group>
  {
    if |gs| == 0 then None
    else if gs[0].qcTimestamp == t then Some(gs[0])
    else Find(gs[1..], t)
  }

  /** What filing row r does to the group stamped r's timestamp. */
  function Accumulate(g: Option<Group>, r: Row): Group
  {
    match g
    case None => Seed(r)
    case Some(g) => AddSample(g, r)
  }

  function TotalSamples(gs: seq<Group>): nat
  {
    if |gs| == 0 then 0 else |gs[0].samples| + TotalSamples(gs[1..])
  }

  // ---------------------------------------------------------------------
  // Facts about the reference definitions

  lemma TimestampsSnoc(rows: seq<Row>, r: Row)
    ensures Timestamps(rows + [r]) == Timestamps(rows) + {r.qcTimestamp}
  {
  }

  lemma {:induction false} SamplesOfSnoc(rows: seq<Row>, r: Row, t: int)
    ensures SamplesOf(rows + [r], t)
         == SamplesOf(rows, t) + (if r.qcTimestamp == t then [r.patientResult] else [])
  {
    if |rows| > 0 {
      assert (rows + [r])[1..] == rows[1..] + [r];
      SamplesOfSnoc(rows[1..], r, t);
    }
  }

  lemma {:induction false} FirstQcValueSnoc(rows: seq<Row>, r: Row, t: int)
    requires t in Timestamps(rows)
    ensures t in Timestamps(rows + [r])
    ensures FirstQcValue(rows + [r], t) == FirstQcValue(rows, t)
  {
    TimestampsSnoc(rows, r);
    if rows[0].qcTimestamp != t {
      assert (rows + [r])[1..] == rows[1..] + [r];
      FirstQcValueSnoc(rows[1..], r, t);
    }
  }

  lemma {:induction false} FirstQcValueNew(rows: seq<Row>, r: Row)
    requires r.qcTimestamp !in Timestamps(rows)
    ensures r.qcTimestamp in Timestamps(rows + [r])
    ensures FirstQcValue(rows + [r], r.qcTimestamp) == r.qcValue
  {
    TimestampsSnoc(rows, r);
    if |rows| > 0 {
      assert rows[0] in rows;
      assert (rows + [r])[1..] == rows[1..] + [r];
      assert Timestamps(rows[1..]) <= Timestamps(rows);
      FirstQcValueNew(rows[1..], r);
    }
  }

  lemma {:induction false} SamplesOfAbsent(rows: seq<Row>, t: int)
    requires t !in Timestamps(rows)
    ensures SamplesOf(rows, t) == []
  {
    if |rows| > 0 {
      assert rows[0] in rows;
      assert Timestamps(rows[1..]) <= Timestamps(rows);
      SamplesOfAbsent(rows[1..], t);
    }
  }

  /** Every timestamp that occurs has at least one sample: no group is empty. */
  lemma {:induction false} SamplesOfPresent(rows: seq<Row>, t: int)
    requires t in Timestamps(rows)
    ensures |SamplesOf(rows, t)| > 0
  {
    if rows[0].qcTimestamp != t {
      var r :| r in rows && r.qcTimestamp == t;
      assert r in rows[1..];
      SamplesOfPresent(rows[1..], t);
    }
  }

  // ---------------------------------------------------------------------
  // Facts about the sorted group list

  lemma KeysCons(gs: seq<Group>)
    requires |gs| > 0
    ensures GroupKeys(gs) == {gs[0].qcTimestamp} + GroupKeys(gs[1..])
  {
  }

  /** In a sorted list every key after the first is above the first. */
  lemma KeysAbove(gs: seq<Group>)
    requires StrictlyIncreasing(gs) && |gs| > 0
    ensures forall t :: t in GroupKeys(gs[1..]) ==> gs[0].qcTimestamp < t
  {
    forall t | t in GroupKeys(gs[1..])
      ensures gs[0].qcTimestamp < t
    {
      var g :| g in gs[1..] && g.qcTimestamp == t;
      var k :| 0 <= k < |gs| - 1 && gs[1..][k] == g;
      assert gs[k + 1] == g;
    }
  }

  lemma {:induction false} FindSpec(gs: seq<Group>, t: int)
    ensures Find(gs, t).Some? <==> t in GroupKeys(gs)
    ensures Find(gs, t).Some? ==> Find(gs, t).value.qcTimestamp == t
  {
    if |gs| > 0 {
      FindSpec(gs[1..], t);
      KeysCons(gs);
    }
  }

  lemma {:induction false} FindAtIndex(gs: seq<Group>, i: nat)
    requires StrictlyIncreasing(gs) && i < |gs|
    ensures Find(gs, gs[i].qcTimestamp) == Some(gs[i])
  {
    if i > 0 {
      assert gs[0].qcTimestamp < gs[i].qcTimestamp;
      FindAtIndex(gs[1..], i - 1);
    }
  }

  /** Filing a row adds its timestamp to the keys and no other. */
  lemma {:induction false} InsertKeys(gs: seq<Group>, r: Row)
    ensures GroupKeys(Insert(gs, r)) == GroupKeys(gs) + {r.qcTimestamp}
  {
    var ins := Insert(gs, r);
    if |gs| == 0 {
    } else if r.qcTimestamp < gs[0].qcTimestamp {
      assert ins[1..] == gs;
      KeysCons(ins);
    } else if r.qcTimestamp == gs[0].qcTimestamp {
      assert ins[1..] == gs[1..];
      KeysCons(ins);
      KeysCons(gs);
    } else {
      InsertKeys(gs[1..], r);
      assert ins[1..] == Insert(gs[1..], r);
      KeysCons(ins);
      KeysCons(gs);
    }
  }

  /** Filing a row keeps the group list sorted. */
  lemma {:induction false} InsertSorted(gs: seq<Group>, r: Row)
    requires StrictlyIncreasing(gs)
    ensures StrictlyIncreasing(Insert(gs, r))
  {
    var ins := Insert(gs, r);
    if |gs| > 0 && r.qcTimestamp > gs[0].qcTimestamp {
      var rest := Insert(gs[1..], r);
      InsertSorted(gs[1..], r);
      InsertKeys(gs[1..], r);
      KeysAbove(gs);
      assert ins[1..] == rest;
      forall j | 0 < j < |ins|
        ensures ins[0].qcTimestamp < ins[j].qcTimestamp
      {
        assert ins[j] == rest[j - 1];
        assert ins[j].qcTimestamp in GroupKeys(rest);
      }
    } else if |gs| > 0 && r.qcTimestamp < gs[0].qcTimestamp {
      assert ins[1..] == gs;
    }
  }

  /** Filing a row updates the group stamped with the row's timestamp (or
      opens it) and leaves every other group as it was. */
  lemma {:induction false} InsertFind(gs: seq<Group>, r: Row, t: int)
    requires StrictlyIncreasing(gs)
    ensures Find(Insert(gs, r), t)
         == if t == r.qcTimestamp then Some(Accumulate(Find(gs, t), r)) else Find(gs, t)
  {
    var ins := Insert(gs, r);
    if |gs| == 0 {
    } else if r.qcTimestamp < gs[0].qcTimestamp {
      assert ins[1..] == gs;
      if t == r.qcTimestamp {
        KeysCons(gs);
        KeysAbove(gs);
        FindSpec(gs, t);
      }
    } else if r.qcTimestamp == gs[0].qcTimestamp {
      assert ins[1..] == gs[1..];
    } else {
      assert ins[1..] == Insert(gs[1..], r);
      if t != gs[0].qcTimestamp {
        InsertFind(gs[1..], r, t);
      }
    }
  }

  lemma {:induction false} InsertTotal(gs: seq<Group>, r: Row)
    ensures TotalSamples(Insert(gs, r)) == TotalSamples(gs) + 1
  {
    var ins := Insert(gs, r);
    if |gs| == 0 {
    } else if r.qcTimestamp < gs[0].qcTimestamp {
      assert ins[1..] == gs;
    } else if r.qcTimestamp == gs[0].qcTimestamp {
      assert ins[1..] == gs[1..];
    } else {
      assert ins[1..] == Insert(gs[1..], r);
      InsertTotal(gs[1..], r);
    }
  }

  /** How the sorted group list `gs` stands for `rows`: sorted by key, one
      group per timestamp of the rows, each equal to the group those rows
      form together. */
  ghost predicate Represents(gs: seq<Group>, rows: seq<Row>)
  {
    && StrictlyIncreasing(gs)
    && GroupKeys(gs) == Timestamps(rows)
    && (forall t :: t in Timestamps(rows) ==> Find(gs, t) == Some(ExpectedGroup(rows, t)))
    && TotalSamples(gs) == |rows|
  }

  /** Filing row r into the groups of `rows` gives, for each timestamp of
      the longer input, the group that input forms for it. */
  lemma InsertRepresentsAt(gs: seq<Group>, rows: seq<Row>, r: Row, t: int)
    requires Represents(gs, rows)
    requires t in Timestamps(rows + [r])
    ensures Find(Insert(gs, r), t) == Some(ExpectedGroup(rows + [r], t))
  {
    TimestampsSnoc(rows, r);
    InsertFind(gs, r, t);
    SamplesOfSnoc(rows, r, t);
    if t !in Timestamps(rows) {
      FindSpec(gs, t);
      SamplesOfAbsent(rows, t);
      FirstQcValueNew(rows, r);
      assert SamplesOf(rows + [r], t) == [r.patientResult];
    } else {
      FirstQcValueSnoc(rows, r, t);
      var e := ExpectedGroup(rows, t);
      assert Find(gs, t) == Some(e);
      if t == r.qcTimestamp {
        assert SamplesOf(rows + [r], t) == e.samples + [r.patientResult];
        assert ExpectedGroup(rows + [r], t) == AddSample(e, r);
      } else {
        assert SamplesOf(rows + [r], t) == e.samples + [];
        assert e.samples + [] == e.samples;
        assert ExpectedGroup(rows + [r], t) == e;
      }
    }
  }

  /** Filing one more row into the groups of some rows gives the groups of
      the longer input. */
  lemma InsertRepresents(gs: seq<Group>, rows: seq<Row>, r: Row)
    requires Represents(gs, rows)
    ensures Represents(Insert(gs, r), rows + [r])
  {
    InsertSorted(gs, r);
    InsertKeys(gs, r);
    InsertTotal(gs, r);
    TimestampsSnoc(rows, r);
    forall t | t in Timestamps(rows + [r])
      ensures Find(Insert(gs, r), t) == Some(ExpectedGroup(rows + [r], t))
    {
      InsertRepresentsAt(gs, rows, r, t);
    }
  }

  lemma {:induction false} GroupByRepresents(rows: seq<Row>)
    ensures Represents(GroupBy(rows), rows)
  {
    if |rows| > 0 {
      var init, r := rows[..|rows| - 1], rows[|rows| - 1];
      assert rows == init + [r];
      GroupByRepresents(init);
      InsertRepresents(GroupBy(init), init, r);
    }
  }

  lemma {:induction false} KeyCount(gs: seq<Group>)
    requires StrictlyIncreasing(gs)
    ensures |GroupKeys(gs)| == |gs|
  {
    if |gs| > 0 {
      KeyCount(gs[1..]);
      KeysCons(gs);
      KeysAbove(gs);
    }
  }

  /** The grouping, stated against the rows: one group per distinct
      timestamp, in ascending timestamp order (so no timestamp twice); each
      group's QC value is that of the first row with its timestamp, whatever
      later rows say; its samples are exactly the patient results of the
      rows with its timestamp, in input order, and never none; and the
      groups hold as many samples between them as there are rows. */
  lemma GroupBySpec(rows: seq<Row>)
    ensures var gs := GroupBy(rows);
      && StrictlyIncreasing(gs)
      && GroupKeys(gs) == Timestamps(rows)
      && |gs| == |Timestamps(rows)|
      && TotalSamples(gs) == |rows|
    ensures var gs := GroupBy(rows);
      forall i :: 0 <= i < |gs| ==>
        && gs[i].qcTimestamp in Timestamps(rows)
        && gs[i].qcValue == FirstQcValue(rows, gs[i].qcTimestamp)
        && gs[i].samples == SamplesOf(rows, gs[i].qcTimestamp)
        && |gs[i].samples| > 0
  {
    var gs := GroupBy(rows);
    GroupByRepresents(rows);
    KeyCount(gs);
    forall i | 0 <= i < |gs|
      ensures gs[i].qcTimestamp in Timestamps(rows)
      ensures gs[i] == ExpectedGroup(rows, gs[i].qcTimestamp)
      ensures |gs[i].samples| > 0
    {
      assert gs[i] in gs;
      FindAtIndex(gs, i);
      SamplesOfPresent(rows, gs[i].qcTimestamp);
    }
  }

  /** Rows stamped t2, t1, t2, t3 (with t1 < t2 < t3) come out as the groups
      t1, t2, t3: ascending key order, not the order of first appearance; the
      t2 group keeps the QC value of its first row. */
  lemma GroupBySortsKeys()
    ensures var rows := [Row(2, 110.0, 111.0), Row(1, 100.0, 98.0), Row(2, 115.0, 109.0), Row(3, 120.0, 121.0)];
      GroupBy(rows) == [Group(1, 100.0, [98.0]), Group(2, 110.0, [111.0, 109.0]), Group(3, 120.0, [121.0])]
  {
    var rows := [Row(2, 110.0, 111.0), Row(1, 100.0, 98.0), Row(2, 115.0, 109.0), Row(3, 120.0, 121.0)];
    var p1, p2, p3 := rows[..1], rows[..2], rows[..3];
    assert p1[..0] == [] && p2[..1] == p1 && p3[..2] == p2 && rows[..3] == p3;
    assert GroupBy(p1) == [Group(2, 110.0, [111.0])];
    assert GroupBy(p2) == [Group(1, 100.0, [98.0]), Group(2, 110.0, [111.0])];
    var g2 := GroupBy(p2);
    assert g2[1..] == [Group(2, 110.0, [111.0])];
    assert [111.0] + [109.0] == [111.0, 109.0];
    assert Insert(g2[1..], rows[2]) == [Group(2, 110.0, [111.0, 109.0])];
    var g3 := GroupBy(p3);
    assert g3 == Insert(g2, rows[2]);
    assert g3 == [Group(1, 100.0, [98.0]), Group(2, 110.0, [111.0, 109.0])];
    assert g3[1..][1..] == [];
    assert Insert(g3[1..][1..], rows[3]) == [Group(3, 120.0, [121.0])];
    assert Insert(g3[1..], rows[3]) == [Group(2, 110.0, [111.0, 109.0]), Group(3, 120.0, [121.0])];
    assert GroupBy(rows) == Insert(g3, rows[3]);
  }
}
