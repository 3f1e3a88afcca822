/** The scheduler over persisted status: candidates from the registry, acknowledgement rows, the stall
    clock, and every run of passes (internal/controller/operation_wiring.go). */
module OperationRuns {
  import opened Sorting
  import opened OperationGraph
  import opened OperationPlan

  // --------------------------------------------------------------- candidates

  /** The registry filtered to the entries that apply, with the fingerprints of the declared values. */
  function CandidatesOf(ops: seq<Operation>, applies: set<string>, fingerprints: map<string, string>): seq<Candidate>
    requires forall op <- ops :: op.name in applies ==> op.name in fingerprints
  {
    if ops == [] then []
    else
      var rest, op := CandidatesOf(ops[..|ops| - 1], applies, fingerprints), ops[|ops| - 1];
      if op.name in applies then rest + [Candidate(op.name, fingerprints[op.name], op.needs, op.stallAfter)] else rest
  }

  method OperationCandidates(ops: seq<Operation>, applies: set<string>, fingerprints: map<string, string>) returns (out: seq<Candidate>)
    requires forall op <- ops :: op.name in applies ==> op.name in fingerprints
    ensures out == CandidatesOf(ops, applies, fingerprints)
  {
    out := [];
    for i := 0 to |ops|
      invariant out == CandidatesOf(ops[..i], applies, fingerprints)
    {
      assert ops[..i + 1][..i] == ops[..i];
      if ops[i].name in applies {
        out := out + [Candidate(ops[i].name, fingerprints[ops[i].name], ops[i].needs, ops[i].stallAfter)];
      }
    }
    assert ops[..|ops|] == ops;
  }

  function OpName(op: Operation): string { op.name }

  lemma {:induction false} GraphGivesNeeds(ops: seq<Operation>, i: nat)
    requires KeysApart(ops, OpName) && i < |ops|
    ensures ops[i].name in GraphOf(ops) && GraphOf(ops)[ops[i].name] == ops[i].needs
  {
    var last := |ops| - 1;
    if i < last {
      GraphGivesNeeds(ops[..last], i);
      assert OpName(ops[i]) != OpName(ops[last]);
    }
  }

  lemma {:induction false} CandidateComesFrom(ops: seq<Operation>, applies: set<string>, fingerprints: map<string, string>, c: Candidate) returns (i: nat)
    requires forall op <- ops :: op.name in applies ==> op.name in fingerprints
    requires c in CandidatesOf(ops, applies, fingerprints)
    ensures i < |ops| && ops[i].name in applies
    ensures c == Candidate(ops[i].name, fingerprints[ops[i].name], ops[i].needs, ops[i].stallAfter)
  {
    var init := ops[..|ops| - 1];
    if c in CandidatesOf(init, applies, fingerprints) {
      i := CandidateComesFrom(init, applies, fingerprints, c);
    } else {
      i := |ops| - 1;
    }
  }

  lemma {:induction false} AppliesIsCandidate(ops: seq<Operation>, applies: set<string>, fingerprints: map<string, string>, i: nat)
    requires forall op <- ops :: op.name in applies ==> op.name in fingerprints
    requires i < |ops| && ops[i].name in applies
    ensures Candidate(ops[i].name, fingerprints[ops[i].name], ops[i].needs, ops[i].stallAfter) in CandidatesOf(ops, applies, fingerprints)
  {
    if i < |ops| - 1 { AppliesIsCandidate(ops[..|ops| - 1], applies, fingerprints, i); }
  }

  /** The candidates are the registry's entries that apply, each with the fingerprint of its declared
      value and the registry's own edges and budget. */
  lemma {:induction false} CandidatesAre(ops: seq<Operation>, applies: set<string>, fingerprints: map<string, string>, c: Candidate)
    requires forall op <- ops :: op.name in applies ==> op.name in fingerprints
    ensures c in CandidatesOf(ops, applies, fingerprints) <==>
            exists op :: op in ops && op.name in applies && c == Candidate(op.name, fingerprints[op.name], op.needs, op.stallAfter)
  {
    if c in CandidatesOf(ops, applies, fingerprints) {
      var i := CandidateComesFrom(ops, applies, fingerprints, c);
      assert ops[i] in ops;
    }
    forall i | 0 <= i < |ops| && ops[i].name in applies &&
               c == Candidate(ops[i].name, fingerprints[ops[i].name], ops[i].needs, ops[i].stallAfter)
      ensures c in CandidatesOf(ops, applies, fingerprints)
    {
      AppliesIsCandidate(ops, applies, fingerprints, i);
    }
  }

  /** A registry with distinct names yields candidates the planner's guarantees apply to, whatever
      applies to the instance. */
  lemma {:induction false} CandidatesAreFromRegistry(ops: seq<Operation>, applies: set<string>, fingerprints: map<string, string>)
    requires forall op <- ops :: op.name in applies ==> op.name in fingerprints
    requires KeysApart(ops, OpName)
    ensures FromRegistry(CandidatesOf(ops, applies, fingerprints), GraphOf(ops))
  {
    var cs := CandidatesOf(ops, applies, fingerprints);
    CandidatesApart(ops, applies, fingerprints);
    forall i | 0 <= i < |cs| ensures cs[i].name in GraphOf(ops) && cs[i].needs == GraphOf(ops)[cs[i].name] {
      var k := CandidateComesFrom(ops, applies, fingerprints, cs[i]);
      GraphGivesNeeds(ops, k);
    }
  }

  lemma {:induction false} CandidatesApart(ops: seq<Operation>, applies: set<string>, fingerprints: map<string, string>)
    requires forall op <- ops :: op.name in applies ==> op.name in fingerprints
    requires KeysApart(ops, OpName)
    ensures KeysApart(CandidatesOf(ops, applies, fingerprints), NameOf)
  {
    if ops != [] {
      var init, last := ops[..|ops| - 1], ops[|ops| - 1];
      CandidatesApart(init, applies, fingerprints);
      var cs := CandidatesOf(init, applies, fingerprints);
      forall i | 0 <= i < |cs| ensures cs[i].name != last.name {
        var k := CandidateComesFrom(init, applies, fingerprints, cs[i]);
        assert OpName(ops[k]) != OpName(ops[|ops| - 1]);
      }
    }
  }

  // --------------------------------------------------------------------- rows

  datatype Row = Row(name: string, fingerprint: string, at: int)

  function RowName(r: Row): string { r.name }

  /** status.acknowledgedOperations as name to fingerprint; a repeated name keeps its last row. */
  function AcksOf(rows: seq<Row>): map<string, string> {
    if rows == [] then map[]
    else AcksOf(rows[..|rows| - 1])[rows[|rows| - 1].name := rows[|rows| - 1].fingerprint]
  }

  /** The rows with the first row of that name replaced, or one appended. */
  function Upsert(rows: seq<Row>, row: Row): seq<Row> {
    if rows == [] then [row]
    else if rows[0].name == row.name then [row] + rows[1..]
    else [rows[0]] + Upsert(rows[1..], row)
  }

  function UpsertAll(rows: seq<Row>, cs: seq<Candidate>, at: int): seq<Row> {
    if cs == [] then rows
    else Upsert(UpsertAll(rows, cs[..|cs| - 1], at), RowFor(cs[|cs| - 1], at))
  }

  function RowFor(c: Candidate, at: int): Row { Row(c.name, c.fingerprint, at) }

  lemma {:induction false} UpsertAt(rows: seq<Row>, row: Row, k: nat)
    requires k < |rows| && rows[k].name == row.name && forall j :: 0 <= j < k ==> rows[j].name != row.name
    ensures Upsert(rows, row) == rows[k := row]
  {
    if k > 0 {
      UpsertAt(rows[1..], row, k - 1);
      assert rows[k := row] == [rows[0]] + rows[1..][k - 1 := row];
    }
  }

  lemma {:induction false} UpsertNew(rows: seq<Row>, row: Row)
    requires forall j :: 0 <= j < |rows| ==> rows[j].name != row.name
    ensures Upsert(rows, row) == rows + [row]
  {
    if rows != [] {
      UpsertNew(rows[1..], row);
      assert rows + [row] == [rows[0]] + (rows[1..] + [row]);
    }
  }

  method UpsertOperationAcks(existing: seq<Row>, ack: seq<Candidate>, at: int) returns (out: seq<Row>)
    ensures out == UpsertAll(existing, ack, at)
  {
    out := existing;
    for n := 0 to |ack|
      invariant out == UpsertAll(existing, ack[..n], at)
    {
      assert ack[..n + 1][..n] == ack[..n];
      var c := ack[n];
      var i := 0;
      while i < |out| && out[i].name != c.name
        invariant 0 <= i <= |out| && forall j :: 0 <= j < i ==> out[j].name != c.name
      {
        i := i + 1;
      }
      if i < |out| {
        UpsertAt(out, RowFor(c, at), i);
        out := out[i := RowFor(c, at)];
      } else {
        UpsertNew(out, RowFor(c, at));
        out := out + [RowFor(c, at)];
      }
    }
    assert ack[..|ack|] == ack;
  }

  lemma {:induction false} AcksAt(rows: seq<Row>, name: string)
    requires KeysApart(rows, RowName)
    ensures name in AcksOf(rows) <==> exists i :: 0 <= i < |rows| && rows[i].name == name
    ensures forall i :: 0 <= i < |rows| && rows[i].name == name ==> AcksOf(rows)[name] == rows[i].fingerprint
  {
    if rows != [] {
      var init, last := rows[..|rows| - 1], |rows| - 1;
      AcksAt(init, name);
      forall i | 0 <= i < |rows| && rows[i].name == name ensures name in AcksOf(rows) && AcksOf(rows)[name] == rows[i].fingerprint {
        if i < last { assert init[i].name == name && RowName(rows[i]) != RowName(rows[last]); }
      }
      if name in AcksOf(rows) && name != rows[last].name {
        var i :| 0 <= i < |init| && init[i].name == name;
        assert rows[i].name == name;
      }
    }
  }

  /** One row per name is kept, and the record read back is the old one with this name's value. */
  lemma {:induction false} UpsertKeepsRows(rows: seq<Row>, row: Row)
    requires KeysApart(rows, RowName)
    ensures KeysApart(Upsert(rows, row), RowName)
    ensures AcksOf(Upsert(rows, row)) == AcksOf(rows)[row.name := row.fingerprint]
  {
    var out := Upsert(rows, row);
    if k :| 0 <= k < |rows| && rows[k].name == row.name {
      forall j | 0 <= j < k ensures rows[j].name != row.name { assert RowName(rows[j]) != RowName(rows[k]); }
      UpsertAt(rows, row, k);
      forall i, j | 0 <= i < j < |out| ensures RowName(out[i]) != RowName(out[j]) {
        assert RowName(rows[i]) != RowName(rows[j]);
      }
      forall n ensures (n in AcksOf(out) <==> n in AcksOf(rows) || n == row.name)
               ensures n in AcksOf(out) ==> AcksOf(out)[n] == AcksOf(rows)[row.name := row.fingerprint][n] {
        AcksAt(rows, n);
        AcksAt(out, n);
        if i :| 0 <= i < |rows| && rows[i].name == n { assert out[i].name == n; }
        assert out[k].name == row.name;
      }
    } else {
      UpsertNew(rows, row);
      assert out[..|out| - 1] == rows;
    }
  }

  lemma {:induction false} UpsertAllKeepsRows(rows: seq<Row>, cs: seq<Candidate>, at: int, name: string)
    requires KeysApart(rows, RowName) && KeysApart(cs, NameOf)
    ensures KeysApart(UpsertAll(rows, cs, at), RowName)
    ensures name in AcksOf(UpsertAll(rows, cs, at)) <==> name in AcksOf(rows) || name in NamesIn(cs)
    ensures name !in NamesIn(cs) && name in AcksOf(rows) ==> AcksOf(UpsertAll(rows, cs, at))[name] == AcksOf(rows)[name]
    ensures forall i :: 0 <= i < |cs| && cs[i].name == name ==> AcksOf(UpsertAll(rows, cs, at))[name] == cs[i].fingerprint
  {
    if cs != [] {
      var init, last := cs[..|cs| - 1], cs[|cs| - 1];
      UpsertAllKeepsRows(rows, init, at, name);
      UpsertKeepsRows(UpsertAll(rows, init, at), RowFor(last, at));
      assert cs == init + [last];
      assert NamesIn(cs) == NamesIn(init) + {last.name};
      forall i | 0 <= i < |cs| && cs[i].name == name ensures AcksOf(UpsertAll(rows, cs, at))[name] == cs[i].fingerprint {
        if i < |init| { assert init[i] == cs[i] && NameOf(cs[i]) != NameOf(cs[|cs| - 1]); }
      }
    }
  }
}
