/** Completion bars of a quest-log crop: classified rows, grouped by a one-pass state machine. */
module QuestBars {
  import opened Wrappers

  datatype BarState = Complete | Incomplete
  datatype Rgb = Rgb(red: int, green: int, blue: int)
  type Row = seq<Rgb>

  const COMPLETE_RGB := Rgb(0x6E, 0xFF, 0x60)
  const INCOMPLETE_RGB := Rgb(0xF4, 0x6C, 0x55)
  const COLOR_TOLERANCE := 18
  const MINIMUM_ROWS := 3

  predicate Near(a: int, b: int) {
    -COLOR_TOLERANCE <= a - b <= COLOR_TOLERANCE
  }

  predicate ColorClose(a: Rgb, b: Rgb) {
    Near(a.red, b.red) && Near(a.green, b.green) && Near(a.blue, b.blue)
  }

  function CountClose(row: Row, color: Rgb): nat {
    if row == [] then 0
    else CountClose(row[..|row| - 1], color) + if ColorClose(row[|row| - 1], color) then 1 else 0
  }

  /** No pixel matches both bar colors, so the order of the tests does not matter. */
  lemma ColorsExclusive(p: Rgb)
    ensures !(ColorClose(p, COMPLETE_RGB) && ColorClose(p, INCOMPLETE_RGB))
  {
  }

  /** A row belongs to a bar when at least 30% of its pixels have the bar's color. */
  function RowState(row: Row): Option<BarState> {
    if CountClose(row, COMPLETE_RGB) >= |row| * 3 / 10 then Some(Complete)
    else if CountClose(row, INCOMPLETE_RGB) >= |row| * 3 / 10 then Some(Incomplete)
    else None
  }

  method ClassifyRow(row: Row) returns (s: Option<BarState>)
    ensures s == RowState(row)
  {
    var complete, incomplete := 0, 0;
    for x := 0 to |row|
      invariant complete == CountClose(row[..x], COMPLETE_RGB)
      invariant incomplete == CountClose(row[..x], INCOMPLETE_RGB)
    {
      assert row[..x + 1][..x] == row[..x];
      ColorsExclusive(row[x]);
      if ColorClose(row[x], COMPLETE_RGB) {
        complete := complete + 1;
      } else if ColorClose(row[x], INCOMPLETE_RGB) {
        incomplete := incomplete + 1;
      }
    }
    assert row[..|row|] == row;
    s := if complete >= |row| * 3 / 10 then Some(Complete)
         else if incomplete >= |row| * 3 / 10 then Some(Incomplete) else None;
  }

  // ---- Run-length encoding ----

  datatype Segment<T> = Segment(value: T, length: nat)

  /** One more element, in the last run or in a run of its own. */
  function Add<T(==)>(runs: seq<Segment<T>>, x: T): seq<Segment<T>> {
    if runs != [] && runs[|runs| - 1].value == x
    then runs[..|runs| - 1] + [Segment(x, runs[|runs| - 1].length + 1)]
    else runs + [Segment(x, 1)]
  }

  /** The maximal runs of equal neighbours. */
  function Encode<T(==)>(s: seq<T>): seq<Segment<T>> {
    if s == [] then [] else Add(Encode(s[..|s| - 1]), s[|s| - 1])
  }

  lemma EncodeSnoc<T>(s: seq<T>, x: T)
    ensures Encode(s + [x]) == Add(Encode(s), x)
  {
    assert (s + [x])[..|s|] == s;
  }

  function Repeat<T>(x: T, n: nat): seq<T> {
    if n == 0 then [] else Repeat(x, n - 1) + [x]
  }

  function Expand<T>(runs: seq<Segment<T>>): seq<T> {
    if runs == [] then []
    else Expand(runs[..|runs| - 1]) + Repeat(runs[|runs| - 1].value, runs[|runs| - 1].length)
  }

  /** Runs are non-empty and neighbouring runs differ: they are maximal. */
  predicate Maximal<T(==)>(runs: seq<Segment<T>>) {
    && (forall i :: 0 <= i < |runs| ==> runs[i].length > 0)
    && (forall i :: 0 < i < |runs| ==> runs[i].value != runs[i - 1].value)
  }

  lemma {:induction false} AddExpands<T>(runs: seq<Segment<T>>, x: T)
    ensures Expand(Add(runs, x)) == Expand(runs) + [x]
  {
    var all := Add(runs, x);
    if runs != [] && runs[|runs| - 1].value == x {
      assert all[..|all| - 1] == runs[..|runs| - 1];
    } else {
      assert all[..|all| - 1] == runs;
      assert Repeat(x, 1) == Repeat(x, 0) + [x];
    }
  }

  lemma AddKeepsMaximal<T>(runs: seq<Segment<T>>, x: T)
    requires Maximal(runs)
    ensures Maximal(Add(runs, x))
  {
  }

  /** The encoding is maximal and expands back to the rows. */
  lemma {:induction false} EncodeExpands<T>(s: seq<T>)
    ensures Maximal(Encode(s)) && Expand(Encode(s)) == s
  {
    if s != [] {
      var init, x := s[..|s| - 1], s[|s| - 1];
      EncodeExpands(init);
      AddExpands(Encode(init), x);
      AddKeepsMaximal(Encode(init), x);
      assert s == init + [x];
    }
  }

  /** The runs without their last element. */
  function Shorter<T>(runs: seq<Segment<T>>): seq<Segment<T>>
    requires runs != [] && runs[|runs| - 1].length > 0
  {
    var last, before := runs[|runs| - 1], runs[..|runs| - 1];
    if last.length == 1 then before else before + [last.(length := last.length - 1)]
  }

  lemma ShorterAdds<T>(runs: seq<Segment<T>>)
    requires runs != [] && Maximal(runs)
    ensures Maximal(Shorter(runs)) && Add(Shorter(runs), runs[|runs| - 1].value) == runs
  {
    assert runs == runs[..|runs| - 1] + [runs[|runs| - 1]];
  }

  /** Nothing but the encoding is maximal and expands back: it is the run-length encoding. */
  lemma {:induction false} EncodingIsUnique<T>(runs: seq<Segment<T>>)
    requires Maximal(runs)
    ensures Encode(Expand(runs)) == runs
    decreases |runs|, if runs == [] then 0 else runs[|runs| - 1].length
  {
    if runs != [] {
      var x := runs[|runs| - 1].value;
      ShorterAdds(runs);
      EncodingIsUnique(Shorter(runs));
      AddExpands(Shorter(runs), x);
      EncodeSnoc(Expand(Shorter(runs)), x);
    }
  }

  /** The bars in a list of runs: those of a color that are tall enough. */
  function Bars(runs: seq<Segment<Option<BarState>>>): seq<BarState> {
    if runs == [] then []
    else
      var last := runs[|runs| - 1];
      Bars(runs[..|runs| - 1])
      + if last.value.Some? && last.length >= MINIMUM_ROWS then [last.value.value] else []
  }

  function States(rows: seq<Row>): seq<Option<BarState>> {
    seq(|rows|, i requires 0 <= i < |rows| => RowState(rows[i]))
  }

  /** The finished bars and the bar being grown, after some rows. */
  type Machine = (seq<BarState>, Option<(BarState, nat)>)

  function MachineAt(runs: seq<Segment<Option<BarState>>>): Machine {
    if runs != [] && runs[|runs| - 1].value.Some?
    then (Bars(runs[..|runs| - 1]), Some((runs[|runs| - 1].value.value, runs[|runs| - 1].length)))
    else (Bars(runs), None)
  }

  function Flush(m: Machine): seq<BarState> {
    m.0 + if m.1.Some? && m.1.value.1 >= MINIMUM_ROWS then [m.1.value.0] else []
  }

  function MachineStep(m: Machine, row: Option<BarState>): Machine {
    if m.1.Some? && row == Some(m.1.value.0) then (m.0, Some((m.1.value.0, m.1.value.1 + 1)))
    else (Flush(m), if row.Some? then Some((row.value, 1)) else None)
  }

  /** One step of the machine follows one step of the encoding. */
  lemma MachineFollowsRuns(runs: seq<Segment<Option<BarState>>>, row: Option<BarState>)
    ensures MachineAt(Add(runs, row)) == MachineStep(MachineAt(runs), row)
  {
    var more := Add(runs, row);
    BarsOfLast(runs);
    BarsOfLast(more);
    if runs != [] && runs[|runs| - 1].value == row {
      assert more[..|more| - 1] == runs[..|runs| - 1];
    } else {
      assert more[..|more| - 1] == runs;
    }
  }

  lemma BarsOfLast(runs: seq<Segment<Option<BarState>>>)
    ensures runs != [] && runs[|runs| - 1].value.None? ==> Bars(runs) == Bars(runs[..|runs| - 1])
    ensures Flush(MachineAt(runs)) == Bars(runs)
  {
  }

  /** The state machine's bars are the tall maximal runs of equal coloured rows, in order. */
  method ReadQuestBars(width: nat, rows: seq<Row>) returns (bars: seq<BarState>)
    requires forall y :: 0 <= y < |rows| ==> |rows[y]| == width
    ensures width < 20 || |rows| < MINIMUM_ROWS ==> bars == []
    ensures width >= 20 && |rows| >= MINIMUM_ROWS ==> bars == Bars(Encode(States(rows)))
  {
    bars := [];
    if width < 20 || |rows| < MINIMUM_ROWS {
      return;
    }
    var current: Option<(BarState, nat)> := None;
    ghost var states := States(rows);
    assert states[..0] == [];
    for y := 0 to |rows|
      invariant (bars, current) == MachineAt(Encode(states[..y]))
    {
      ghost var before := (bars, current);
      var row := ClassifyRow(rows[y]);
      assert states[..y + 1] == states[..y] + [row];
      EncodeSnoc(states[..y], row);
      MachineFollowsRuns(Encode(states[..y]), row);
      if current.Some? && row == Some(current.value.0) {
        current := Some((current.value.0, current.value.1 + 1));
      } else {
        if current.Some? && current.value.1 >= MINIMUM_ROWS {
          bars := bars + [current.value.0];
        }
        assert bars == Flush(before);
        current := if row.Some? then Some((row.value, 1)) else None;
      }
      assert (bars, current) == MachineStep(before, row);
    }
    assert states[..|rows|] == states;
    BarsOfLast(Encode(states));
    if current.Some? && current.value.1 >= MINIMUM_ROWS {
      bars := bars + [current.value.0];
    }
  }
}
