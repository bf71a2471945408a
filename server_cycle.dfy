/** The server's message log and `get_current_cycle`: the rows stored after a
    session's last Lumen ("angel") reply form the cycle in progress. */
module ServerCycle {
  import opened Wire

  /** The `role` column of the messages table: one of the two chairs, or Lumen's reply. */
  datatype Speaker = Chair(role: Role) | Angel

  /** One row of the messages table, in insertion (`id`) order. */
  datatype Row = Row(session: string, speaker: Speaker, text: string)

  /** `SELECT role, text FROM messages WHERE session_id = ? ORDER BY id ASC`. */
  function RowsOf(log: seq<Row>, sid: string): (rows: seq<Row>)
    ensures |rows| <= |log|
    ensures forall i :: 0 <= i < |rows| ==> rows[i].session == sid
  {
    if log == [] then []
    else RowsOf(log[..|log| - 1], sid) + (if log[|log| - 1].session == sid then [log[|log| - 1]] else [])
  }

  /** `rows[last_angel_idx+1:]`: the rows after the last angel row, or all rows when there is none. */
  function CurrentCycle(rows: seq<Row>): (c: seq<Row>)
    ensures |c| <= |rows| && c == rows[|rows| - |c|..]
    ensures forall i :: 0 <= i < |c| ==> c[i].speaker != Angel
    ensures |c| < |rows| ==> rows[|rows| - |c| - 1].speaker == Angel
  {
    if rows == [] || rows[|rows| - 1].speaker == Angel then []
    else CurrentCycle(rows[..|rows| - 1]) + [rows[|rows| - 1]]
  }

  /** `[r["text"] for r in rows if r["role"] == sp]`. */
  function TextsBy(rows: seq<Row>, sp: Speaker): (texts: seq<string>)
    ensures |texts| <= |rows|
  {
    if rows == [] then []
    else TextsBy(rows[..|rows| - 1], sp) + (if rows[|rows| - 1].speaker == sp then [rows[|rows| - 1].text] else [])
  }

  /** The filter keeps the rows' order: the texts of a concatenation are the texts of
      its first part followed by those of its second. */
  lemma {:induction false} TextsByAppend(a: seq<Row>, b: seq<Row>, sp: Speaker)
    ensures TextsBy(a + b, sp) == TextsBy(a, sp) + TextsBy(b, sp)
    decreases |b|
  {
    if b == [] {
      assert a + b == a;
    } else {
      var b' := b[..|b| - 1];
      assert (a + b)[..|a + b| - 1] == a + b';
      TextsByAppend(a, b', sp);
    }
  }

  /** Which texts a speaker contributes to a run of rows: the texts of the other
      speakers are skipped and each of its own is kept (the order is `TextsByAppend`'s). */
  lemma {:induction false} TextsByOrder(rows: seq<Row>, sp: Speaker)
    ensures forall t :: t in TextsBy(rows, sp) <==> exists i :: 0 <= i < |rows| && rows[i].speaker == sp && rows[i].text == t
    ensures (forall i :: 0 <= i < |rows| ==> rows[i].speaker != sp) ==> TextsBy(rows, sp) == []
    ensures (forall i :: 0 <= i < |rows| ==> rows[i].speaker == sp) ==> |TextsBy(rows, sp)| == |rows|
  {
    if rows != [] {
      var init := rows[..|rows| - 1];
      TextsByOrder(init, sp);
      forall t | t in TextsBy(rows, sp)
        ensures exists i :: 0 <= i < |rows| && rows[i].speaker == sp && rows[i].text == t
      {
        if t in TextsBy(init, sp) {
          var i :| 0 <= i < |init| && init[i].speaker == sp && init[i].text == t;
          assert rows[i] == init[i];
        } else {
          assert rows[|rows| - 1].speaker == sp && rows[|rows| - 1].text == t;
        }
      }
      forall t | exists i :: 0 <= i < |rows| && rows[i].speaker == sp && rows[i].text == t
        ensures t in TextsBy(rows, sp)
      {
        var i :| 0 <= i < |rows| && rows[i].speaker == sp && rows[i].text == t;
        if i < |init| {
          assert init[i] == rows[i];
        }
      }
    }
  }

  /** A chair's message extends the cycle in progress; Lumen's reply closes it. */
  lemma CycleAfterAppend(rows: seq<Row>, r: Row)
    ensures r.speaker == Angel ==> CurrentCycle(rows + [r]) == []
    ensures r.speaker != Angel ==> CurrentCycle(rows + [r]) == CurrentCycle(rows) + [r]
  {
    assert (rows + [r])[..|rows|] == rows;
  }

  /** Appending a row for session `sid` appends it to `sid`'s rows and leaves every other session's rows alone. */
  lemma RowsOfAppend(log: seq<Row>, r: Row, sid: string)
    ensures RowsOf(log + [r], sid) == RowsOf(log, sid) + (if r.session == sid then [r] else [])
  {
    assert (log + [r])[..|log|] == log;
  }

  /** Inside a cycle every row is a Self or a Monster row, so the two lists together hold all of them. */
  lemma {:induction false} TextsBySplit(rows: seq<Row>)
    requires forall i :: 0 <= i < |rows| ==> rows[i].speaker != Angel
    ensures |TextsBy(rows, Chair(Self))| + |TextsBy(rows, Chair(Monster))| == |rows|
  {
    if rows != [] {
      var init, last := rows[..|rows| - 1], rows[|rows| - 1];
      TextsBySplit(init);
      assert last.speaker != Angel;
      if last.speaker.role == Self {
        assert |TextsBy(rows, Chair(Self))| == |TextsBy(init, Chair(Self))| + 1;
        assert TextsBy(rows, Chair(Monster)) == TextsBy(init, Chair(Monster));
      } else {
        assert TextsBy(rows, Chair(Self)) == TextsBy(init, Chair(Self));
        assert |TextsBy(rows, Chair(Monster))| == |TextsBy(init, Chair(Monster))| + 1;
      }
    }
  }

  /** Rows of other sessions do not change a session's rows. */
  lemma {:induction false} RowsOfOthers(log: seq<Row>, extra: seq<Row>, sid: string)
    requires forall i :: 0 <= i < |extra| ==> extra[i].session != sid
    ensures RowsOf(log + extra, sid) == RowsOf(log, sid)
    decreases |extra|
  {
    if extra == [] {
      assert log + extra == log;
    } else {
      var init := extra[..|extra| - 1];
      assert log + extra == (log + init) + [extra[|extra| - 1]];
      RowsOfAppend(log + init, extra[|extra| - 1], sid);
      RowsOfOthers(log, init, sid);
    }
  }

  /** The cycle is the suffix after row `k - 1` when that row is the last angel row. */
  lemma {:induction false} CycleStartsAt(rows: seq<Row>, k: nat)
    requires k <= |rows|
    requires k > 0 ==> rows[k - 1].speaker == Angel
    requires forall j :: k <= j < |rows| ==> rows[j].speaker != Angel
    ensures CurrentCycle(rows) == rows[k..]
    decreases |rows|
  {
    if |rows| > k {
      var init := rows[..|rows| - 1];
      CycleStartsAt(init, k);
      assert rows[|rows| - 1].speaker != Angel;
      assert CurrentCycle(rows) == CurrentCycle(init) + [rows[|rows| - 1]];
      assert init[k..] + [rows[|rows| - 1]] == rows[k..];
    }
  }

  /** `get_current_cycle(session_id)`: scans the session's rows backwards for
      the last angel row and splits the rows after it by chair, in order. */
  method GetCurrentCycle(log: seq<Row>, sid: string) returns (selfs: seq<string>, monsters: seq<string>)
    ensures selfs == TextsBy(CurrentCycle(RowsOf(log, sid)), Chair(Self))
    ensures monsters == TextsBy(CurrentCycle(RowsOf(log, sid)), Chair(Monster))
  {
    var rows := RowsOf(log, sid);
    var lastAngel := -1;
    var i := |rows| - 1;
    while i >= 0
      invariant -1 <= i < |rows|
      invariant forall j :: i < j < |rows| ==> rows[j].speaker != Angel
      decreases i + 1
    {
      if rows[i].speaker == Angel {
        lastAngel := i;
        break;
      }
      i := i - 1;
    }
    CycleStartsAt(rows, lastAngel + 1);
    var slice := rows[lastAngel + 1..];
    selfs := TextsBy(slice, Chair(Self));
    monsters := TextsBy(slice, Chair(Monster));
  }
}
