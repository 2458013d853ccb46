/** The connection status of a market stream (derivatives/repository.py, mark_stream_* and continuously_connected_since). */
module StreamStatus {
  import opened Wrappers

  datatype State = CONNECTED | DISCONNECTED | STALE

  datatype Row = Row(state: State, since: Option<int>)

  datatype Event = Connected(at: int) | Message(at: int) | Disconnected(at: int) | Stale(at: int) {
    predicate Gap() { Disconnected? || Stale? }
  }

  function Marked(row: Option<Row>, e: Event): Option<Row> {
    match e
    case Connected(at) => Some(Row(CONNECTED, Some(at)))
    case Message(_) => if row.Some? then Some(row.value.(state := CONNECTED)) else None
    case Disconnected(_) => Some(Row(DISCONNECTED, None))
    case Stale(_) => Some(Row(STALE, None))
  }

  function History(events: seq<Event>): Option<Row>
    decreases |events|
  {
    if events == [] then None else Marked(History(events[..|events| - 1]), events[|events| - 1])
  }

  predicate Continuous(row: Option<Row>, at: int) {
    row.Some? && row.value.state == CONNECTED && row.value.since.Some? && row.value.since.value <= at
  }

  class StreamStatusRepository {
    var rows: map<string, Row>

    constructor ()
      ensures rows == map[]
    {
      rows := map[];
    }

    function RowOf(name: string): Option<Row>
      reads this
    {
      if name in rows then Some(rows[name]) else None
    }

    method Mark(name: string, e: Event)
      modifies this
      ensures RowOf(name) == Marked(old(RowOf(name)), e)
      ensures rows - {name} == old(rows) - {name}
    {
      match e {
        case Connected(at) => rows := rows[name := Row(CONNECTED, Some(at))];
        case Message(_) => if name in rows { rows := rows[name := rows[name].(state := CONNECTED)]; }
        case Disconnected(_) => rows := rows[name := Row(DISCONNECTED, None)];
        case Stale(_) => rows := rows[name := Row(STALE, None)];
      }
    }

    method ContinuouslyConnectedSince(name: string, at: int) returns (r: bool)
      ensures r == Continuous(RowOf(name), at)
    {
      if name !in rows { return false; }
      var row := rows[name];
      return row.state == CONNECTED && row.since.Some? && row.since.value <= at;
    }
  }

  /** The last connect event, with no gap after it. */
  ghost predicate LastConnect(events: seq<Event>, k: nat) {
    && k < |events| && events[k].Connected?
    && forall j :: k < j < |events| ==> !events[j].Gap() && !events[j].Connected?
  }

  lemma {:induction false} RowTellsLastConnect(events: seq<Event>, k: nat)
    requires LastConnect(events, k)
    ensures History(events) == Some(Row(CONNECTED, Some(events[k].at)))
    decreases |events|
  {
    var n := |events| - 1;
    if k < n { RowTellsLastConnect(events[..n], k); }
  }

  lemma {:induction false} RowHasLastConnect(events: seq<Event>)
    requires History(events).Some? && History(events).value.since.Some?
    ensures exists k: nat :: LastConnect(events, k)
    decreases |events|
  {
    var n := |events| - 1;
    if events[n].Connected? {
      assert LastConnect(events, n);
    } else {
      RowHasLastConnect(events[..n]);
      var k: nat :| LastConnect(events[..n], k);
      assert LastConnect(events, k);
    }
  }

  /** Over every trace: connected since `at` exactly when the last connect came by then and no gap followed it. */
  lemma ContinuousIff(events: seq<Event>, at: int)
    ensures Continuous(History(events), at) <==> exists k: nat :: LastConnect(events, k) && events[k].at <= at
  {
    if k: nat :| LastConnect(events, k) && events[k].at <= at {
      RowTellsLastConnect(events, k);
    }
    if Continuous(History(events), at) {
      RowHasLastConnect(events);
      var k: nat :| LastConnect(events, k);
      RowTellsLastConnect(events, k);
    }
  }

  /** Along a trace in order of time a positive answer means no gap after the queried time. */
  lemma NoGapSince(events: seq<Event>, at: int, j: nat)
    requires forall a, b :: 0 <= a < b < |events| ==> events[a].at <= events[b].at
    requires Continuous(History(events), at) && j < |events| && events[j].Gap()
    ensures events[j].at <= at
  {
    ContinuousIff(events, at);
    var k: nat :| LastConnect(events, k) && events[k].at <= at;
    assert j < k;
  }

  /** A message after a gap says connected, yet the gap is not forgotten. */
  lemma MessageDoesNotHealAGap(events: seq<Event>, gap: Event, message: Event, at: int)
    requires gap.Gap() && message.Message?
    ensures var row := History(events + [gap] + [message]);
      row.Some? && row.value.state == CONNECTED && !Continuous(row, at)
  {
    var one := events + [gap];
    var two := one + [message];
    assert one[..|one| - 1] == events && two[..|two| - 1] == one;
  }
}
