/** The detection page's session controller: the state `TryNowPage` keeps between
    renders and the two handlers that change it, the start/stop button and the poll
    that the one-second interval fires while detection is active. */
module Detection {
  import opened Js
  import opened Records
  import opened History
  import opened Series
  import opened Csv

  /** How a POST to `/start_webcam` or `/stop_webcam` ended. The page awaits the fetch
      but never looks at the reply, so any HTTP status counts as `Answered`; only a
      fetch that throws (no connection) is `Threw`. */
  datatype Request = Answered | Threw

  /** What the `pedestrians` part of a poll body does to the history. */
  datatype Incoming = NoArray | Batch(records: seq<Pedestrian>) | BadEntry

  /** The records a poll body carries: none when `pedestrians` is not an array; the
      normalised batch; or `BadEntry` when the map throws on a null entry. */
  function RecordsOf(data: Value, sessionId: string, amb: Ambient): (r: Incoming)
    requires !Nullish(data)
    ensures r.NoArray? <==> !Field(data, "pedestrians").Arr?
    ensures r.Batch? ==> forall p :: p in r.records ==> p.sessionId == sessionId
    ensures r.Batch? ==> |r.records| == |Field(data, "pedestrians").items|
    ensures r.Batch? ==> Some(r.records) == NormalizeBatch(Field(data, "pedestrians").items, sessionId, amb)
    ensures r.BadEntry? <==> (Field(data, "pedestrians").Arr? &&
      exists k :: 0 <= k < |Field(data, "pedestrians").items| && Nullish(Field(data, "pedestrians").items[k]))
  {
    var p := Field(data, "pedestrians");
    if !p.Arr? then NoArray
    else match NormalizeBatch(p.items, sessionId, amb)
      case None => BadEntry
      case Some(b) =>
        assert forall q :: q in b ==> q.sessionId == sessionId by {
          forall q | q in b ensures q.sessionId == sessionId {
            var k :| 0 <= k < |b| && b[k] == q;
          }
        }
        Batch(b)
  }

  /** Every record a merge can add belongs to the session, so the history stays tagged
      with the session id. */
  lemma MergeKeepsSession(h: seq<Pedestrian>, b: seq<Pedestrian>, sessionId: string)
    requires forall k :: 0 <= k < |h| ==> h[k].sessionId == sessionId
    requires forall p :: p in b ==> p.sessionId == sessionId
    ensures forall k :: 0 <= k < |Merge(h, b)| ==> Merge(h, b)[k].sessionId == sessionId
  {
    var m := Merge(h, b);
    forall k | 0 <= k < |m| ensures m[k].sessionId == sessionId {
      if k >= |h| {
        assert m[k] in Unseen(Ids(h), b);
      }
    }
  }

  class Session {
    /** Minted once, when the page mounts; a new start keeps it. */
    const sessionId: string
    var webcamActive: bool
    var connectionError: bool
    /** Whether the polling interval is set (`dataFetchInterval.current !== null`). */
    var timerArmed: bool
    var history: seq<Pedestrian>
    var series: seq<TimePoint>
    var summary: Summary

    /** The polling interval runs exactly while detection is active, the chart holds at
        most twenty samples, and every record belongs to this session. */
    ghost predicate Valid()
      reads this
    {
      && timerArmed == webcamActive
      && |series| <= Capacity
      && forall k :: 0 <= k < |history| ==> history[k].sessionId == sessionId
    }

    /** The page as it mounts: idle, no data, and a session id minted from
        `Date.now()` and `Math.random()`. */
    constructor (millis: string, random36: string)
      ensures Valid()
      ensures sessionId == MintId("session", millis, random36)
      ensures !webcamActive && !timerArmed && !connectionError
      ensures history == [] && series == [] && summary == ZeroSummary
    {
      sessionId := MintId("session", millis, random36);
      webcamActive, timerArmed, connectionError := false, false, false;
      history, series, summary := [], [], ZeroSummary;
    }

    /** The button while idle. A start request that answers at all (any status) clears
        the history, the series and the summary and turns detection on, which arms the
        polling interval; one that throws changes nothing. */
    method Start(request: Request)
      requires Valid() && !webcamActive
      modifies this
      ensures Valid()
      ensures request.Threw? ==> unchanged(this)
      ensures request.Answered? ==>
        && webcamActive && timerArmed
        && history == [] && series == [] && summary == ZeroSummary
        && connectionError == old(connectionError)
    {
      if request.Answered? {
        history, series, summary := [], [], ZeroSummary;
        webcamActive := true;
        timerArmed := true;
      }
    }

    /** The button while active. A stop request that answers at all clears the interval
        and turns detection off, keeping the collected data for export; one that throws
        changes nothing, so the interval keeps firing. */
    method Stop(request: Request)
      requires Valid() && webcamActive
      modifies this
      ensures Valid()
      ensures request.Threw? ==> unchanged(this)
      ensures request.Answered? ==>
        && !webcamActive && !timerArmed
        && history == old(history) && series == old(series) && summary == old(summary)
        && connectionError == old(connectionError)
    {
      if request.Answered? {
        timerArmed := false;
        webcamActive := false;
      }
    }

    /** `handleWebcamToggle`: the flag flips exactly when the request did not throw. */
    method Toggle(request: Request)
      requires Valid()
      modifies this
      ensures Valid()
      ensures webcamActive == if request.Threw? then old(webcamActive) else !old(webcamActive)
      ensures request.Threw? ==> unchanged(this)
      ensures request.Answered? && !old(webcamActive) ==>
        history == [] && series == [] && summary == ZeroSummary
      ensures old(webcamActive) ==>
        history == old(history) && series == old(series) && summary == old(summary)
      ensures connectionError == old(connectionError)
    {
      if webcamActive {
        Stop(request);
      } else {
        Start(request);
      }
    }

    /** A poll whose fetch threw, answered with a non-2xx status or sent a body that is
        not JSON: the error flag is set and nothing else changes. */
    method PollFail()
      requires Valid()
      modifies this`connectionError
      ensures Valid()
      ensures connectionError
    {
      connectionError := true;
    }

    /** A poll that received the JSON body `data` at local time `now`. The error flag is
        cleared first. A null body throws before anything else changes. Otherwise the
        summary and the chart take the body's counts; then, when `pedestrians` is an
        array, its normalised records are merged into the history, unless an entry is
        null, which throws after the summary and the chart were already updated. */
    method PollOk(data: Value, now: string, amb: Ambient)
      requires Valid()
      modifies this`connectionError, this`history, this`series, this`summary
      ensures Valid()
      ensures Nullish(data) ==>
        && connectionError
        && history == old(history) && series == old(series) && summary == old(summary)
      ensures !Nullish(data) ==>
        && summary == ReadSummary(data).value
        && series == Window(old(series), Sample(summary, now))
        && var recs := RecordsOf(data, sessionId, amb);
           && (recs.NoArray? ==> !connectionError && history == old(history))
           && (recs.BadEntry? ==> connectionError && history == old(history))
           && (recs.Batch? ==> !connectionError && history == Merge(old(history), recs.records))
    {
      connectionError := false;
      var read := ReadSummary(data);
      if read.None? {
        connectionError := true;
        return;
      }
      summary := read.value;
      series := Window(series, Sample(summary, now));
      var recs := RecordsOf(data, sessionId, amb);
      match recs
      case NoArray =>
      case BadEntry =>
        connectionError := true;
      case Batch(b) =>
        MergeKeepsSession(history, b, sessionId);
        history := Merge(history, b);
    }
  }

  /** A poll body whose `pedestrians` array holds no null or undefined entry. */
  predicate WellFormedBody(data: Value) {
    && !Nullish(data)
    && Field(data, "pedestrians").Arr?
    && forall k :: 0 <= k < |Field(data, "pedestrians").items| ==> !Nullish(Field(data, "pedestrians").items[k])
  }

  /** A well-formed body always yields a batch of records. */
  lemma WellFormedBatch(data: Value, sessionId: string, amb: Ambient)
    requires WellFormedBody(data)
    ensures RecordsOf(data, sessionId, amb).Batch?
  {
    BatchTotal(Field(data, "pedestrians").items, sessionId, amb);
  }

  /** A run of polls `[ok, error, error, ok]` after a start: detection stays on, the
      error flag is up after the second poll and down after the fourth, the chart has
      two samples, and the ids of the records of both successful polls are in the
      history; a stop afterwards keeps them. */
  method ResilienceScenario(first: Value, last: Value, amb: Ambient, now: string)
    requires WellFormedBody(first) && WellFormedBody(last)
  {
    var s := new Session("1700000000000", "0.4fzyo82mvyr");
    s.Toggle(Answered);
    var b1 := RecordsOf(first, s.sessionId, amb);
    WellFormedBatch(first, s.sessionId, amb);
    s.PollOk(first, now, amb);
    assert s.history == Merge([], b1.records);
    s.PollFail();
    assert s.connectionError && s.webcamActive;
    s.PollFail();
    var b4 := RecordsOf(last, s.sessionId, amb);
    WellFormedBatch(last, s.sessionId, amb);
    s.PollOk(last, now, amb);
    assert s.history == Merge(Merge([], b1.records), b4.records);
    assert s.webcamActive && !s.connectionError;
    assert |s.series| == 2;
    MergeIds([], b1.records);
    MergeIds(Merge([], b1.records), b4.records);
    assert Ids(b1.records) + Ids(b4.records) <= Ids(s.history);
    s.Toggle(Answered);
    assert !s.webcamActive && !s.timerArmed;
    assert Ids(b1.records) + Ids(b4.records) <= Ids(s.history);
  }

  /** A body whose `pedestrians` array holds one entry yields that entry's record. */
  lemma SingleEntryBatch(data: Value, ped: Value, rec: Pedestrian, sessionId: string, amb: Ambient)
    requires data.Obj? && "pedestrians" in data.fields && data.fields["pedestrians"] == Arr([ped])
    requires !Nullish(ped) && NormalizeEntry(ped, 0, sessionId, amb) == rec
    ensures RecordsOf(data, sessionId, amb) == Batch([rec])
  {
    var nb := NormalizeBatch([ped], sessionId, amb);
    assert !Nullish([ped][0]);
    assert nb.Some? && |nb.value| == 1 && nb.value[0] == rec;
    assert nb.value == [rec];
  }

  /** Exporting one record gives the header line followed by that record's row. */
  lemma SingleRowExport(rec: Pedestrian, sessionId: string, showNum: real -> string)
    ensures ExportHistory([rec], sessionId, showNum).content == HeaderRow + "\n" + Row(rec, showNum)
  {
    assert Rows([rec], showNum) == [Row(rec, showNum)];
  }

  /** One poll carrying one high-risk pedestrian after a start: the summary and the
      single sample carry its counts, and the history holds the record with the body's
      fields and this session's id; `SingleRowExport` then gives its export. */
  lemma EndToEnd(sessionId: string, amb: Ambient, now: string)
    requires amb.parses("2024-01-01T00:00:00Z")
    ensures var ped := Obj(map["id" := Str("p1"), "timestamp" := Str("2024-01-01T00:00:00Z"),
                               "risk_level" := Str("high"), "confidence" := Num(0.9),
                               "position_x" := Num(10.0), "position_y" := Num(20.0)]);
      var data := Obj(map["totalPedestrians" := Num(1.0), "highRisk" := Num(1.0),
                          "mediumRisk" := Num(0.0), "lowRisk" := Num(0.0),
                          "pedestrians" := Arr([ped])]);
      var rec := Pedestrian("p1", "2024-01-01T00:00:00Z", High, 0.9, 10.0, 20.0, sessionId);
      && ReadSummary(data) == Some(Summary(1.0, 1.0, 0.0, 0.0))
      && Window([], Sample(Summary(1.0, 1.0, 0.0, 0.0), now)) == [TimePoint(now, 1.0, 1.0, 0.0, 0.0)]
      && RecordsOf(data, sessionId, amb) == Batch([rec])
      && Merge([], [rec]) == [rec]
  {
    var ped := Obj(map["id" := Str("p1"), "timestamp" := Str("2024-01-01T00:00:00Z"),
                       "risk_level" := Str("high"), "confidence" := Num(0.9),
                       "position_x" := Num(10.0), "position_y" := Num(20.0)]);
    var data := Obj(map["totalPedestrians" := Num(1.0), "highRisk" := Num(1.0),
                        "mediumRisk" := Num(0.0), "lowRisk" := Num(0.0),
                        "pedestrians" := Arr([ped])]);
    var rec := Pedestrian("p1", "2024-01-01T00:00:00Z", High, 0.9, 10.0, 20.0, sessionId);
    assert NormalizeEntry(ped, 0, sessionId, amb) == rec;
    SingleEntryBatch(data, ped, rec, sessionId, amb);
    assert Ids([]) == {};
  }
}
