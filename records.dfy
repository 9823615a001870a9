/** The record normaliser: each raw entry of the poll's `pedestrians` array becomes a
    canonical pedestrian record, every field repaired to a default when it is
    missing or of the wrong type. */
module Records {
  import opened Js

  datatype Risk = High | Medium | Low

  /** The text the record carries in its `risk_level` field. */
  function RiskText(k: Risk): (t: string)
    ensures t in {"high", "medium", "low"}
  {
    match k
    case High => "high"
    case Medium => "medium"
    case Low => "low"
  }

  datatype Pedestrian = Pedestrian(
    id: string,
    timestamp: string,
    risk: Risk,
    confidence: real,
    positionX: real,
    positionY: real,
    sessionId: string)

  /** The values the page draws from the browser while normalising one batch, indexed
      by the position of the record in the batch:
      `parses(t)` is `!isNaN(Date.parse(t))`, `isoNow(k)` is `new Date().toISOString()`,
      `millis(k)` is the text of `Date.now()` and `random36(k)` that of
      `Math.random().toString(36)`. */
  datatype Ambient = Ambient(
    parses: string -> bool,
    isoNow: nat -> string,
    millis: nat -> string,
    random36: nat -> string)

  const DefaultConfidence: real := 0.8
  const DefaultPosition: real := 0.0

  /** `${prefix}_${Date.now()}_${Math.random().toString(36).substring(2, 9)}`: the shape of
      both the session id ("session") and a replacement record id ("ped"). */
  function MintId(prefix: string, millis: string, random36: string): (r: string)
    ensures |r| >= |prefix| + 2 + |millis|
    ensures |r| <= |prefix| + 2 + |millis| + 7
    ensures r[..|prefix| + 1] == prefix + "_"
  {
    prefix + "_" + millis + "_" + Substring2To9(random36)
  }

  /** The strict comparison `ped.risk_level === "high" || ped.risk_level === "medium"`,
      anything else read as low. */
  function RiskOf(v: Value): (k: Risk)
    ensures k == High <==> v == Str("high")
    ensures k == Medium <==> v == Str("medium")
  {
    if v == Str("high") then High
    else if v == Str("medium") then Medium
    else Low
  }

  /** The body of the `map` callback for an entry whose property reads do not throw;
      `k` is the entry's position in the batch. */
  function NormalizeEntry(ped: Value, k: nat, sessionId: string, amb: Ambient): (r: Pedestrian)
    requires !Nullish(ped)
    ensures r.sessionId == sessionId
    ensures var t := Field(ped, "timestamp");
      if t.Str? && amb.parses(t.s) then r.timestamp == t.s else r.timestamp == amb.isoNow(k)
    ensures var i := Field(ped, "id");
      if i.Str? then r.id == i.s else r.id == MintId("ped", amb.millis(k), amb.random36(k))
    ensures r.risk == RiskOf(Field(ped, "risk_level"))
    ensures r.confidence == NumberOr(Field(ped, "confidence"), DefaultConfidence)
    ensures r.positionX == NumberOr(Field(ped, "position_x"), DefaultPosition)
    ensures r.positionY == NumberOr(Field(ped, "position_y"), DefaultPosition)
  {
    var t := Field(ped, "timestamp");
    var i := Field(ped, "id");
    Pedestrian(
      if i.Str? then i.s else MintId("ped", amb.millis(k), amb.random36(k)),
      if t.Str? && amb.parses(t.s) then t.s else amb.isoNow(k),
      RiskOf(Field(ped, "risk_level")),
      NumberOr(Field(ped, "confidence"), DefaultConfidence),
      NumberOr(Field(ped, "position_x"), DefaultPosition),
      NumberOr(Field(ped, "position_y"), DefaultPosition),
      sessionId)
  }

  /** `data.pedestrians.map(...)`: the whole map throws as soon as one entry is null or
      undefined (its `ped.timestamp` read throws); otherwise every entry is normalised. */
  function NormalizeBatch(items: seq<Value>, sessionId: string, amb: Ambient): (r: Option<seq<Pedestrian>>)
    ensures r.None? <==> exists k :: 0 <= k < |items| && Nullish(items[k])
    ensures r.Some? ==> |r.value| == |items|
    ensures r.Some? ==> forall k :: 0 <= k < |items| ==>
      !Nullish(items[k]) && r.value[k] == NormalizeEntry(items[k], k, sessionId, amb)
  {
    if exists k :: 0 <= k < |items| && Get(items[k], "timestamp").None? then None
    else Some(seq(|items|, k requires 0 <= k < |items| => NormalizeEntry(items[k], k, sessionId, amb)))
  }

  /** The record written back as the JSON object the backend would send for it. */
  function Encode(r: Pedestrian): Value {
    Obj(map[
      "id" := Str(r.id),
      "timestamp" := Str(r.timestamp),
      "risk_level" := Str(RiskText(r.risk)),
      "confidence" := Num(r.confidence),
      "position_x" := Num(r.positionX),
      "position_y" := Num(r.positionY),
      "session_id" := Str(r.sessionId)])
  }

  /** Defaults: an entry carrying none of the fields (an empty object, a number, a
      string) normalises to a low-risk record at confidence 0.8 at the origin, with
      a minted id and the capture time. */
  lemma EmptyEntryDefaults(ped: Value, k: nat, sessionId: string, amb: Ambient)
    requires ped.Obj? ==> ped.fields == map[]
    requires !Nullish(ped)
    ensures var r := NormalizeEntry(ped, k, sessionId, amb);
      r == Pedestrian(MintId("ped", amb.millis(k), amb.random36(k)), amb.isoNow(k),
                      Low, 0.8, 0.0, 0.0, sessionId)
  {
  }

  /** Round trip: a normalised record, sent again, normalises to itself except that
      it takes on the current session id; so normalising is idempotent on records
      whose timestamp parses. */
  lemma NormalizeEncode(r: Pedestrian, k: nat, sessionId: string, amb: Ambient)
    requires amb.parses(r.timestamp)
    ensures NormalizeEntry(Encode(r), k, sessionId, amb) == r.(sessionId := sessionId)
  {
  }

  /** A batch with no null or undefined entry always normalises, and every record it
      yields belongs to the current session. */
  lemma {:induction false} BatchTotal(items: seq<Value>, sessionId: string, amb: Ambient)
    requires forall k :: 0 <= k < |items| ==> !Nullish(items[k])
    ensures NormalizeBatch(items, sessionId, amb).Some?
    ensures forall p :: p in NormalizeBatch(items, sessionId, amb).value ==> p.sessionId == sessionId
  {
    var r := NormalizeBatch(items, sessionId, amb).value;
    forall p | p in r ensures p.sessionId == sessionId {
      var k :| 0 <= k < |r| && r[k] == p;
    }
  }
}
