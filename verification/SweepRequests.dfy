/** How a resume cursor leaves the control plane and comes back over HTTP. */
module SweepRequests {
  import opened Strings
  import opened Envelopes
  import opened SweepModel
  import opened SweepInduction

  datatype Json =
    | JNull | JBool(flag: bool) | JNumber(number: real) | JString(text: string)
    | JArray(items: seq<Json>) | JObject(members: map<string, Json>)

  const BATCH_SIZE: nat := 200

  datatype Request = Accepted(cursor: Option<WireCursor>, limit: nat) | Refused(error: string)

  function Get(members: map<string, Json>, name: string): Option<Json> {
    if name in members then Some(members[name]) else None
  }

  predicate IsStage(value: Option<Json>) {
    value.Some? && value.value.JString? && value.value.text in STAGES
  }

  function Min(a: int, b: int): int {
    if a < b then a else b
  }

  function ParseLimit(value: Option<Json>): Option<nat> {
    match value
    case None => Some(BATCH_SIZE)
    case Some(v) =>
      if !v.JNumber? || v.number.Floor as real != v.number || v.number < 1.0 then None
      else Some(Min(v.number.Floor, BATCH_SIZE))
  }

  function ParseCursor(members: map<string, Json>, limit: nat): Request {
    var stage := Get(members, "stage");
    var after := Get(members, "afterId");
    if !IsStage(stage) then Refused("cursor.stage is required")
    else
      match after
      case None => Accepted(Some(WireCursor(stage.value.text, None)), limit)
      case Some(v) =>
        if !v.JString? || v.text == "" then Refused("cursor.afterId must be a non-empty string")
        else Accepted(Some(WireCursor(stage.value.text, Some(v.text))), limit)
  }

  /** `parseReencryptRequestBody`; `None` is a body that is undefined. */
  function ParseRequest(body: Option<Json>): Request {
    if body.None? || body.value.JNull? then Accepted(None, BATCH_SIZE)
    else if !body.value.JObject? then Refused("expected { cursor?, limit? }")
    else
      var record := body.value.members;
      match ParseLimit(Get(record, "limit"))
      case None => Refused("limit must be a positive integer")
      case Some(limit) =>
        var cursor := Get(record, "cursor");
        if cursor.None? || cursor.value.JNull? then Accepted(None, limit)
        else if !cursor.value.JObject? then Refused("cursor must be an object")
        else ParseCursor(cursor.value.members, limit)
  }

  /** Whatever the parser accepts is a call the sweep does not refuse. */
  lemma AcceptedIsUsable(body: Option<Json>)
    requires ParseRequest(body).Accepted?
    ensures var r := ParseRequest(body);
            && 1 <= r.limit <= BATCH_SIZE
            && (r.cursor.Some? ==> r.cursor.value.stage in STAGES && r.cursor.value.afterId != Some(""))
  {
  }

  predicate GoodLimit(value: Option<Json>) {
    value.None?
    || (value.value.JNumber? && value.value.number >= 1.0 && value.value.number.Floor as real == value.value.number)
  }

  predicate GoodCursor(value: Option<Json>) {
    || value.None? || value.value.JNull?
    || (value.value.JObject?
        && var stage, after := Get(value.value.members, "stage"), Get(value.value.members, "afterId");
        && stage.Some? && stage.value.JString? && stage.value.text in STAGES
        && (after.None? || (after.value.JString? && after.value.text != "")))
  }

  /**
   * Exactly which bodies are accepted: none, null, or an object whose limit is
   * absent or a whole number from 1 on and whose cursor is absent, null or names a
   * stage and, if anything, an id. Without a limit the call gets a whole batch.
   */
  lemma AcceptedExactly(body: Option<Json>)
    ensures ParseRequest(body).Accepted? <==>
              || body.None? || body.value.JNull?
              || (body.value.JObject? && GoodLimit(Get(body.value.members, "limit"))
                  && GoodCursor(Get(body.value.members, "cursor")))
    ensures ParseRequest(body).Accepted? && body.Some? && body.value.JObject? ==>
              var limit, r := Get(body.value.members, "limit"), ParseRequest(body);
              && (limit.None? ==> r.limit == 200)
              && (limit.Some? ==> r.limit == if limit.value.number.Floor < 200 then limit.value.number.Floor else 200)
    ensures body.None? || body.value.JNull? ==> ParseRequest(body) == Accepted(None, 200)
  {
  }

  /** A cursor that names no stage starts over, and an empty id counts as none. */
  lemma NormalizeStartsOver(cursor: WireCursor)
    ensures cursor.stage !in STAGES ==> NormalizeCursor(Some(cursor)) == START && NormalizeCursor(None) == START
    ensures NormalizeCursor(Some(cursor)).afterId != Some("")
    ensures cursor.stage in STAGES ==>
              var c := NormalizeCursor(Some(cursor));
              STAGES[c.stage] == cursor.stage && (cursor.afterId != Some("") ==> c.afterId == cursor.afterId)
  {
    assert STAGES[0..] == STAGES;
  }

  // ---------------------------------------------------------------- stage names

  /** A number that tells the stage names apart. */
  function Code(name: string): int
    requires |name| >= 2
  {
    |name| * 65536 + name[0] as int * 256 + name[1] as int
  }

  function CodeAt(stage: Stage): int {
    if stage == 0 then 620129
    else if stage == 1 then 226412
    else if stage == 2 then 811877
    else if stage == 3 then 684146
    else if stage == 4 then 420975
    else if stage == 5 then 488308
    else if stage == 6 then 488293
    else if stage == 7 then 353903
    else if stage == 8 then 878441
    else if stage == 9 then 619639
    else if stage == 10 then 880239
    else if stage == 11 then 552303
    else if stage == 12 then 422501
    else if stage == 13 then 812133
    else if stage == 14 then 485742
    else if stage == 15 then 876917
    else if stage == 16 then 353645
    else if stage == 17 then 811372
    else 551268
  }

  lemma CodeOfStage(stage: Stage)
    ensures |STAGES[stage]| >= 2 && Code(STAGES[stage]) == CodeAt(stage)
  {
  }

  lemma StageNamesDistinct(i: Stage, j: Stage)
    requires STAGES[i] == STAGES[j]
    ensures i == j
  {
    CodeOfStage(i);
    CodeOfStage(j);
  }

  lemma StageIndexOf(stage: Stage)
    ensures StageIndex(STAGES[stage], 0) == Some(stage)
  {
    assert STAGES[stage] in STAGES[0..];
    StageNamesDistinct(stage, StageIndex(STAGES[stage], 0).value);
  }

  // ---------------------------------------------------------------- the round trip

  /** The cursor of a response, as JSON. */
  function CursorJson(cursor: Cursor): Json {
    var stage := JString(STAGES[cursor.stage]);
    match cursor.afterId
    case None => JObject(map["stage" := stage])
    case Some(id) => JObject(map["stage" := stage, "afterId" := JString(id)])
  }

  /** The request of a client that resumes from a cursor, or starts when it has none. */
  function RequestBody(cursor: Option<Cursor>, limit: nat): Json {
    var record := map["limit" := JNumber(limit as real)];
    match cursor
    case None => JObject(record)
    case Some(c) => JObject(record["cursor" := CursorJson(c)])
  }

  predicate Sendable(cursor: Option<Cursor>) {
    cursor.Some? ==> cursor.value.afterId != Some("")
  }

  function CursorOf(cursor: Option<Cursor>): Cursor {
    match cursor
    case None => START
    case Some(c) => c
  }

  lemma CursorParses(c: Cursor, limit: nat)
    requires c.afterId != Some("")
    ensures CursorJson(c).JObject? && ParseCursor(CursorJson(c).members, limit) == Accepted(Some(ToWire(c)), limit)
  {
    assert "stage" != "afterId";
  }

  lemma NormalizesBack(cursor: Option<Cursor>)
    requires Sendable(cursor)
    ensures var wire := if cursor.None? then None else Some(ToWire(cursor.value));
            NormalizeCursor(wire) == CursorOf(cursor)
  {
    if cursor.Some? {
      StageIndexOf(cursor.value.stage);
    }
  }

  /** A cursor comes back from the client unchanged; a limit above the batch size is capped. */
  lemma RequestRoundTrip(cursor: Option<Cursor>, limit: nat)
    requires Sendable(cursor) && limit > 0
    ensures var r := ParseRequest(Some(RequestBody(cursor, limit)));
            r.Accepted? && r.limit == Min(limit, BATCH_SIZE) && NormalizeCursor(r.cursor) == CursorOf(cursor)
  {
    var record := RequestBody(cursor, limit).members;
    assert "limit" != "cursor" by { assert |"limit"| != |"cursor"|; }
    assert Get(record, "limit") == Some(JNumber(limit as real));
    assert (limit as real).Floor == limit;
    NormalizesBack(cursor);
    if cursor.Some? {
      CursorParses(cursor.value, Min(limit, BATCH_SIZE));
      assert Get(record, "cursor") == Some(CursorJson(cursor.value));
    }
  }

  // ---------------------------------------------------------------- a whole session over HTTP

  /** One request: parse the body, then run the call it asks for. */
  function Serve(s: Keyring, w: World, body: Json): Option<(World, Result)> {
    match ParseRequest(Some(body))
    case Refused(_) => None
    case Accepted(cursor, limit) => Reencrypt(s, w, cursor, limit)
  }

  lemma ServeIsAdvance(s: Keyring, w: World, cursor: Option<Cursor>, limit: nat)
    requires Sendable(cursor) && limit > 0
    ensures Serve(s, w, RequestBody(cursor, limit))
               == Some(Advance(s, w, CursorOf(cursor), Min(limit, BATCH_SIZE), EMPTY_SUMMARY))
  {
    RequestRoundTrip(cursor, limit);
  }

  /** A client that sends each returned cursor back with the next of its limits, adding up the counts. */
  function HttpSession(s: Keyring, w: World, cursor: Option<Cursor>, limits: seq<nat>,
                       sum: Summary): Option<(World, Result)>
    decreases |limits|
  {
    if limits == [] then Some((w, Result(sum, false, Some(CursorOf(cursor)))))
    else
      match Serve(s, w, RequestBody(cursor, limits[0]))
      case None => None
      case Some(x) =>
        var total := sum.Plus(x.1.sum);
        if x.1.cursor.None? then Some((x.0, Result(total, x.1.completed, None)))
        else HttpSession(s, x.0, x.1.cursor, limits[1..], total)
  }

  function Capped(limits: seq<nat>): seq<nat> {
    seq(|limits|, i requires 0 <= i < |limits| => Min(limits[i], BATCH_SIZE))
  }

  function ReturnsSendable(): Claim {
    (w: World, c: Cursor, n: nat, sum: Summary, x: (World, Result), looked: seq<Read>) => Sendable(x.1.cursor)
  }

  lemma StageSendable(s: Keyring, w: World, c: Cursor, n: nat, sum: Summary)
    requires n > 0
    ensures var b := RunStage(s, w, c, n, sum); b.2.Done? ==> Sendable(b.2.result.cursor)
  {
  }

  lemma SendablePasses(w: World, c: Cursor, n: nat, sum: Summary, b: (World, nat, BatchOutcome), looked: seq<Read>)
    requires b.1 <= n && (b.2.Done? ==> Sendable(b.2.result.cursor))
    ensures Passes(ReturnsSendable(), w, c, n, sum, b, looked)
  {
  }

  lemma ReturnedCursorSendable(s: Keyring, w: World, cursor: Cursor, remaining: nat, sum: Summary)
    requires remaining > 0
    ensures Sendable(Advance(s, w, cursor, remaining, sum).1.cursor)
  {
    forall w: World, c: Cursor, n: nat, sum: Summary | n > 0
      ensures Passes(ReturnsSendable(), w, c, n, sum, RunStage(s, w, c, n, sum), StageReads(s, w, c, n, sum))
    {
      StageSendable(s, w, c, n, sum);
      SendablePasses(w, c, n, sum, RunStage(s, w, c, n, sum), StageReads(s, w, c, n, sum));
    }
    AdvanceInduction(s, ReturnsSendable(), w, cursor, remaining, sum);
  }

  lemma HttpSessionUnfolds(s: Keyring, w: World, cursor: Option<Cursor>, limits: seq<nat>, sum: Summary,
                           x: (World, Result))
    requires limits != [] && Serve(s, w, RequestBody(cursor, limits[0])) == Some(x)
    ensures HttpSession(s, w, cursor, limits, sum) ==
              if x.1.cursor.None? then Some((x.0, After(sum, x.1)))
              else HttpSession(s, x.0, x.1.cursor, limits[1..], sum.Plus(x.1.sum))
  {
  }

  /** Going through the request parser between calls changes nothing but the cap on the limits. */
  lemma {:induction false} HttpSessionIsSession(s: Keyring, w: World, cursor: Option<Cursor>, limits: seq<nat>,
                                                sum: Summary)
    requires Sendable(cursor) && forall i :: 0 <= i < |limits| ==> limits[i] > 0
    ensures HttpSession(s, w, cursor, limits, sum) == Some(Session(s, w, CursorOf(cursor), Capped(limits), sum))
    decreases |limits|
  {
    if limits != [] {
      var capped := Capped(limits);
      var x := Advance(s, w, CursorOf(cursor), capped[0], EMPTY_SUMMARY);
      ServeIsAdvance(s, w, cursor, limits[0]);
      HttpSessionUnfolds(s, w, cursor, limits, sum, x);
      SessionUnfolds(s, w, CursorOf(cursor), capped, sum, x);
      assert capped[1..] == Capped(limits[1..]);
      ReturnedCursorSendable(s, w, CursorOf(cursor), capped[0], EMPTY_SUMMARY);
      if x.1.cursor.Some? {
        HttpSessionIsSession(s, x.0, x.1.cursor, limits[1..], sum.Plus(x.1.sum));
      }
    }
  }
}
