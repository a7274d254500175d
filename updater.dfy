/**
  `main` (main.go:68-100) with `getZone`, `getRecord` and `getExternalIP` around it:
  resolve the zone, resolve the record, read the external address, update if it
  changed, and report. Every network reply is an input; the requests the run
  issues, in order, are an output, and so is what it reports.
*/
module Updater {
  import opened Wrappers
  import opened Cloudflare
  import opened Endpoints
  import opened Lookup
  import opened Whitespace
  import opened Update

  /** The four steps of `main`. */
  datatype Stage = ZoneLookup | RecordLookup | AddressLookup | RecordUpdate

  /** The line `main` prints before it stops on an error in a step. */
  function Heading(stage: Stage): string
  {
    match stage
    case ZoneLookup => "[Error] Problem retrieving the zone"
    case RecordLookup => "[Error] Problem retrieving the record"
    case AddressLookup => "[Error] Problem retrieving the external ip"
    case RecordUpdate => "[Error] Problem updating the record ip"
  }

  /** Each step has its own heading, so the printed line tells which step failed. */
  lemma HeadingNamesStage(s: Stage, t: Stage)
    requires Heading(s) == Heading(t)
    ensures s == t
  {
    assert |Heading(ZoneLookup)| == 35 && |Heading(RecordLookup)| == 37;
    assert |Heading(AddressLookup)| == 42 && |Heading(RecordUpdate)| == 38;
  }

  /** The settings the Go program hardcodes: API base URL, zone name, record name. */
  datatype Config = Config(baseUrl: string, zoneName: string, recordName: string)

  /** What the network answers, one reply per request: the decoded zone list, the
      decoded record list, the raw body of the IP-echo reply, and the decoded
      `Success` flag of the PUT. A failed request or decode is a `Failure`. */
  datatype Replies = Replies(
    zones: Result<seq<Zone>, Error>,
    records: Result<seq<Record>, Error>,
    echo: Result<string, Error>,
    update: Result<bool, Error>)

  /** A request the run issues: an authenticated GET or PUT to the provider
      (`getAPIJSON`, `putAPIJSON`), or the plain GET of the IP-echo service. */
  datatype Request = GetJson(url: string) | GetText(url: string) | PutJson(url: string, payload: Record)

  /** What the run ends with: a line printed on success, or the step that failed
      (whose Heading is printed) and the error `log.Fatal` reports before the
      process exits with a failure status. */
  datatype Report = Printed(line: string) | Fatal(stage: Stage, error: Error)

  datatype Outcome = Outcome(report: Report, requests: seq<Request>)

  /** `o`, preceded by the request `req`. */
  function Then(req: Request, o: Outcome): Outcome
  {
    Outcome(o.report, [req] + o.requests)
  }

  /** The last step, once the address `ip` and the record `rec` are known:
      `updateRecordIP` and the report of its result. */
  function Finish(base: string, ip: string, rec: Record, update: Result<bool, Error>): Outcome
  {
    match Decide(base, ip, rec)
    case NoChange(msg) => Outcome(Printed(msg), [])
    case Put(url, payload) =>
      match Conclude(ip, rec, update)
      case Success(msg) => Outcome(Printed(msg), [PutJson(url, payload)])
      case Failure(e) => Outcome(Fatal(RecordUpdate, e), [PutJson(url, payload)])
  }

  /** From `getExternalIP` on, once the record is known. */
  function AddressStep(cfg: Config, rec: Record, replies: Replies): Outcome
  {
    match replies.echo
    case Failure(e) => Outcome(Fatal(AddressLookup, e), [GetText(CheckIpUrl)])
    case Success(body) => Then(GetText(CheckIpUrl), Finish(cfg.baseUrl, TrimSpace(body), rec, replies.update))
  }

  /** From `getRecord` on, once the zone is known. */
  function RecordStep(cfg: Config, zone: Zone, replies: Replies): Outcome
  {
    var listRecords := GetJson(RecordsUrl(cfg.baseUrl, zone.id));
    match replies.records
    case Failure(e) => Outcome(Fatal(RecordLookup, e), [listRecords])
    case Success(records) =>
      match FindRecord(records, cfg.recordName, zone.id)
      case Failure(e) => Outcome(Fatal(RecordLookup, e), [listRecords])
      case Success(rec) => Then(listRecords, AddressStep(cfg, rec, replies))
  }

  /** The whole run, step by step, as a function of the configuration and the replies. */
  function Pipeline(cfg: Config, replies: Replies): Outcome
  {
    var listZones := GetJson(ZonesUrl(cfg.baseUrl));
    match replies.zones
    case Failure(e) => Outcome(Fatal(ZoneLookup, e), [listZones])
    case Success(zones) =>
      match FindZone(zones, cfg.zoneName)
      case Failure(e) => Outcome(Fatal(ZoneLookup, e), [listZones])
      case Success(zone) => Then(listZones, RecordStep(cfg, zone, replies))
  }

  /** `main`: the steps in order, each stopping the run on its first error. */
  method Run(cfg: Config, replies: Replies) returns (outcome: Outcome)
    ensures outcome == Pipeline(cfg, replies)
  {
    var listZones := GetJson(ZonesUrl(cfg.baseUrl));
    if replies.zones.Failure? {
      return Outcome(Fatal(ZoneLookup, replies.zones.error), [listZones]);
    }
    var z := GetZone(replies.zones.value, cfg.zoneName);
    if z.Failure? {
      return Outcome(Fatal(ZoneLookup, z.error), [listZones]);
    }

    var listRecords := GetJson(RecordsUrl(cfg.baseUrl, z.value.id));
    if replies.records.Failure? {
      return Outcome(Fatal(RecordLookup, replies.records.error), [listZones, listRecords]);
    }
    var rec := GetRecord(replies.records.value, cfg.recordName, z.value.id);
    if rec.Failure? {
      return Outcome(Fatal(RecordLookup, rec.error), [listZones, listRecords]);
    }

    var fetches := [listZones, listRecords, GetText(CheckIpUrl)];
    if replies.echo.Failure? {
      return Outcome(Fatal(AddressLookup, replies.echo.error), fetches);
    }
    var ip := TrimSpace(replies.echo.value);
    PipelineComplete(cfg, replies, z.value, rec.value, replies.echo.value);

    var result, action := UpdateRecordIP(cfg.baseUrl, ip, rec.value, replies.update);
    FinishIsUpdate(cfg.baseUrl, ip, rec.value, replies.update, result, action);
    var sent := if action.Put? then [PutJson(action.url, action.payload)] else [];
    match result {
      case Failure(e) => outcome := Outcome(Fatal(RecordUpdate, e), fetches + sent);
      case Success(line) => outcome := Outcome(Printed(line), fetches + sent);
    }
  }

  /** Finish is what `updateRecordIP` returns, reported, with the PUT it sent. */
  lemma FinishIsUpdate(base: string, ip: string, rec: Record, update: Result<bool, Error>,
                       result: Result<string, Error>, action: Action)
    requires action == Decide(base, ip, rec)
    requires action.NoChange? ==> result == Success(NoChangeMessage)
    requires action.Put? ==> result == Conclude(ip, rec, update)
    ensures var o := Finish(base, ip, rec, update);
      && o.requests == (if action.Put? then [PutJson(action.url, action.payload)] else [])
      && o.report == (if result.Success? then Printed(result.value) else Fatal(RecordUpdate, result.error))
  {
  }

  /** A run that gets past the address step is the three fetches followed by the last step. */
  lemma PipelineComplete(cfg: Config, replies: Replies, zone: Zone, rec: Record, body: string)
    requires replies.zones.Success? && FindZone(replies.zones.value, cfg.zoneName) == Success(zone)
    requires replies.records.Success? && FindRecord(replies.records.value, cfg.recordName, zone.id) == Success(rec)
    requires replies.echo == Success(body)
    ensures var last := Finish(cfg.baseUrl, TrimSpace(body), rec, replies.update);
      Pipeline(cfg, replies) ==
        Outcome(last.report,
                [GetJson(ZonesUrl(cfg.baseUrl)), GetJson(RecordsUrl(cfg.baseUrl, zone.id)), GetText(CheckIpUrl)] + last.requests)
  {
    var a, b, c := GetJson(ZonesUrl(cfg.baseUrl)), GetJson(RecordsUrl(cfg.baseUrl, zone.id)), GetText(CheckIpUrl);
    var last := Finish(cfg.baseUrl, TrimSpace(body), rec, replies.update);
    ZoneKnown(cfg, replies, zone);
    RecordKnown(cfg, zone, replies, rec);
    AddressKnown(cfg, rec, replies, body);
    ThenThree(a, b, c, last);
  }

  /** Three requests put in front, one at a time, are the three in a row. */
  lemma ThenThree(a: Request, b: Request, c: Request, o: Outcome)
    ensures Then(a, Then(b, Then(c, o))) == Outcome(o.report, [a, b, c] + o.requests)
  {
    assert [a] + ([b] + ([c] + o.requests)) == [a, b, c] + o.requests;
  }

  /** Once the zone is found, the run lists the zones, then goes on with the record step. */
  lemma ZoneKnown(cfg: Config, replies: Replies, zone: Zone)
    requires replies.zones.Success? && FindZone(replies.zones.value, cfg.zoneName) == Success(zone)
    ensures Pipeline(cfg, replies) == Then(GetJson(ZonesUrl(cfg.baseUrl)), RecordStep(cfg, zone, replies))
  {
  }

  /** Once the record is found, the record step lists the records, then goes on with the address step. */
  lemma RecordKnown(cfg: Config, zone: Zone, replies: Replies, rec: Record)
    requires replies.records.Success? && FindRecord(replies.records.value, cfg.recordName, zone.id) == Success(rec)
    ensures RecordStep(cfg, zone, replies) == Then(GetJson(RecordsUrl(cfg.baseUrl, zone.id)), AddressStep(cfg, rec, replies))
  {
  }

  /** Once the address is read, the address step asks for it, then goes on with the last step. */
  lemma AddressKnown(cfg: Config, rec: Record, replies: Replies, body: string)
    requires replies.echo == Success(body)
    ensures AddressStep(cfg, rec, replies) == Then(GetText(CheckIpUrl), Finish(cfg.baseUrl, TrimSpace(body), rec, replies.update))
  {
  }

  /** No request but the last is a PUT. */
  predicate PutOnlyLast(reqs: seq<Request>)
  {
    forall i :: 0 <= i < |reqs| - 1 ==> !reqs[i].PutJson?
  }

  /** Putting a GET in front keeps every PUT last. */
  lemma ThenPutOnlyLast(req: Request, o: Outcome)
    requires !req.PutJson? && PutOnlyLast(o.requests)
    ensures PutOnlyLast(Then(req, o).requests)
  {
    var reqs := Then(req, o).requests;
    assert forall i :: 1 <= i < |reqs| ==> reqs[i] == o.requests[i - 1];
  }

  /** The last step sends a PUT exactly when the address differs from the record's
      content, and the PUT carries the record with only its content replaced, to
      the record's own endpoint. */
  lemma FinishRequests(base: string, ip: string, rec: Record, update: Result<bool, Error>)
    ensures var reqs := Finish(base, ip, rec, update).requests;
      && |reqs| <= 1
      && (|reqs| == 1 <==> ip != rec.content)
      && (|reqs| == 1 ==>
            reqs[0].PutJson? &&
            reqs[0].url == RecordUpdateUrl(base, rec.zoneId, rec.id) &&
            reqs[0].payload.content == ip && SameExceptContent(reqs[0].payload, rec))
  {
    var a := Decide(base, ip, rec);
    if a.Put? {
      assert a.url == RecordUpdateUrl(base, rec.zoneId, rec.id);
    }
  }

  /** The report of the last step: no change when the address is the record's
      content, otherwise the provider's flag alone decides. */
  lemma FinishReport(base: string, ip: string, rec: Record, update: Result<bool, Error>)
    ensures var o := Finish(base, ip, rec, update);
      && (ip == rec.content ==> o.report == Printed(NoChangeMessage))
      && (ip != rec.content && update == Success(true) ==> o.report == Printed(UpdatedMessage(ip, rec.name)))
      && (ip != rec.content && update == Success(false) ==> o.report == Fatal(RecordUpdate, UpdateRejected(ip, rec.name)))
      && (ip != rec.content && update.Failure? ==> o.report == Fatal(RecordUpdate, update.error))
  {
  }

  /** The last step fails only in the update step, after its PUT. */
  lemma FinishStops(base: string, ip: string, rec: Record, update: Result<bool, Error>)
    ensures var o := Finish(base, ip, rec, update);
      o.report.Fatal? ==> o.report.stage == RecordUpdate && |o.requests| == 1 && o.requests[0].PutJson?
  {
  }

  /** From the address step on, the run asks for the address first and sends at
      most one more request, a PUT. */
  lemma AddressStepRequests(cfg: Config, rec: Record, replies: Replies)
    ensures var reqs := AddressStep(cfg, rec, replies).requests;
      1 <= |reqs| <= 2 && reqs[0] == GetText(CheckIpUrl) && PutOnlyLast(reqs)
  {
    match replies.echo
    case Failure(_) =>
    case Success(body) =>
      FinishRequests(cfg.baseUrl, TrimSpace(body), rec, replies.update);
      ThenPutOnlyLast(GetText(CheckIpUrl), Finish(cfg.baseUrl, TrimSpace(body), rec, replies.update));
  }

  /** A failure from the address step on is the address step's, as the only
      request, or the update step's, after the PUT. */
  lemma AddressStepStops(cfg: Config, rec: Record, replies: Replies)
    ensures var o := AddressStep(cfg, rec, replies);
      o.report.Fatal? ==>
        (o.report.stage == AddressLookup && |o.requests| == 1) ||
        (o.report.stage == RecordUpdate && |o.requests| == 2 && o.requests[1].PutJson?)
  {
    if replies.echo.Success? {
      AddressKnownStops(cfg, rec, replies, replies.echo.value);
    }
  }

  /** Once the address is known, only the update step can fail, after the PUT. */
  lemma AddressKnownStops(cfg: Config, rec: Record, replies: Replies, body: string)
    requires replies.echo == Success(body)
    ensures var o := AddressStep(cfg, rec, replies);
      o.report.Fatal? ==> o.report.stage == RecordUpdate && |o.requests| == 2 && o.requests[1].PutJson?
  {
    var last := Finish(cfg.baseUrl, TrimSpace(body), rec, replies.update);
    AddressKnown(cfg, rec, replies, body);
    FinishStops(cfg.baseUrl, TrimSpace(body), rec, replies.update);
    ThenStops(GetText(CheckIpUrl), last);
  }

  /** A request put in front of a run that fails only after its one PUT. */
  lemma ThenStops(req: Request, o: Outcome)
    requires o.report.Fatal? ==> o.report.stage == RecordUpdate && |o.requests| == 1 && o.requests[0].PutJson?
    ensures var t := Then(req, o);
      t.report.Fatal? ==> t.report.stage == RecordUpdate && |t.requests| == 2 && t.requests[1].PutJson?
  {
  }

  /** From the record step on: the records of the zone are listed first, at most
      three requests are sent, and the step that failed fixes how many. */
  lemma RecordStepShape(cfg: Config, zone: Zone, replies: Replies)
    ensures var o := RecordStep(cfg, zone, replies);
      && 1 <= |o.requests| <= 3 && o.requests[0] == GetJson(RecordsUrl(cfg.baseUrl, zone.id))
      && PutOnlyLast(o.requests)
      && (o.report.Fatal? ==>
            (o.report.stage == RecordLookup && |o.requests| == 1) ||
            (o.report.stage == AddressLookup && |o.requests| == 2) ||
            (o.report.stage == RecordUpdate && |o.requests| == 3 && o.requests[2].PutJson?))
  {
    match replies.records
    case Failure(_) =>
    case Success(records) =>
      match FindRecord(records, cfg.recordName, zone.id)
      case Failure(_) =>
      case Success(rec) =>
        var rest := AddressStep(cfg, rec, replies);
        AddressStepRequests(cfg, rec, replies);
        AddressStepStops(cfg, rec, replies);
        ThenPutOnlyLast(GetJson(RecordsUrl(cfg.baseUrl, zone.id)), rest);
  }

  /** The run starts by listing the zones, issues at most four requests, and sends
      at most one PUT, as its last request. */
  lemma PipelineRequestShape(cfg: Config, replies: Replies)
    ensures var reqs := Pipeline(cfg, replies).requests;
      1 <= |reqs| <= 4 && reqs[0] == GetJson(ZonesUrl(cfg.baseUrl)) &&
      forall i :: 0 <= i < |reqs| - 1 ==> !reqs[i].PutJson?
  {
    match replies.zones
    case Failure(_) =>
    case Success(zones) =>
      match FindZone(zones, cfg.zoneName)
      case Failure(_) =>
      case Success(zone) =>
        var rest := RecordStep(cfg, zone, replies);
        RecordStepShape(cfg, zone, replies);
        ThenPutOnlyLast(GetJson(ZonesUrl(cfg.baseUrl)), rest);
        assert PutOnlyLast(Pipeline(cfg, replies).requests);
  }

  /** A failing step stops the run: the report names the step, the reported error
      is the step's own, and no request follows the failing one. */
  lemma PipelineStopsAtFirstError(cfg: Config, replies: Replies)
    ensures var o := Pipeline(cfg, replies);
      && (replies.zones.Failure? ==> o == Outcome(Fatal(ZoneLookup, replies.zones.error), [GetJson(ZonesUrl(cfg.baseUrl))]))
      && (o.report.Fatal? && o.report.stage == ZoneLookup ==> |o.requests| == 1)
      && (o.report.Fatal? && o.report.stage == RecordLookup ==> |o.requests| == 2)
      && (o.report.Fatal? && o.report.stage == AddressLookup ==> |o.requests| == 3)
      && (o.report.Fatal? && o.report.stage == RecordUpdate ==> |o.requests| == 4 && o.requests[3].PutJson?)
  {
    match replies.zones
    case Failure(_) =>
    case Success(zones) =>
      match FindZone(zones, cfg.zoneName)
      case Failure(_) =>
      case Success(zone) =>
        var rest := RecordStep(cfg, zone, replies);
        RecordStepShape(cfg, zone, replies);
        assert Pipeline(cfg, replies).requests[1..] == rest.requests;
  }

  /** The errors of the zone step: a failed fetch is passed on, and a list without
      the zone gives the not-found error naming it; only the zone list was requested. */
  lemma PipelineZoneErrors(cfg: Config, replies: Replies)
    ensures var o := Pipeline(cfg, replies); var first := [GetJson(ZonesUrl(cfg.baseUrl))];
      && (replies.zones.Failure? ==> o == Outcome(Fatal(ZoneLookup, replies.zones.error), first))
      && (replies.zones.Success? && (forall i :: 0 <= i < |replies.zones.value| ==> replies.zones.value[i].name != cfg.zoneName) ==>
            o == Outcome(Fatal(ZoneLookup, ZoneNotFound(cfg.zoneName)), first))
  {
  }

  /** The errors of the record step, once the zone is found: a failed fetch is
      passed on, and a list without the record gives the not-found error naming the
      record and the zone id; the two lists were requested. */
  lemma PipelineRecordErrors(cfg: Config, replies: Replies, zone: Zone)
    requires replies.zones.Success? && FindZone(replies.zones.value, cfg.zoneName) == Success(zone)
    ensures var o := Pipeline(cfg, replies);
      var fetched := [GetJson(ZonesUrl(cfg.baseUrl)), GetJson(RecordsUrl(cfg.baseUrl, zone.id))];
      && (replies.records.Failure? ==> o == Outcome(Fatal(RecordLookup, replies.records.error), fetched))
      && (replies.records.Success? && (forall i :: 0 <= i < |replies.records.value| ==> replies.records.value[i].name != cfg.recordName) ==>
            o == Outcome(Fatal(RecordLookup, RecordNotFound(cfg.recordName, zone.id)), fetched))
  {
    var a, b := GetJson(ZonesUrl(cfg.baseUrl)), GetJson(RecordsUrl(cfg.baseUrl, zone.id));
    ZoneKnown(cfg, replies, zone);
    assert [a] + [b] == [a, b];
  }

  /** The error of the address step, once zone and record are found: a failed
      fetch of the address is passed on, after the three GETs. */
  lemma PipelineAddressError(cfg: Config, replies: Replies, zone: Zone, rec: Record)
    requires replies.zones.Success? && FindZone(replies.zones.value, cfg.zoneName) == Success(zone)
    requires replies.records.Success? && FindRecord(replies.records.value, cfg.recordName, zone.id) == Success(rec)
    requires replies.echo.Failure?
    ensures Pipeline(cfg, replies) ==
      Outcome(Fatal(AddressLookup, replies.echo.error),
              [GetJson(ZonesUrl(cfg.baseUrl)), GetJson(RecordsUrl(cfg.baseUrl, zone.id)), GetText(CheckIpUrl)])
  {
    var a, b, c := GetJson(ZonesUrl(cfg.baseUrl)), GetJson(RecordsUrl(cfg.baseUrl, zone.id)), GetText(CheckIpUrl);
    ZoneKnown(cfg, replies, zone);
    RecordKnown(cfg, zone, replies, rec);
    assert [a] + ([b] + [c]) == [a, b, c];
  }

  /** Once zone, record and address are known: the run sends a PUT exactly when the
      trimmed address differs from the record's content, and the PUT carries the
      record with only its content replaced, to the record's own endpoint. */
  lemma PipelinePutsOnlyOnChange(cfg: Config, replies: Replies, zone: Zone, rec: Record, body: string)
    requires replies.zones.Success? && FindZone(replies.zones.value, cfg.zoneName) == Success(zone)
    requires replies.records.Success? && FindRecord(replies.records.value, cfg.recordName, zone.id) == Success(rec)
    requires replies.echo == Success(body)
    ensures var reqs := Pipeline(cfg, replies).requests;
      && reqs[..3] == [GetJson(ZonesUrl(cfg.baseUrl)), GetJson(RecordsUrl(cfg.baseUrl, zone.id)), GetText(CheckIpUrl)]
      && (|reqs| == 4 <==> TrimSpace(body) != rec.content)
      && (|reqs| == 4 ==>
            reqs[3].PutJson? &&
            reqs[3].url == RecordUpdateUrl(cfg.baseUrl, rec.zoneId, rec.id) &&
            reqs[3].payload.content == TrimSpace(body) && SameExceptContent(reqs[3].payload, rec))
  {
    PipelineComplete(cfg, replies, zone, rec, body);
    FinishRequests(cfg.baseUrl, TrimSpace(body), rec, replies.update);
  }

  /** The reported line of a complete run: no change when the address is the
      record's content, otherwise the provider's flag alone decides. */
  lemma PipelineReport(cfg: Config, replies: Replies, zone: Zone, rec: Record, body: string)
    requires replies.zones.Success? && FindZone(replies.zones.value, cfg.zoneName) == Success(zone)
    requires replies.records.Success? && FindRecord(replies.records.value, cfg.recordName, zone.id) == Success(rec)
    requires replies.echo == Success(body)
    ensures var o := Pipeline(cfg, replies); var ip := TrimSpace(body);
      && (ip == rec.content ==> o.report == Printed(NoChangeMessage))
      && (ip != rec.content && replies.update == Success(true) ==>
            o.report == Printed(UpdatedMessage(ip, rec.name)))
      && (ip != rec.content && replies.update == Success(false) ==>
            o.report == Fatal(RecordUpdate, UpdateRejected(ip, rec.name)))
      && (ip != rec.content && replies.update.Failure? ==>
            o.report == Fatal(RecordUpdate, replies.update.error))
  {
    PipelineComplete(cfg, replies, zone, rec, body);
    FinishReport(cfg.baseUrl, TrimSpace(body), rec, replies.update);
  }

  /** Running again is harmless: if a run sent a PUT and the provider now lists the
      record that was sent, a second run with the same address sends no PUT and
      reports that nothing changed. */
  lemma PipelineIdempotent(cfg: Config, first: Replies, records: seq<Record>, zone: Zone)
    requires first.zones.Success? && FindZone(first.zones.value, cfg.zoneName) == Success(zone)
    requires |Pipeline(cfg, first).requests| == 4 && Pipeline(cfg, first).requests[3].PutJson?
    requires FindRecord(records, cfg.recordName, zone.id) == Success(Pipeline(cfg, first).requests[3].payload)
    ensures var again := Pipeline(cfg, first.(records := Success(records)));
      again.report == Printed(NoChangeMessage) && |again.requests| == 3
  {
    var second := first.(records := Success(records));
    PipelineStopsAtFirstError(cfg, first);
    match first.records
    case Failure(_) =>
    case Success(firstRecords) =>
      match FindRecord(firstRecords, cfg.recordName, zone.id)
      case Failure(_) =>
      case Success(rec) =>
        match first.echo
        case Failure(_) =>
        case Success(body) =>
          PipelinePutsOnlyOnChange(cfg, first, zone, rec, body);
          var sent := Pipeline(cfg, first).requests[3].payload;
          PipelinePutsOnlyOnChange(cfg, second, zone, sent, body);
          PipelineReport(cfg, second, zone, sent, body);
  }
}
