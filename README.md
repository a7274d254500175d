# cloudflare-update-record-ip, modelled in Dafny

`main.go` is a small dynamic-DNS updater. It runs these steps in order:

1. It fetches the account's zones from the Cloudflare API and picks the zone with the configured name (`getZone`).
2. It fetches that zone's DNS records and picks the record with the configured name (`getRecord`).
3. It reads the host's public address from an IP-echo service and trims it (`getExternalIP`).
4. If the address differs from the record's `Content`, it PUTs the record back with only `Content` changed (`updateRecordIP`).
5. It prints the result.

The first error stops the run.

The model treats every network reply as an input. What is left is deterministic, and the model specifies and proves all of it:

- the lookups;
- the update decision and its outcome;
- endpoint formatting;
- white-space trimming;
- the sequencing of `main`.

`main`'s sequencing has two outputs: the requests issued, in order, and what is finally reported.

Modules (one file each):

- `Wrappers` (`wrappers.dfy`): `Option` and `Result`.
- `Fmt` (`fmt.dfy`): the part of `fmt.Sprintf`/`fmt.Errorf` the program uses.
  - Format strings are kept parsed: literal text and `%s`/`%v` directives.
  - `Sprintf` fills the directives in.
  - `Source` gives back the Go format string.
- `Cloudflare` (`cloudflare.dfy`):
  - the `zone` and `record` structs;
  - the program's errors;
  - the texts of the three errors the program builds itself.
- `Endpoints` (`endpoints.dfy`): the three path templates and the URLs built from them.
- `Lookup` (`lookup.dfy`): the first-match searches of `getZone` and `getRecord`.
  - Each is a specification function plus a method with the source's loop.
- `Whitespace` (`whitespace.dfy`): `strings.TrimSpace` over ASCII white space.
- `Update` (`update.dfy`): `updateRecordIP`.
  - `Decide` returns the action, either no change or one PUT with its URL and payload.
  - `Conclude` maps the provider's `Success` flag to the outcome.
  - The method `UpdateRecordIP` follows the source's steps.
- `Updater` (`updater.dfy`): `main`.
  - `Pipeline` is the whole run as a function of the configuration and the replies.
  - It is staged as `RecordStep` → `AddressStep` → `Finish`.
  - The method `Run` performs the steps imperatively and is proved equal to `Pipeline`.

Two details of the code are modelled as written:

- The PUT endpoint is built from the record's own `ZoneID` field (main.go:186), not from the id of the zone found in step 1.
- When several entries share a name, the first one in the provider's order wins (main.go:144-148, 163-167).

## Model

| member | source | states |
|---|---|---|
| Cloudflare.ZoneNotFoundText | main.go:151 | the not-found error text is the format string with the requested zone name inserted |
| Cloudflare.RecordNotFoundText | main.go:170 | the record-not-found text names the record name and the zone id, in that order |
| Cloudflare.UpdateRejectedText | main.go:196 | the rejected-update text names the address and the record name |
| Cloudflare.ErrorFormatsParsed | main.go:151-196 | the not-found and rejection formats are parsed pieces: non-empty literal text without `%`, each followed by a directive or the end |
| Cloudflare.ErrorText | main.go:136-197 | an error from the HTTP client or the decoder keeps its own text; each error the program builds has the text of its format string, filled with its keys |
| Endpoints.TemplatesMatchSource | main.go:19-21 | the parsed templates are exactly the Go format strings `%s/zones`, `%s/zones/%s/dns_records` and `%s/zones/%s/dns_records/%s` |
| Endpoints.TemplatesParsed | main.go:19-21 | each template is parsed pieces: non-empty literal text without `%`, each followed by a directive or the end |
| Endpoints.ZonesUrl | main.go:138 | the zones endpoint is base + "/zones" |
| Endpoints.RecordsUrl | main.go:157 | the records endpoint is base + "/zones/" + zone id + "/dns_records", i.e. the zones endpoint extended by the zone id |
| Endpoints.RecordUpdateUrl | main.go:186 | the record endpoint is base + "/zones/" + zone id + "/dns_records/" + record id, i.e. the zone's records endpoint extended by the record id |
| Endpoints.RecordUpdateUrlInjective | main.go:186 | when zone ids contain no '/', equal record endpoints have equal zone ids and equal record ids |
| Lookup.FirstIndex | main.go:144-149 | None exactly when the key is absent; otherwise an in-range index that holds the key, with no earlier occurrence |
| Lookup.FindZone | main.go:144-151 | fails exactly when no zone has the name; the failure is the not-found error naming it; a success has that name and is the earliest zone with it |
| Lookup.FindZoneFirstMatch | main.go:144-148 | the zone at the lowest index with the name is the one found, wherever it is |
| Lookup.GetZone | main.go:144-151 | the in-order scan with early return yields FindZone's result |
| Lookup.FindRecord | main.go:163-170 | fails exactly when no record has the name; the failure names the record name and the zone id; a success has that name and is the earliest record with it |
| Lookup.FindRecordFirstMatch | main.go:163-167 | the record at the lowest index with the name is the one found, wherever it is |
| Lookup.GetRecord | main.go:163-170 | the in-order scan with early return yields FindRecord's result |
| Whitespace.TrimSpace | main.go:213 | the result neither starts nor ends with white space, and it sits in the input at some offset with only white space before and after it |
| Whitespace.TrimSpaceUnique | main.go:213 | for white space, then a trimmed text, then white space, the result is exactly that text |
| Whitespace.TrimSpaceKeepsTrimmed | main.go:213 | a text with no outer white space is returned unchanged |
| Whitespace.TrimSpaceIdempotent | main.go:213 | trimming twice equals trimming once |
| Whitespace.TrimSpaceDropsNewline | main.go:213 | an echo body "198.51.100.4\n" yields "198.51.100.4" |
| Update.UpdatedMessage | main.go:193 | the success message names the new address and the record name |
| Update.UpdatedFormatParsed | main.go:193 | the success format is parsed pieces: non-empty literal text without `%`, each followed by a directive or the end |
| Update.Decide | main.go:175-186 | no change, with the fixed message, exactly when the address equals the record's content; otherwise a PUT whose payload has content := the address and every other field unchanged, sent to base/zones/rec.zoneId/dns_records/rec.id |
| Update.Conclude | main.go:187-196 | success exactly when the provider answers Success = true, with the message naming address and record; `false` gives the rejection naming both; a transport or decode error is passed through |
| Update.UpdateRecordIP | main.go:174-197 | the in-place update of the local record copy produces Decide's action, the no-change message when nothing is sent, and Conclude's outcome after a PUT |
| Update.DecideIdempotent | main.go:175-179 | deciding again on the payload that was sent, with the same address, gives no change |
| Updater.Heading | main.go:73-94 | no contract; the heading line printed before each step's error, whose distinctness is HeadingNamesStage |
| Updater.Finish | main.go:92-99 | no contract; the update step of `main`, whose properties are FinishIsUpdate, FinishRequests, FinishReport and FinishStops |
| Updater.AddressStep | main.go:85-99 | no contract; `main` from `getExternalIP` on, whose properties are AddressKnown, AddressStepRequests and AddressStepStops |
| Updater.RecordStep | main.go:78-99 | no contract; `main` from `getRecord` on, whose properties are RecordKnown and RecordStepShape |
| Updater.Pipeline | main.go:68-100 | no contract; the whole run as a function of the replies, whose properties are the Pipeline lemmas below, and which Run is proved equal to |
| Updater.HeadingNamesStage | main.go:73-94 | the four error headings are pairwise distinct, so the printed line identifies the failing step |
| Updater.Run | main.go:68-100 | running the steps imperatively gives exactly Pipeline's report and request list |
| Updater.FinishIsUpdate | main.go:92-99 | the last step's requests are the PUT that updateRecordIP sent, if any, and its report is that call's result |
| Updater.PipelineComplete | main.go:71-92 | once zone, record and address are known, the run is the zones GET, the records GET of that zone, the IP-echo GET, then the update step |
| Updater.FinishRequests | main.go:174-187 | the update step sends at most one request; it sends one exactly when the address differs from the content, and that request is the PUT of the record with only its content replaced, to the record's endpoint |
| Updater.FinishReport | main.go:92-99 | no change is printed when the address matches; otherwise the provider's flag or transport error alone decides the report |
| Updater.FinishStops | main.go:92-96 | the update step fails only after its single request, a PUT |
| Updater.AddressStepRequests | main.go:85-92 | from the address step on, the first request is the IP-echo GET; there are at most two requests, and only the last may be a PUT |
| Updater.AddressStepStops | main.go:85-96 | a failure from the address step on is the address lookup's, after one request, or the update's, after the PUT |
| Updater.RecordStepShape | main.go:78-96 | from the record step on, the records GET comes first; at most three requests, only the last may be a PUT; the failing step fixes the count |
| Updater.PipelineRequestShape | main.go:68-100 | a run starts with the zones GET and issues one to four requests, of which only the last may be a PUT |
| Updater.PipelineStopsAtFirstError | main.go:71-97 | a run failing in the zone, record, address or update step has issued exactly 1, 2, 3 or 4 requests, the fourth being the PUT; a failed zone fetch is reported as it is |
| Updater.PipelineZoneErrors | main.go:71-76 | a failed zone fetch is reported unchanged, and a zone list without the name gives the not-found error naming it; either way after the zones GET alone |
| Updater.PipelineRecordErrors | main.go:78-83 | once the zone is found, a failed record fetch is reported unchanged, and a list without the record gives the not-found error naming record and zone id, after two GETs |
| Updater.PipelineAddressError | main.go:85-90 | once zone and record are found, a failed address fetch is reported unchanged, after the three GETs |
| Updater.PipelinePutsOnlyOnChange | main.go:92 | in a complete run, the three GETs come first, and a fourth request is sent exactly when the trimmed address differs from the content; it is the PUT of the record with only its content replaced |
| Updater.PipelineReport | main.go:92-99 | in a complete run the report is the no-change message, the success message, the rejection, or the provider's transport error, as the address and the flag dictate |
| Updater.PipelineIdempotent | main.go:71-99 | if a run sent a PUT and the provider then lists the sent record, a second run with the same address issues no PUT and reports no change |

## Left out

- Network I/O is not modelled. This covers `getAPIJSON`, `putAPIJSON`, `http.Get`, the authentication headers, closing the response bodies and the global `client`. Each reply is an input (`Updater.Replies`), and each request is an output value (`Updater.Request`).
- Replies do not depend on the URL requested. The model takes one reply per request, as given.
- JSON encoding and decoding are not modelled, nor are the `omitempty` tags. A decoded list or flag is an input, and a decode error is a `Decode` error whose text comes from outside. The PUT payload is kept as the record value rather than its JSON bytes.
- The error path of `json.Marshal` (main.go:180-183) is not modelled. Marshalling this struct of strings, booleans and an int cannot fail.
- Printing and process exit are not modelled. `fmt.Println` and `log.Fatal` become `Updater.Report`: the line printed on success, or the failing step and its error. `Updater.Heading` gives the step's heading line.
- The credential constants (main.go:14-15) are not modelled, since they only go into request headers. The configuration constants `updateZoneName`, `updateRecordName` and `baseAPIURL` (main.go:16-18) are the fields of `Updater.Config`. `Endpoints.BaseApiUrl` is the value of `baseAPIURL` that `main` runs with.
- The `Get(i)` accessors of `zones` and `records` (main.go:37-39, 64-66) are sequence indexing.
- Whitespace.TrimSpace: trims only ASCII white space (space, tab, newline, vertical tab, form feed, carriage return). Go also trims other Unicode spaces such as U+0085 and U+00A0.
- Fmt.Sprintf: covers only `%s`/`%v` applied to strings, with exactly as many arguments as directives. This is all the program uses. `%%` escapes, other verbs and argument-count mismatches are not modelled.
- Cloudflare.Record: the `ttl` field is an unbounded integer. Go's `int` width never matters here, because the program only copies the field.
