/** The webhook normaliser `Parser` (parser/parser.go): input guards, the two
    header values, the per-event-type switch and the record it emits. */
module Parser {
  import opened Json
  import opened Decimal

  /** The constant `SOURCE`. */
  const Source := "github"

  const EventHeader := "X-Github-Event"
  const SignatureHeader := "X-Hub-Signature"

  // The error messages, one per early return.
  const HeaderNil := "Error occured: Header is nil !"
  const DataNil := "Error occured: Data is nil !"
  const HeaderNotString := "Error occured: Header is not a string !"
  const DataNotString := "Error occured: Data is not a string !"
  const HeaderEmpty := "Error occured: Received empty header message!"
  const BodyEmpty := "Error occured: Received empty body message!"
  const HeaderNotJson := "header is not a string"
  const BodyNotJson := "body is not a string"
  const GenericError := "Error occured!"

  /** The event types the switch has a case for. */
  const EventTypes: set<string> := {
    "push", "pull_request", "pull_request_review", "pull_request_review_comment",
    "issues", "issue_comment", "check_run", "check_suite", "deployment_status",
    "status", "release"
  }

  /** A dynamically typed argument (`interface{}`): nil, a string, or any other value. */
  datatype Input = Nil | Str(s: string) | Other

  datatype Checked = Valid(header: string, body: string) | Invalid(msg: string)

  /** The two fields the switch extracts from the body. */
  datatype Fields = Fields(id: string, timeCreated: string)

  /** The canonical event record (the map `githubEvent`). */
  datatype Record = Record(
    eventType: string,
    id: string,
    metadata: Object,
    timeCreated: string,
    signature: string,
    source: string)

  /** How a call ends: an early error return, a panic swallowed by the deferred
      `recover`, or a record printed followed by an error return. */
  datatype Outcome = Err(msg: string) | Panicked | Emitted(record: Record, err: string)

  /** The six input guards in the order the source runs them: whether each
      fails on these inputs, and the message it returns. */
  function InputGuards(header: Input, data: Input): seq<(bool, string)> {
    [ (header.Nil?, HeaderNil),
      (data.Nil?, DataNil),
      (!header.Str?, HeaderNotString),
      (!data.Str?, DataNotString),
      (header == Str(""), HeaderEmpty),
      (data == Str(""), BodyEmpty) ]
  }

  /** The messages of the guards that fail, in order. */
  function Failing(guards: seq<(bool, string)>): (msgs: seq<string>)
    ensures msgs == [] <==> forall i :: 0 <= i < |guards| ==> !guards[i].0
    ensures msgs != [] ==> exists i :: 0 <= i < |guards| && guards[i].0 && msgs[0] == guards[i].1
  {
    if guards == [] then []
    else (if guards[0].0 then [guards[0].1] else []) + Failing(guards[1..])
  }

  /** The early-return chain over the two raw arguments. */
  function CheckInputs(header: Input, data: Input): (r: Checked)
    ensures r.Valid? <==> header.Str? && data.Str? && header.s != "" && data.s != ""
    ensures r.Valid? ==> header == Str(r.header) && data == Str(r.body)
  {
    if header.Nil? then Invalid(HeaderNil)
    else if data.Nil? then Invalid(DataNil)
    else if !header.Str? then Invalid(HeaderNotString)
    else if !data.Str? then Invalid(DataNotString)
    else if header.s == "" then Invalid(HeaderEmpty)
    else if data.s == "" then Invalid(BodyEmpty)
    else Valid(header.s, data.s)
  }

  /** The message of the first failing guard is `guards[k].1` when guard `k`
      fails and none before it does. */
  lemma {:induction false} FailingFirst(guards: seq<(bool, string)>, k: nat)
    requires k < |guards| && guards[k].0
    requires forall i :: 0 <= i < k ==> !guards[i].0
    ensures Failing(guards) != [] && Failing(guards)[0] == guards[k].1
    decreases k
  {
    if k > 0 {
      FailingFirst(guards[1..], k - 1);
    }
  }

  /** The early-return chain agrees with running every guard and taking the
      first failure: the inputs are valid exactly when no guard fails, and
      otherwise the first failing guard's message is returned. */
  lemma FirstFailingGuardDecides(header: Input, data: Input)
    ensures CheckInputs(header, data).Valid? <==> Failing(InputGuards(header, data)) == []
    ensures CheckInputs(header, data).Invalid? ==>
              CheckInputs(header, data).msg == Failing(InputGuards(header, data))[0]
  {
    var guards := InputGuards(header, data);
    var k := if header.Nil? then 0 else if data.Nil? then 1 else if !header.Str? then 2
             else if !data.Str? then 3 else if header.s == "" then 4 else if data.s == "" then 5 else 6;
    if k < 6 {
      FailingFirst(guards, k);
    }
  }

  /** `headers[key].([]interface{})[0].(string)` read with comma-ok: the array
      assertion and the index panic; only the string assertion reports `ok`. */
  function FirstHeaderValue(headers: Object, key: string): (r: Eval<Option<string>>)
    ensures r.Val? <==> key in headers && headers[key].JArr? && |headers[key].items| > 0
    ensures r.Val? ==> (r.value.Some? <==> headers[key].items[0].JStr?)
    ensures r.Val? && r.value.Some? ==> headers[key].items[0] == JStr(r.value.value)
  {
    if key in headers && headers[key].JArr? && |headers[key].items| > 0 then
      var first := headers[key].items[0];
      Val(if first.JStr? then Some(first.s) else None)
    else Panic
  }

  /** The `switch` on the event type: `None` for the default case, otherwise
      the identifier and creation time, or a panic from a failed assertion. */
  function ExtractFields(eventType: string, metadata: Object): (r: Option<Eval<Fields>>)
    ensures r.None? <==> eventType !in EventTypes
  {
    match eventType
    case "push" => Some(
      var head :- AsObject(metadata, "head_commit");
      var time :- AsString(head, "timestamp");
      var id :- AsString(head, "id");
      Val(Fields(id, time)))
    case "pull_request" => Some(
      var pr :- AsObject(metadata, "pull_request");
      var time :- AsString(pr, "updated_at");
      var repo :- AsObject(metadata, "repository");
      var name :- AsString(repo, "name");
      var number :- AsNumber(metadata, "number");
      Val(Fields(name + "/" + Itoa(number), time)))
    case "pull_request_review" => Some(
      var review :- AsObject(metadata, "review");
      var time :- AsString(review, "submitted_at");
      var id :- AsString(review, "id");
      Val(Fields(id, time)))
    case "pull_request_review_comment" => Some(
      var comment :- AsObject(metadata, "comment");
      var time :- AsString(comment, "updated_at");
      var id :- AsString(comment, "id");
      Val(Fields(id, time)))
    case "issues" => Some(
      var issue :- AsObject(metadata, "issue");
      var time :- AsString(issue, "updated_at");
      var repo :- AsObject(metadata, "repository");
      var name :- AsString(repo, "name");
      var number :- AsNumber(issue, "number");
      Val(Fields(name + "/" + Itoa(number), time)))
    case "issue_comment" => Some(
      var comment :- AsObject(metadata, "comment");
      var time :- AsString(comment, "updated_at");
      var id :- AsString(comment, "id");
      Val(Fields(id, time)))
    case "check_run" => Some(
      var run :- AsObject(metadata, "check_run");
      var completed :- AsString(run, "completed_at");
      var time :- if completed == "" then AsString(run, "started_at") else Val(completed);
      var id :- AsString(run, "id");
      Val(Fields(id, time)))
    case "check_suite" => Some(
      var suite :- AsObject(metadata, "check_suite");
      var updated :- AsString(suite, "updated_at");
      var time :- if updated == "" then AsString(suite, "created_at") else Val(updated);
      var id :- AsString(suite, "id");
      Val(Fields(id, time)))
    case "deployment_status" => Some(
      var deployment :- AsObject(metadata, "deployment_status");
      var time :- AsString(deployment, "updated_at");
      var id :- AsString(deployment, "id");
      Val(Fields(id, time)))
    case "status" => Some(
      var time :- AsString(metadata, "updated_at");
      var id :- AsString(metadata, "id");
      Val(Fields(id, time)))
    case "release" => Some(
      var release :- AsObject(metadata, "release");
      var published :- AsString(release, "published_at");
      var time :- if published == "" then AsString(release, "created_at") else Val(published);
      var id :- AsString(release, "id");
      Val(Fields(id, time)))
    case _ => None
  }

  /** `Parser(wg, header, data)`. `unmarshal` stands for `json.Unmarshal` into a
      `map[string]interface{}`: `None` when it reports an error. */
  function Parse(unmarshal: string -> Option<Object>, header: Input, data: Input): (o: Outcome)
    // the first failing guard decides, and nothing is unmarshalled
    ensures CheckInputs(header, data).Invalid? ==> o == Err(CheckInputs(header, data).msg)
    // the header is unmarshalled before the body
    ensures CheckInputs(header, data).Valid? && unmarshal(header.s).None? ==> o == Err(HeaderNotJson)
    ensures CheckInputs(header, data).Valid? && unmarshal(header.s).Some? && unmarshal(data.s).None? ==>
              o == Err(BodyNotJson)
    ensures o.Panicked? || o.Emitted? ==>
              CheckInputs(header, data).Valid? && unmarshal(header.s).Some? && unmarshal(data.s).Some?
    ensures o.Emitted? ==>
              var headers := unmarshal(header.s).value;
              && o.err == GenericError
              && ReturnedError(o) == Some(GenericError)
              && o.record.source == Source
              && o.record.eventType in EventTypes
              && unmarshal(data.s) == Some(o.record.metadata)
              && FirstHeaderValue(headers, EventHeader) == Val(Some(o.record.eventType))
              && FirstHeaderValue(headers, SignatureHeader) == Val(Some(o.record.signature))
              && ExtractFields(o.record.eventType, o.record.metadata)
                 == Some(Val(Fields(o.record.id, o.record.timeCreated)))
    // once both texts decode, each path of the header reads and the switch gives its own outcome
    ensures CheckInputs(header, data).Valid? && unmarshal(header.s).Some? && unmarshal(data.s).Some? ==>
              var headers, metadata := unmarshal(header.s).value, unmarshal(data.s).value;
              && (FirstHeaderValue(headers, EventHeader).Panic? ==> o == Panicked)
              && (FirstHeaderValue(headers, EventHeader) == Val(None) ==> o == Err(GenericError))
              && (FirstHeaderValue(headers, EventHeader).Val? && FirstHeaderValue(headers, EventHeader).value.Some? ==>
                    var eventType := FirstHeaderValue(headers, EventHeader).value.value;
                    && (FirstHeaderValue(headers, SignatureHeader).Panic? ==> o == Panicked)
                    && (FirstHeaderValue(headers, SignatureHeader) == Val(None) ==> o == Err(GenericError))
                    && (FirstHeaderValue(headers, SignatureHeader).Val? &&
                        FirstHeaderValue(headers, SignatureHeader).value.Some? ==>
                          var signature := FirstHeaderValue(headers, SignatureHeader).value.value;
                          && (eventType !in EventTypes ==> o == Err(GenericError))
                          && (ExtractFields(eventType, metadata) == Some(Panic) ==> o == Panicked)
                          && (ExtractFields(eventType, metadata).Some? && ExtractFields(eventType, metadata).value.Val? ==>
                                var f := ExtractFields(eventType, metadata).value.value;
                                o == Emitted(Record(eventType, f.id, metadata, f.timeCreated, signature, Source),
                                             GenericError))))
  {
    match CheckInputs(header, data)
    case Invalid(msg) => Err(msg)
    case Valid(h, b) =>
      match unmarshal(h)
      case None => Err(HeaderNotJson)
      case Some(headers) =>
        match unmarshal(b)
        case None => Err(BodyNotJson)
        case Some(metadata) =>
          match FirstHeaderValue(headers, EventHeader)
          case Panic => Panicked
          case Val(None) => Err(GenericError)
          case Val(Some(eventType)) =>
            match FirstHeaderValue(headers, SignatureHeader)
            case Panic => Panicked
            case Val(None) => Err(GenericError)
            case Val(Some(signature)) =>
              match ExtractFields(eventType, metadata)
              case None => Err(GenericError)
              case Some(Panic) => Panicked
              case Some(Val(f)) =>
                Emitted(Record(eventType, f.id, metadata, f.timeCreated, signature, Source), GenericError)
  }

  /** The `error` the function hands back. The results are unnamed, so after a
      recovered panic the error is left at its zero value, nil (`None`). */
  function ReturnedError(o: Outcome): (e: Option<string>)
    ensures e.None? <==> o.Panicked?
    ensures o.Err? ==> e == Some(o.msg)
  {
    match o
    case Err(msg) => Some(msg)
    case Panicked => None
    case Emitted(_, err) => Some(err)
  }

  /** The object that is marshalled and printed. */
  function RecordObject(r: Record): Object {
    map[
      "event_type" := JStr(r.eventType),
      "id" := JStr(r.id),
      "metadata" := JObj(r.metadata),
      "time_created" := JStr(r.timeCreated),
      "signature" := JStr(r.signature),
      "source" := JStr(r.source)]
  }

  /** Reads a record back from a printed object. */
  function RecordOfObject(obj: Object): Option<Record> {
    if && "event_type" in obj && obj["event_type"].JStr?
       && "id" in obj && obj["id"].JStr?
       && "metadata" in obj && obj["metadata"].JObj?
       && "time_created" in obj && obj["time_created"].JStr?
       && "signature" in obj && obj["signature"].JStr?
       && "source" in obj && obj["source"].JStr?
    then
      Some(Record(obj["event_type"].s, obj["id"].s, obj["metadata"].fields,
                  obj["time_created"].s, obj["signature"].s, obj["source"].s))
    else None
  }

  /** The printed object has exactly the six keys and determines the record. */
  lemma RecordObjectRoundTrip(r: Record)
    ensures RecordObject(r).Keys == {"event_type", "id", "metadata", "time_created", "signature", "source"}
    ensures RecordOfObject(RecordObject(r)) == Some(r)
  {
  }

  /** What `fmt.Println` writes: the record object, only when one is emitted. */
  function Printed(o: Outcome): (p: Option<Object>)
    ensures p.Some? <==> o.Emitted?
    ensures p.Some? ==> RecordOfObject(p.value) == Some(o.record)
  {
    if o.Emitted? then
      RecordObjectRoundTrip(o.record);
      Some(RecordObject(o.record))
    else None
  }

  /** The call hands back a nil error exactly when a header read or the field
      extraction panicked; then nothing is printed. */
  lemma NilErrorExactlyOnPanic(unmarshal: string -> Option<Object>, header: Input, data: Input)
    ensures var o := Parse(unmarshal, header, data);
            ReturnedError(o).None? <==>
              && CheckInputs(header, data).Valid? && unmarshal(header.s).Some? && unmarshal(data.s).Some?
              && var headers, metadata := unmarshal(header.s).value, unmarshal(data.s).value;
                 var event, sig := FirstHeaderValue(headers, EventHeader), FirstHeaderValue(headers, SignatureHeader);
                 || event.Panic?
                 || (event.Val? && event.value.Some? && sig.Panic?)
                 || (event.Val? && event.value.Some? && sig.Val? && sig.value.Some?
                     && ExtractFields(event.value.value, metadata) == Some(Panic))
    ensures ReturnedError(Parse(unmarshal, header, data)).None? ==> Printed(Parse(unmarshal, header, data)).None?
  {
  }

  /** Only the first element of a header array is read. */
  lemma FirstHeaderValueIgnoresRest(headers: Object, key: string, first: Json, rest: seq<Json>)
    ensures FirstHeaderValue(headers[key := JArr([first] + rest)], key)
            == FirstHeaderValue(headers[key := JArr([first])], key)
  {
  }

  /** The guard messages checked by the test suite, each input failing alone. */
  lemma GuardMessages(unmarshal: string -> Option<Object>, header: string, body: string)
    requires header != "" && body != ""
    ensures Parse(unmarshal, Nil, Str(body)) == Err(HeaderNil)
    ensures Parse(unmarshal, Str(header), Nil) == Err(DataNil)
    ensures Parse(unmarshal, Other, Str(body)) == Err(HeaderNotString)
    ensures Parse(unmarshal, Str(header), Other) == Err(DataNotString)
    ensures Parse(unmarshal, Str(""), Str(body)) == Err(HeaderEmpty)
    ensures Parse(unmarshal, Str(header), Str("")) == Err(BodyEmpty)
  {
  }

  /** A `push` delivery is printed with its head commit's id and timestamp, and
      the call still returns an error. */
  lemma PushScenario(unmarshal: string -> Option<Object>, header: string, body: string)
    requires header != "" && body != ""
    requires unmarshal(header) == Some(map[
      EventHeader := JArr([JStr("push")]),
      SignatureHeader := JArr([JStr("signature123")])])
    requires unmarshal(body) == Some(map[
      "head_commit" := JObj(map["id" := JStr("commit123"), "timestamp" := JStr("2022-04-05T12:34:56Z")])])
    ensures Parse(unmarshal, Str(header), Str(body))
            == Emitted(Record("push", "commit123", unmarshal(body).value, "2022-04-05T12:34:56Z",
                              "signature123", "github"),
                       "Error occured!")
  {
  }
}
