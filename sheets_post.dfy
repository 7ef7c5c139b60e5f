/**
 * sheets_post.py: the older single-path relay. The handler renames the
 * event's keys to the sheet's column names, and post_form appends the row
 * straight to the state's sheet, with no retry queue.
 */
module SheetsPost {
  import opened Wrappers
  import opened SheetsCommon
  import opened Relay

  /** post_form's own column list. */
  const POST_FIELDS: seq<string> := ["Timestamp", "County", "State", "First", "Last", "Email",
                                     "Zip (Home)", "Zip (Work)", "Practice Status", "Link"]

  /** The row post_form appends: the form projected onto its columns, which are the queue path's columns. */
  function PostRow(form: Form): (row: Row)
    ensures |row| == 10 && row == Project(FIELDS, form)
    ensures forall i :: 0 <= i < 10 ==> row[i] == GetField(form, POST_FIELDS[i])
  {
    assert POST_FIELDS == FIELDS;
    Project(POST_FIELDS, form)
  }

  /** What one call of post_form did: the row it appended, and what it returned or raised. */
  datatype Posted = Posted(written: Option<Write>, result: Result<int, Error>)

  /**
   * post_form: the KeyError of a form without State, or one append whose
   * failure escapes; a successful append returns 0.
   */
  function PostForm(form: Form, append: Reply): (p: Posted)
    ensures "State" !in form ==> p == Posted(None, Err(KeyError("State")))
    ensures p.result == Ok(0) <==> p.written.Some?
    ensures p.written.Some? ==> append.Done? && p.written.value.row == Project(FIELDS, form)
                                && p.written.value.sheet == Format(form["State"]) + RESPONSES_SUFFIX
    ensures "State" in form && append.Done? ==>
              p == Posted(Some(Write(Format(form["State"]) + RESPONSES_SUFFIX, Project(FIELDS, form))), Ok(0))
    ensures "State" in form && append.Fails? ==> p == Posted(None, Err(ClientError(append.repr)))
  {
    match SheetName(form)
    case Err(e) => Posted(None, Err(e))
    case Ok(sheet) =>
      if append.Done? then Posted(Some(Write(sheet, PostRow(form))), Ok(0))
      else Posted(None, Err(ClientError(append.repr)))
  }

  /**
   * Both relays write the same row to the same sheet when the append
   * succeeds and no fault is forced; when the append fails, this one raises
   * where the queue path keeps the row.
   */
  lemma PostFormAgreesWithQueuePath(form: Form, draw: real, errorChance: real, append: Reply, send: Reply)
    requires !(draw < errorChance)
    ensures append.Done? ==> PostForm(form, append).written == Ingested(form, draw, errorChance, append, send).written
                             && PostForm(form, append).result == Ingested(form, draw, errorChance, append, send).result
    ensures "State" in form && append.Fails? ==>
              PostForm(form, append).written.None?
              && PostForm(form, append).result.Err?
              && Ingested(form, draw, errorChance, append, send).queued.Some? == send.Done?
  {
  }

  /** A Lambda event; `data` is None when the event has no data object. */
  datatype Event = Event(data: Option<map<string, Value>>)

  /** `event.get('data', {}).get(key)`. */
  function EventGet(event: Event, key: string): Value
  {
    if event.data.Some? && key in event.data.value then event.data.value[key] else Null
  }

  /** The event keys the handler reads, one per column after Timestamp, in column order. */
  const EVENT_KEYS: seq<string> := ["county", "state", "first_name", "last_name", "email",
                                    "home_zip", "work_zip", "practice_status", "link"]

  /** A dict display: `fields[i]` holds `values[i]`, a later entry winning over an earlier one. */
  function ToForm(fields: seq<string>, values: seq<Value>): (form: Form)
    requires |values| == |fields|
    ensures form.Keys == set f | f in fields
  {
    if fields == [] then map[]
    else
      var n := |fields| - 1;
      ToForm(fields[..n], values[..n])[fields[n] := values[n]]
  }

  /** In a display of distinct keys each key holds its own value. */
  lemma {:induction false} ToFormAt(fields: seq<string>, values: seq<Value>, i: nat)
    requires |values| == |fields| && Distinct(fields) && i < |fields|
    ensures ToForm(fields, values)[fields[i]] == values[i]
  {
    var n := |fields| - 1;
    if i < n {
      ToFormAt(fields[..n], values[..n], i);
      assert fields[i] != fields[n];
    }
  }

  /** The event's entries, one per key of EVENT_KEYS. */
  function EventValues(event: Event): (vs: seq<Value>)
    ensures |vs| == |EVENT_KEYS|
    ensures event.data.None? ==> forall i :: 0 <= i < |vs| ==> vs[i] == Null
    ensures event.data.Some? ==> forall i :: 0 <= i < |vs| && EVENT_KEYS[i] !in event.data.value ==> vs[i] == Null
    ensures event.data.Some? ==> forall i :: 0 <= i < |vs| && EVENT_KEYS[i] in event.data.value ==>
              vs[i] == event.data.value[EVENT_KEYS[i]]
  {
    seq(|EVENT_KEYS|, i requires 0 <= i < |EVENT_KEYS| => EventGet(event, EVENT_KEYS[i]))
  }

  /**
   * The form lambda_handler assembles: the dict display pairing the columns
   * with the time of the call, then each event key's entry, in column order.
   */
  function HandlerForm(event: Event, now: string): (form: Form)
  {
    ToForm(FIELDS, [Str(now)] + EventValues(event))
  }

  /**
   * The handler's form has exactly the sheet's columns as keys, the time
   * under Timestamp, and each event key's entry under its column name.
   */
  lemma HandlerFormEntries(event: Event, now: string)
    ensures var form := HandlerForm(event, now);
      && form.Keys == set f | f in FIELDS
      && form["Timestamp"] == Str(now)
      && forall i :: 1 <= i < |FIELDS| ==> form[FIELDS[i]] == EventGet(event, EVENT_KEYS[i - 1])
  {
    var values := [Str(now)] + EventValues(event);
    var form := HandlerForm(event, now);
    FieldsDistinct();
    forall i | 0 <= i < |FIELDS| ensures form[FIELDS[i]] == values[i] {
      ToFormAt(FIELDS, values, i);
    }
    forall i | 1 <= i < |FIELDS| ensures values[i] == EventGet(event, EVENT_KEYS[i - 1]) {
      assert values[i] == EventValues(event)[i - 1];
    }
    assert form["Timestamp"] == values[0] by { assert FIELDS[0] == "Timestamp"; }
  }

  /** What the handler did: the row appended, and the response or the exception. */
  datatype Handled = Handled(written: Option<Write>, response: Result<map<string, string>, Error>)

  /** lambda_handler: post the assembled form, then redirect to `redirect`. */
  function LambdaHandler(event: Event, now: string, redirect: string, append: Reply): (h: Handled)
    ensures h.response.Ok? <==> append.Done?
    ensures h.response.Ok? ==> h.response.value == map["Location" := redirect]
  {
    var posted := PostForm(HandlerForm(event, now), append);
    Handled(posted.written, if posted.result.Ok? then Ok(map["Location" := redirect]) else Err(posted.result.error))
  }

  /**
   * Every column of the handler's row comes from the event: the time first,
   * then the event's entries, None where the event lacks one; the sheet is
   * named after the event's state, "None Responses" when it has none.
   */
  lemma HandlerRow(event: Event, now: string, redirect: string, append: Reply)
    requires append.Done?
    ensures var h := LambdaHandler(event, now, redirect, append);
      && h.written.Some?
      && h.written.value.sheet == Format(EventGet(event, "state")) + RESPONSES_SUFFIX
      && h.written.value.row == [Str(now)] + EventValues(event)
  {
    HandlerState(event, now);
    ProjectHandlerForm(event, now);
  }

  /** The handler's State entry is the event's state. */
  lemma HandlerState(event: Event, now: string)
    ensures "State" in HandlerForm(event, now) && HandlerForm(event, now)["State"] == EventGet(event, "state")
  {
    HandlerFormEntries(event, now);
    assert FIELDS[2] == "State" && EVENT_KEYS[1] == "state";
  }

  /** The handler's row: the time of the call, then the event's entries in column order. */
  lemma ProjectHandlerForm(event: Event, now: string)
    ensures Project(FIELDS, HandlerForm(event, now)) == [Str(now)] + EventValues(event)
  {
    var form := HandlerForm(event, now);
    var values := [Str(now)] + EventValues(event);
    HandlerFormEntries(event, now);
    assert FIELDS[0] == "Timestamp";
    forall i | 0 <= i < 10 ensures Project(FIELDS, form)[i] == values[i] {
      assert FIELDS[i] in form;
    }
  }

  /** An event without a state is appended to the sheet "None Responses" and does not raise. */
  lemma MissingStateGoesToNoneResponses(event: Event, now: string, redirect: string, append: Reply)
    requires EventGet(event, "state") == Null && append.Done?
    ensures LambdaHandler(event, now, redirect, append).written.value.sheet == "None Responses"
    ensures LambdaHandler(event, now, redirect, append).response == Ok(map["Location" := redirect])
  {
    HandlerRow(event, now, redirect, append);
    NoneSheet();
  }

  /** The sheet for a missing state. */
  lemma NoneSheet()
    ensures Format(Null) + RESPONSES_SUFFIX == "None Responses"
  {
  }
}
