/**
 * lambda.py: the header-driven relay. post_form reads the sheet's header
 * row and projects the form onto whatever columns it names; the handler's
 * form holds only Timestamp, Name and State.
 */
module LambdaForm {
  import opened Wrappers
  import opened SheetsCommon
  import opened Relay
  import opened SheetsPost

  /** `"'{}'!A1:Z1".format(sheet)`: the first row of the named sheet. */
  function HeaderRange(sheet: string): (range: string)
    ensures |range| == |sheet| + 8
    ensures range[0] == '\'' && range[1..|sheet| + 1] == sheet && range[|sheet| + 1..] == "'!A1:Z1"
  {
    "'" + sheet + "'!A1:Z1"
  }

  /** The header range names the sheet it reads. */
  lemma HeaderRangeInjective(s1: string, s2: string)
    ensures HeaderRange(s1) == HeaderRange(s2) <==> s1 == s2
  {
    if HeaderRange(s1) == HeaderRange(s2) {
      assert s1 == HeaderRange(s1)[1..|s1| + 1];
    }
  }

  /** What the `values().get` call answered: a failure, or the response's `values` entry if it has one. */
  datatype HeaderReply = HeaderFails(repr: string) | Header(values: Option<seq<seq<string>>>)

  /**
   * `request.execute().get('values', [[]])[0]`: the first row of the
   * response, no columns when it has no values, IndexError when its values
   * are empty.
   */
  function Columns(values: Option<seq<seq<string>>>): (r: Result<seq<string>, Error>)
    ensures values.None? ==> r == Ok([])
    ensures values == Some([]) ==> r == Err(IndexError)
    ensures values.Some? && values.value != [] ==> r == Ok(values.value[0])
  {
    var rows := if values.Some? then values.value else [[]];
    if rows == [] then Err(IndexError) else Ok(rows[0])
  }

  /** What one call of post_form did: the header range it read, the row it appended, and what it returned or raised. */
  datatype HeaderPosted = HeaderPosted(headerRange: Option<string>, written: Option<Write>, result: Result<int, Error>)

  /**
   * post_form: the KeyError of a form without State, then the read of the
   * sheet's header range, answered by `header`, then the append of the form
   * projected onto the header's columns; a failing call escapes, and a
   * successful append returns 0.
   */
  function PostForm(form: Form, header: HeaderReply, append: Reply): (p: HeaderPosted)
    ensures "State" !in form ==> p == HeaderPosted(None, None, Err(KeyError("State")))
    ensures "State" in form ==> p.headerRange == Some(HeaderRange(Format(form["State"]) + RESPONSES_SUFFIX))
    ensures p.result == Ok(0) <==> p.written.Some?
    ensures p.written.Some? ==> append.Done? && header.Header? && Columns(header.values).Ok?
                                && p.written.value == Write(Format(form["State"]) + RESPONSES_SUFFIX,
                                                            Project(Columns(header.values).value, form))
    ensures "State" in form && header.HeaderFails? ==> p.written.None? && p.result == Err(ClientError(header.repr))
    ensures "State" in form && header.Header? && Columns(header.values).Err? ==>
              p.written.None? && p.result == Err(IndexError)
    ensures "State" in form && header.Header? && Columns(header.values).Ok? && append.Fails? ==>
              p.written.None? && p.result == Err(ClientError(append.repr))
    ensures "State" in form && header.Header? && Columns(header.values).Ok? && append.Done? ==>
              p.written.Some? && p.result == Ok(0)
  {
    match SheetName(form)
    case Err(e) => HeaderPosted(None, None, Err(e))
    case Ok(sheet) =>
      var range := Some(HeaderRange(sheet));
      match header
      case HeaderFails(repr) => HeaderPosted(range, None, Err(ClientError(repr)))
      case Header(values) =>
        match Columns(values)
        case Err(e) => HeaderPosted(range, None, Err(e))
        case Ok(fields) =>
          if append.Done? then HeaderPosted(range, Some(Write(sheet, Project(fields, form))), Ok(0))
          else HeaderPosted(range, None, Err(ClientError(append.repr)))
  }

  /** A header response without values gives an empty row, still appended. */
  lemma NoHeaderEmptyRow(form: Form, append: Reply)
    requires "State" in form && append.Done?
    ensures PostForm(form, Header(None), append).written == Some(Write(Format(form["State"]) + RESPONSES_SUFFIX, []))
    ensures PostForm(form, Header(None), append).result == Ok(0)
  {
  }

  /** The handler's form: the time of the call, the event's name and its state. */
  function HandlerForm(event: Event, now: string): (form: Form)
    ensures form.Keys == {"Timestamp", "Name", "State"}
    ensures form["Timestamp"] == Str(now) && form["Name"] == EventGet(event, "name")
            && form["State"] == EventGet(event, "state")
  {
    map["Timestamp" := Str(now), "Name" := EventGet(event, "name"), "State" := EventGet(event, "state")]
  }

  /**
   * The row under a header: one entry per column, the time under
   * Timestamp, the event's name under Name and its state under State, and
   * None under any other column.
   */
  lemma HandlerColumns(event: Event, now: string, fields: seq<string>)
    ensures var row := Project(fields, HandlerForm(event, now));
      && |row| == |fields|
      && forall i :: 0 <= i < |fields| ==>
           row[i] == (if fields[i] == "Timestamp" then Str(now)
                      else if fields[i] == "Name" then EventGet(event, "name")
                      else if fields[i] == "State" then EventGet(event, "state")
                      else Null)
  {
  }

  /** lambda_handler: post the assembled form, then redirect to `redirect`. */
  function LambdaHandler(event: Event, now: string, redirect: string, header: HeaderReply, append: Reply): (h: Handled)
    ensures h.response.Ok? <==> header.Header? && Columns(header.values).Ok? && append.Done?
    ensures h.response.Ok? ==> h.response.value == map["Location" := redirect]
    ensures h.written.Some? ==> h.written.value.sheet == Format(EventGet(event, "state")) + RESPONSES_SUFFIX
  {
    var posted := PostForm(HandlerForm(event, now), header, append);
    Handled(posted.written, if posted.result.Ok? then Ok(map["Location" := redirect]) else Err(posted.result.error))
  }

  /** An event without a state reads the header of, and appends to, the sheet "None Responses". */
  lemma LambdaMissingState(event: Event, now: string, redirect: string, header: HeaderReply, append: Reply)
    requires EventGet(event, "state") == Null
    ensures SheetName(HandlerForm(event, now)) == Ok("None Responses")
    ensures PostForm(HandlerForm(event, now), header, append).headerRange == Some("'None Responses'!A1:Z1")
    ensures LambdaHandler(event, now, redirect, header, append).written.Some? ==>
              LambdaHandler(event, now, redirect, header, append).written.value.sheet == "None Responses"
  {
    NoneSheet();
    NoneHeaderRange();
    var form := HandlerForm(event, now);
    assert form["State"] == Null;
  }

  lemma NoneHeaderRange()
    ensures HeaderRange("None Responses") == "'None Responses'!A1:Z1"
  {
  }
}
