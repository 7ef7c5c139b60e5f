/**
 * The stateful part of sheets_common.py: post_form appends a form's row to
 * its sheet or, when that fails, queues the row for later; repost_form
 * sweeps one batch of queued messages, replays each and deletes a message
 * only after its replay succeeded.
 *
 * The spreadsheet and the queue are modelled as the fields of one Backend
 * object (a map from sheet name to rows, and a sequence of messages). Each
 * remote call is answered by an oracle Reply that the caller passes in, and
 * the random draw of post_form is a parameter.
 */
module Relay {
  import opened Wrappers
  import opened Json
  import opened SheetsCommon

  /** What one remote call (a sheet append, a queue send or delete) does. */
  datatype Reply = Done | Fails(repr: string)

  /** A row appended to a named sheet. */
  datatype Write = Write(sheet: string, row: Row)

  /** A queued message: its receipt handle and its body. */
  datatype Message = Message(handle: nat, body: Body)

  /** What `receive_message` answered: a failure, or the response's Messages entry if it has one. */
  datatype Received = ReceiveFails(repr: string) | Received(messages: Option<seq<Message>>)

  /** `repr` of the exception post_form raises on purpose. */
  const RANDOM_ERROR: string := "RuntimeError('Randomly errored',)"

  /** The rows of a sheet; a sheet never written to has none. */
  function Rows(sheets: map<string, seq<Row>>, sheet: string): seq<Row>
  {
    if sheet in sheets then sheets[sheet] else []
  }

  /** The sheets after one successful append. */
  function AddRow(sheets: map<string, seq<Row>>, w: Write): (r: map<string, seq<Row>>)
    ensures Rows(r, w.sheet) == Rows(sheets, w.sheet) + [w.row]
    ensures forall s :: s != w.sheet ==> Rows(r, s) == Rows(sheets, s)
  {
    sheets[w.sheet := Rows(sheets, w.sheet) + [w.row]]
  }

  /** The queue after `delete_message` with a receipt handle. */
  function Without(queue: seq<Message>, handle: nat): (r: seq<Message>)
    ensures forall m :: m in r <==> m in queue && m.handle != handle
  {
    if queue == [] then []
    else
      var n := |queue| - 1;
      Without(queue[..n], handle) + (if queue[n].handle != handle then [queue[n]] else [])
  }

  /** No two messages share a receipt handle. */
  predicate HandlesDistinct(queue: seq<Message>)
  {
    forall i, j :: 0 <= i < j < |queue| ==> queue[i].handle != queue[j].handle
  }

  lemma {:induction false} WithoutKeepsHandlesDistinct(queue: seq<Message>, handle: nat)
    requires HandlesDistinct(queue)
    ensures HandlesDistinct(Without(queue, handle))
  {
    if queue != [] {
      var n := |queue| - 1;
      WithoutKeepsHandlesDistinct(queue[..n], handle);
      var front := Without(queue[..n], handle);
      forall i | 0 <= i < |front| ensures front[i].handle != queue[n].handle {
        assert front[i] in queue[..n];
      }
    }
  }

  // ---------------------------------------------------------------------
  // post_form

  /** What post_form does with one form. */
  datatype Ingest = Ingest(
    appendTried: bool,         // the sheet append was called
    written: Option<Write>,    // the row the append added
    queued: Option<Envelope>,  // the envelope the queue accepted
    result: Result<int, Error>)

  /**
   * post_form on `form`: the KeyError of a form without State comes first;
   * a draw below `errorChance` fails on purpose without calling the append;
   * a failed append (real or on purpose) is turned into a queued envelope;
   * only a failing send escapes.
   */
  function Ingested(form: Form, draw: real, errorChance: real, append: Reply, send: Reply): (p: Ingest)
    ensures "State" !in form ==> p == Ingest(false, None, None, Err(KeyError("State")))
    ensures "State" in form ==> p.appendTried == !(draw < errorChance)
    ensures draw < errorChance ==> p.written.None?
    ensures "State" in form && draw < errorChance && send.Done? ==>
              p.queued == Some(Envelope(Project(FIELDS, form), SheetName(form).value, RANDOM_ERROR))
    ensures "State" in form && !(draw < errorChance) && append.Done? ==>
              p == Ingest(true, Some(Write(SheetName(form).value, Project(FIELDS, form))), None, Ok(0))
    ensures p.written.Some? ==> append.Done? && p.written.value == Write(SheetName(form).value, Project(FIELDS, form))
    ensures p.queued.Some? ==> send.Done? && p.queued.value.values == Project(FIELDS, form)
                               && p.queued.value.sheetName == SheetName(form).value
    ensures p.queued.Some? && p.appendTried ==> append.Fails? && p.queued.value.error == append.repr
    ensures !(p.written.Some? && p.queued.Some?)
    ensures "State" in form && send.Done? ==> p.written.Some? || p.queued.Some?
    ensures p.result == Ok(0) <==> p.written.Some? || p.queued.Some?
    ensures "State" in form && p.result.Err? ==> send.Fails? && p.result == Err(ClientError(send.repr))
  {
    match SheetName(form)
    case Err(e) => Ingest(false, None, None, Err(e))
    case Ok(sheet) =>
      var row := Project(FIELDS, form);
      var forced := draw < errorChance;
      if !forced && append.Done? then Ingest(true, Some(Write(sheet, row)), None, Ok(0))
      else
        var error := if forced then RANDOM_ERROR else append.repr;
        if send.Done? then Ingest(!forced, None, Some(Envelope(row, sheet, error)), Ok(0))
        else Ingest(!forced, None, None, Err(ClientError(send.repr)))
  }

  /** With `error_chance` 1 every draw of `random.random()` fails on purpose; with 0 none does. */
  lemma ErrorChanceExtremes(draw: real, errorChance: real)
    requires 0.0 <= draw < 1.0
    ensures errorChance >= 1.0 ==> draw < errorChance
    ensures errorChance <= 0.0 ==> !(draw < errorChance)
  {
  }

  // ---------------------------------------------------------------------
  // repost_form

  /** The sheets and the queue. */
  datatype World = World(sheets: map<string, seq<Row>>, queue: seq<Message>)

  /** A sweep in progress, or one that an escaping exception stopped. */
  datatype Sweep = Running(world: World) | Aborted(world: World, error: Error)

  /**
   * One iteration of repost_form's loop, given what decoding the body gave:
   * decoding sits outside the try, so a bad body stops the sweep; a failed
   * append is caught and the message stays; after a successful append the
   * message is deleted, and a failing delete stops the sweep.
   */
  function Replay(w: World, m: Message, decoded: Result<Envelope, Error>, append: Reply, delete: Reply): (s: Sweep)
    ensures decoded.Err? ==> s == Aborted(w, decoded.error)
    ensures decoded.Ok? && append.Fails? ==> s == Running(w)
    ensures decoded.Ok? && append.Done? ==>
              s.world.sheets == AddRow(w.sheets, Write(decoded.value.sheetName, decoded.value.values))
              && s.world.queue == (if delete.Done? then Without(w.queue, m.handle) else w.queue)
              && s.Running? == delete.Done?
  {
    match decoded
    case Err(e) => Aborted(w, e)
    case Ok(env) =>
      if append.Fails? then Running(w)
      else
        var w1 := w.(sheets := AddRow(w.sheets, Write(env.sheetName, env.values)));
        if delete.Fails? then Aborted(w1, ClientError(delete.repr))
        else Running(w1.(queue := Without(w1.queue, m.handle)))
  }

  /**
   * The state after repost_form has handled the first `n` messages of
   * `batch`, reading each body with `decode`; message j is answered by
   * `appendReply(j)` and `deleteReply(j)`. The properties below hold for
   * any decoder; RepostForm uses Decode.
   */
  function SweepPrefix(w0: World, batch: seq<Message>, n: nat, decode: Body -> Result<Envelope, Error>,
                       appendReply: nat -> Reply, deleteReply: nat -> Reply): Sweep
    requires n <= |batch|
  {
    if n == 0 then Running(w0)
    else
      match SweepPrefix(w0, batch, n - 1, decode, appendReply, deleteReply)
      case Aborted(w, e) => Aborted(w, e)
      case Running(w) => Replay(w, batch[n - 1], decode(batch[n - 1].body), appendReply(n - 1), deleteReply(n - 1))
  }

  /**
   * Batch isolation: the sweep goes on through the first `n` messages exactly
   * when each of them decodes and each successful replay is followed by a
   * successful delete; a failing append never stops it.
   */
  lemma {:induction false} SweepRunsIff(w0: World, batch: seq<Message>, n: nat, decode: Body -> Result<Envelope, Error>,
                                        appendReply: nat -> Reply, deleteReply: nat -> Reply)
    requires n <= |batch|
    ensures SweepPrefix(w0, batch, n, decode, appendReply, deleteReply).Running? <==>
            forall j :: 0 <= j < n ==> decode(batch[j].body).Ok? && (appendReply(j).Done? ==> deleteReply(j).Done?)
  {
    if n > 0 {
      SweepRunsIff(w0, batch, n - 1, decode, appendReply, deleteReply);
    }
  }

  /** Once the sweep has stopped, the rest of the batch is not touched. */
  lemma {:induction false} SweepAbortIsFinal(w0: World, batch: seq<Message>, n: nat, m: nat, decode: Body -> Result<Envelope, Error>,
                                             appendReply: nat -> Reply, deleteReply: nat -> Reply)
    requires n <= m <= |batch|
    requires SweepPrefix(w0, batch, n, decode, appendReply, deleteReply).Aborted?
    ensures SweepPrefix(w0, batch, m, decode, appendReply, deleteReply) == SweepPrefix(w0, batch, n, decode, appendReply, deleteReply)
    decreases m
  {
    if m > n {
      SweepAbortIsFinal(w0, batch, n, m - 1, decode, appendReply, deleteReply);
    }
  }

  /** The receipt handles of the first `n` messages whose replay succeeded. */
  function Acked(batch: seq<Message>, n: nat, appendReply: nat -> Reply): set<nat>
    requires n <= |batch|
  {
    set j | 0 <= j < n && appendReply(j).Done? :: batch[j].handle
  }

  /**
   * After an uninterrupted sweep the queue holds exactly the messages it held
   * before whose handle was not acknowledged by a successful replay.
   */
  lemma {:induction false} SweepQueue(w0: World, batch: seq<Message>, n: nat, decode: Body -> Result<Envelope, Error>,
                                      appendReply: nat -> Reply, deleteReply: nat -> Reply)
    requires n <= |batch|
    requires SweepPrefix(w0, batch, n, decode, appendReply, deleteReply).Running?
    ensures forall m :: m in SweepPrefix(w0, batch, n, decode, appendReply, deleteReply).world.queue <==>
                        m in w0.queue && m.handle !in Acked(batch, n, appendReply)
  {
    if n > 0 {
      SweepQueue(w0, batch, n - 1, decode, appendReply, deleteReply);
      var before := Acked(batch, n - 1, appendReply);
      var after := Acked(batch, n, appendReply);
      assert after == before + (if appendReply(n - 1).Done? then {batch[n - 1].handle} else {}) by {
        forall h | h in after ensures h in before + (if appendReply(n - 1).Done? then {batch[n - 1].handle} else {}) {
          var j :| 0 <= j < n && appendReply(j).Done? && batch[j].handle == h;
        }
      }
    }
  }

  /** The rows that the first `n` replays appended, in sweep order. */
  function Replayed(batch: seq<Message>, n: nat, decode: Body -> Result<Envelope, Error>,
                    appendReply: nat -> Reply): seq<Write>
    requires n <= |batch|
  {
    if n == 0 then []
    else
      var env := decode(batch[n - 1].body);
      Replayed(batch, n - 1, decode, appendReply)
        + (if env.Ok? && appendReply(n - 1).Done? then [Write(env.value.sheetName, env.value.values)] else [])
  }

  /** The rows among `writes` that go to `sheet`, in order. */
  function RowsFor(writes: seq<Write>, sheet: string): seq<Row>
  {
    if writes == [] then []
    else
      var n := |writes| - 1;
      RowsFor(writes[..n], sheet) + (if writes[n].sheet == sheet then [writes[n].row] else [])
  }

  /**
   * After an uninterrupted sweep each sheet holds its old rows followed by
   * the stored rows of the messages for that sheet whose replay succeeded,
   * one each, in batch order.
   */
  lemma {:induction false} SweepSheets(w0: World, batch: seq<Message>, n: nat, decode: Body -> Result<Envelope, Error>,
                                       appendReply: nat -> Reply, deleteReply: nat -> Reply, sheet: string)
    requires n <= |batch|
    requires SweepPrefix(w0, batch, n, decode, appendReply, deleteReply).Running?
    ensures Rows(SweepPrefix(w0, batch, n, decode, appendReply, deleteReply).world.sheets, sheet) ==
            Rows(w0.sheets, sheet) + RowsFor(Replayed(batch, n, decode, appendReply), sheet)
  {
    if n > 0 {
      SweepStepRows(w0, batch, n, decode, appendReply, deleteReply, sheet);
      SweepSheets(w0, batch, n - 1, decode, appendReply, deleteReply, sheet);
      ReplayedRowsStep(batch, n, decode, appendReply, sheet);
      var old0 := Rows(w0.sheets, sheet);
      var replayed := RowsFor(Replayed(batch, n - 1, decode, appendReply), sheet);
      var step := StepRows(decode(batch[n - 1].body), appendReply(n - 1), sheet);
      AppendAssociates(old0, replayed, step);
    }
  }

  lemma AppendAssociates(a: seq<Row>, b: seq<Row>, c: seq<Row>)
    ensures (a + b) + c == a + (b + c)
  {
  }

  /** The rows the n-th message's replay adds to `sheet`: its stored row when it decodes, succeeds and is for `sheet`. */
  function StepRows(env: Result<Envelope, Error>, append: Reply, sheet: string): seq<Row>
  {
    if env.Ok? && append.Done? && env.value.sheetName == sheet then [env.value.values] else []
  }

  lemma ReplayedRowsStep(batch: seq<Message>, n: nat, decode: Body -> Result<Envelope, Error>,
                         appendReply: nat -> Reply, sheet: string)
    requires 0 < n <= |batch|
    ensures RowsFor(Replayed(batch, n, decode, appendReply), sheet)
            == RowsFor(Replayed(batch, n - 1, decode, appendReply), sheet)
               + StepRows(decode(batch[n - 1].body), appendReply(n - 1), sheet)
  {
    var ws := Replayed(batch, n, decode, appendReply);
    if |ws| > |Replayed(batch, n - 1, decode, appendReply)| {
      assert ws[..|ws| - 1] == Replayed(batch, n - 1, decode, appendReply);
    } else {
      assert ws == Replayed(batch, n - 1, decode, appendReply);
    }
  }

  lemma SweepStepRows(w0: World, batch: seq<Message>, n: nat, decode: Body -> Result<Envelope, Error>,
                      appendReply: nat -> Reply, deleteReply: nat -> Reply, sheet: string)
    requires 0 < n <= |batch|
    requires SweepPrefix(w0, batch, n, decode, appendReply, deleteReply).Running?
    ensures SweepPrefix(w0, batch, n - 1, decode, appendReply, deleteReply).Running?
    ensures Rows(SweepPrefix(w0, batch, n, decode, appendReply, deleteReply).world.sheets, sheet)
            == Rows(SweepPrefix(w0, batch, n - 1, decode, appendReply, deleteReply).world.sheets, sheet)
               + StepRows(decode(batch[n - 1].body), appendReply(n - 1), sheet)
  {
  }

  /**
   * The delete rule: when a batch of distinct messages taken from the queue
   * has been swept without interruption, message j has left the queue if and
   * only if its replay succeeded.
   */
  lemma DeletedIffReplayed(w0: World, batch: seq<Message>, decode: Body -> Result<Envelope, Error>,
                           appendReply: nat -> Reply, deleteReply: nat -> Reply, j: nat)
    requires SweepPrefix(w0, batch, |batch|, decode, appendReply, deleteReply).Running?
    requires HandlesDistinct(batch) && j < |batch| && batch[j] in w0.queue
    ensures batch[j] !in SweepPrefix(w0, batch, |batch|, decode, appendReply, deleteReply).world.queue <==> appendReply(j).Done?
  {
    SweepQueue(w0, batch, |batch|, decode, appendReply, deleteReply);
    if batch[j].handle in Acked(batch, |batch|, appendReply) {
      var k :| 0 <= k < |batch| && appendReply(k).Done? && batch[k].handle == batch[j].handle;
      assert k == j;
    }
  }

  /**
   * Whatever the sweep ran into, a malformed body or a failing delete
   * included: it adds no message to the queue, and a message leaves the
   * queue only when the append of a message with its handle succeeded.
   */
  lemma {:induction false} SweepDeletesOnlyAcked(w0: World, batch: seq<Message>, n: nat, decode: Body -> Result<Envelope, Error>,
                                                 appendReply: nat -> Reply, deleteReply: nat -> Reply)
    requires n <= |batch|
    ensures forall m :: m in SweepPrefix(w0, batch, n, decode, appendReply, deleteReply).world.queue ==> m in w0.queue
    ensures forall m :: m in w0.queue && m !in SweepPrefix(w0, batch, n, decode, appendReply, deleteReply).world.queue ==>
                        m.handle in Acked(batch, n, appendReply)
  {
    if n > 0 {
      SweepDeletesOnlyAcked(w0, batch, n - 1, decode, appendReply, deleteReply);
      AckedGrows(batch, n, appendReply);
      var before := SweepPrefix(w0, batch, n - 1, decode, appendReply, deleteReply);
      var after := SweepPrefix(w0, batch, n, decode, appendReply, deleteReply);
      if before.Running? {
        ReplayDeletesOnlyAcked(before.world, batch[n - 1], decode(batch[n - 1].body), appendReply(n - 1), deleteReply(n - 1));
        if appendReply(n - 1).Done? {
          assert batch[n - 1].handle in Acked(batch, n, appendReply);
        }
      }
    }
  }

  /** One replay keeps or removes messages, and removes only those with its handle after a successful append. */
  lemma ReplayDeletesOnlyAcked(w: World, m: Message, decoded: Result<Envelope, Error>, append: Reply, delete: Reply)
    ensures forall x :: x in Replay(w, m, decoded, append, delete).world.queue ==> x in w.queue
    ensures forall x :: x in w.queue && x !in Replay(w, m, decoded, append, delete).world.queue ==>
                        append.Done? && x.handle == m.handle
  {
  }

  /** Acknowledged handles only accumulate. */
  lemma AckedGrows(batch: seq<Message>, n: nat, appendReply: nat -> Reply)
    requires 0 < n <= |batch|
    ensures Acked(batch, n - 1, appendReply) <= Acked(batch, n, appendReply)
  {
  }

  // ---------------------------------------------------------------------
  // The sheet and the queue as state

  class Backend {
    var sheets: map<string, seq<Row>>
    var queue: seq<Message>
    var nextHandle: nat

    /** Every queued message has its own handle, issued before `nextHandle`. */
    ghost predicate Valid()
      reads this
    {
      && (forall m :: m in queue ==> m.handle < nextHandle)
      && HandlesDistinct(queue)
    }

    function State(): World
      reads this
    {
      World(sheets, queue)
    }

    /** A backend over existing sheets and an empty queue. */
    constructor (initial: map<string, seq<Row>>)
      ensures Valid() && sheets == initial && queue == []
    {
      sheets := initial;
      queue := [];
      nextHandle := 0;
    }

    /** `spreadsheets().values().append(range=sheet, ...)`, answered by `reply`. */
    method Append(w: Write, reply: Reply)
      modifies this`sheets
      ensures sheets == if reply.Done? then AddRow(old(sheets), w) else old(sheets)
    {
      if reply.Done? {
        sheets := AddRow(sheets, w);
      }
    }

    /** `send_message`, answered by `reply`; a sent message gets a fresh handle. */
    method Send(body: Body, reply: Reply)
      requires Valid()
      modifies this`queue, this`nextHandle
      ensures Valid()
      ensures queue == if reply.Done? then old(queue) + [Message(old(nextHandle), body)] else old(queue)
    {
      if reply.Done? {
        queue := queue + [Message(nextHandle, body)];
        nextHandle := nextHandle + 1;
      }
    }

    /** `delete_message(ReceiptHandle=handle)`, answered by `reply`. */
    method Delete(handle: nat, reply: Reply)
      requires Valid()
      modifies this`queue
      ensures Valid()
      ensures queue == if reply.Done? then Without(old(queue), handle) else old(queue)
    {
      if reply.Done? {
        WithoutKeepsHandlesDistinct(queue, handle);
        queue := Without(queue, handle);
      }
    }

    /**
     * post_form: the state changes as Ingested describes: its write lands
     * in the sheets, its envelope in the queue, and nothing else changes.
     */
    method PostForm(form: Form, draw: real, errorChance: real, append: Reply, send: Reply)
      returns (r: Result<int, Error>)
      requires Valid()
      modifies this
      ensures Valid()
      ensures var p := Ingested(form, draw, errorChance, append, send);
              && r == p.result
              && sheets == (if p.written.Some? then AddRow(old(sheets), p.written.value) else old(sheets))
              && queue == old(queue) + (if p.queued.Some? then [Message(old(nextHandle), Encoded(Pack(p.queued.value)))] else [])
    {
      var sheetName := SheetName(form);
      if sheetName.Err? {
        return Err(sheetName.error);
      }
      var row := Project(FIELDS, form);
      var failure: Option<string> := None;
      if draw < errorChance {
        failure := Some(RANDOM_ERROR);
      } else {
        Append(Write(sheetName.value, row), append);
        if append.Fails? {
          failure := Some(append.repr);
        }
      }
      if failure.Some? {
        Send(Encoded(Pack(Envelope(row, sheetName.value, failure.value))), send);
        if send.Fails? {
          return Err(ClientError(send.repr));
        }
      }
      return Ok(0);
    }

    /**
     * The body of repost_form's loop for one message whose body decoded
     * to `decoded`: the state changes as Replay says, and an exception that
     * escapes is returned.
     */
    method ReplayMessage(message: Message, decoded: Result<Envelope, Error>, append: Reply, delete: Reply)
      returns (escaped: Option<Error>)
      requires Valid()
      modifies this
      ensures Valid()
      ensures var s := Replay(old(State()), message, decoded, append, delete);
              && State() == s.world
              && escaped == (if s.Running? then None else Some(s.error))
    {
      if decoded.Err? {
        return Some(decoded.error);
      }
      var env := decoded.value;
      Append(Write(env.sheetName, env.values), append);
      if append.Done? {
        Delete(message.handle, delete);
        if delete.Fails? {
          return Some(ClientError(delete.repr));
        }
      }
      return None;
    }

    /**
     * repost_form: a failing `receive_message` escapes before anything
     * changes; otherwise, over the messages it returned (None when the
     * response has no Messages key), the state and the result are those of
     * SweepPrefix over the whole batch, each body read with Decode.
     */
    method RepostForm(received: Received, appendReply: nat -> Reply, deleteReply: nat -> Reply)
      returns (r: Result<(), Error>)
      requires Valid()
      modifies this
      ensures Valid()
      ensures received.ReceiveFails? ==> State() == old(State()) && r == Err(ClientError(received.repr))
      ensures received.Received? ==>
              var batch := if received.messages.Some? then received.messages.value else [];
              var s := SweepPrefix(old(State()), batch, |batch|, Decode, appendReply, deleteReply);
              && State() == s.world
              && r == (if s.Running? then Ok(()) else Err(s.error))
    {
      if received.ReceiveFails? {
        return Err(ClientError(received.repr));
      }
      r := RepostWith(received.messages, Decode, appendReply, deleteReply);
    }

    /** repost_form's loop, for any way `decode` of reading a message body. */
    method RepostWith(response: Option<seq<Message>>, decode: Body -> Result<Envelope, Error>,
                      appendReply: nat -> Reply, deleteReply: nat -> Reply)
      returns (r: Result<(), Error>)
      requires Valid()
      modifies this
      ensures Valid()
      ensures var batch := if response.Some? then response.value else [];
              var s := SweepPrefix(old(State()), batch, |batch|, decode, appendReply, deleteReply);
              && State() == s.world
              && r == (if s.Running? then Ok(()) else Err(s.error))
    {
      var messages := if response.Some? then response.value else [];
      var i := 0;
      while i < |messages|
        invariant 0 <= i <= |messages|
        invariant Valid()
        invariant SweepPrefix(old(State()), messages, i, decode, appendReply, deleteReply) == Running(State())
      {
        var message := messages[i];
        var escaped := ReplayMessage(message, decode(message.body), appendReply(i), deleteReply(i));
        if escaped.Some? {
          SweepAbortIsFinal(old(State()), messages, i + 1, |messages|, decode, appendReply, deleteReply);
          return Err(escaped.value);
        }
        i := i + 1;
      }
      return Ok(());
    }
  }
}
