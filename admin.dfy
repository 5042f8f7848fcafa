/**
 * The administrator's page (src/app/admin/admin.component.ts): a query typed into
 * the form is sent to the database endpoint, and its answer is shown as a table, as
 * an "affected rows" note or as an error header.
 */
module Admin {
  import opened Wrappers
  import opened Strings
  import opened Dtos
  import opened Http
  import opened Content

  const ServerErrorsHeader := "The server returned the following error(s):"
  const UnknownErrorHeader := "The server returned an unknown error! Please check your query!"
  const ConnectionErrorHeader := "Error connecting to server. Please try again later!"
  const AffectedSuffix := " rows were affected!"

  /** The error header for a failed query: one per status class, 400 and 500 named, all else a connection error. */
  function ErrorHeader(status: int): (header: string)
    ensures header == ServerErrorsHeader <==> status == 400
    ensures header == UnknownErrorHeader <==> status == 500
    ensures header == ConnectionErrorHeader <==> status != 400 && status != 500
  {
    if status == 400 then ServerErrorsHeader
    else if status == 500 then UnknownErrorHeader
    else ConnectionErrorHeader
  }

  /** `${affectedRows}` in a template literal: the number's text, or "null". */
  function AffectedRowsText(affectedRows: Option<int>): string {
    if affectedRows.Some? then IntToString(affectedRows.value) else "null"
  }

  /**
   * The note for a statement without a result set: the row count, then " rows were
   * affected!". The count reads back from the note; an absent count shows as "null".
   */
  function InfoMessage(affectedRows: Option<int>): (msg: string)
    ensures |msg| > |AffectedSuffix|
    ensures msg[|msg| - |AffectedSuffix|..] == AffectedSuffix
    ensures affectedRows.Some? ==> ReadInt(msg[..|msg| - |AffectedSuffix|]) == affectedRows
    ensures affectedRows.None? ==> msg[..|msg| - |AffectedSuffix|] == "null"
  {
    var count := AffectedRowsText(affectedRows);
    assert affectedRows.Some? ==> ReadInt(count) == affectedRows by {
      if affectedRows.Some? {
        IntToStringReadsBack(affectedRows.value);
      }
    }
    assert (count + AffectedSuffix)[..|count|] == count;
    count + AffectedSuffix
  }

  /** `!value` on the query form: null and the empty string are falsy. */
  predicate Blank(query: Option<string>) {
    query.None? || query.value == ""
  }

  class AdminComponent {
    /** The value of the query form; `None` is null. */
    var sqlQueryForm: Option<string>
    var executeBtnLoading: bool
    var resultColumns: Option<seq<string>>
    var resultData: Option<seq<seq<string>>>
    var infoMsg: Option<string>
    var errorMsgHeader: Option<string>
    /** `err.error` as received; `NoBody` is null. */
    var errorMsgs: ErrorBody
    ghost var requests: seq<Call>

    /** Whether a table is shown: either part of the result is set. */
    predicate ShowsResult()
      reads this
    {
      resultColumns.Some? || resultData.Some?
    }

    /** How many of the three outcomes (table, note, error header) are on display. */
    function Shown(): (n: nat)
      reads this
      ensures n <= 3
    {
      (if ShowsResult() then 1 else 0) + (if infoMsg.Some? then 1 else 0) + (if errorMsgHeader.Some? then 1 else 0)
    }

    constructor ()
      ensures sqlQueryForm == Some("") && !executeBtnLoading && Shown() == 0
      ensures errorMsgs == NoBody && requests == []
    {
      sqlQueryForm := Some("");
      executeBtnLoading := false;
      resultColumns := None;
      resultData := None;
      infoMsg := None;
      errorMsgHeader := None;
      errorMsgs := NoBody;
      requests := [];
    }

    /**
     * execute: nothing while loading or with a blank query; otherwise loading is set,
     * all five outputs are cleared and the query goes out.
     */
    method Execute()
      modifies this
      ensures old(executeBtnLoading) || Blank(sqlQueryForm) ==>
                executeBtnLoading == old(executeBtnLoading) && requests == old(requests)
                && resultColumns == old(resultColumns) && resultData == old(resultData)
                && infoMsg == old(infoMsg) && errorMsgHeader == old(errorMsgHeader) && errorMsgs == old(errorMsgs)
      ensures !old(executeBtnLoading) && !Blank(sqlQueryForm) ==>
                executeBtnLoading && Shown() == 0 && errorMsgs == NoBody
                && requests == old(requests) + [ExecuteQuery(sqlQueryForm.value)]
      ensures sqlQueryForm == old(sqlQueryForm)
    {
      if executeBtnLoading || Blank(sqlQueryForm) {
        return;
      }
      executeBtnLoading := true;
      resultColumns := None;
      resultData := None;
      infoMsg := None;
      errorMsgHeader := None;
      errorMsgs := NoBody;
      requests := requests + [ExecuteQuery(sqlQueryForm.value)];
    }

    /**
     * The query failed: the header for its status, the server's list of errors for a
     * 400, and loading cleared. Only the error header is on display afterwards.
     */
    method OnError(err: HttpError)
      requires Shown() == 0
      modifies this
      ensures !executeBtnLoading && Shown() == 1
      ensures errorMsgHeader == Some(ErrorHeader(err.status))
      ensures err.status == 400 ==> errorMsgs == err.body
      ensures err.status != 400 ==> errorMsgs == old(errorMsgs)
      ensures resultColumns == old(resultColumns) && resultData == old(resultData) && infoMsg == old(infoMsg)
      ensures sqlQueryForm == old(sqlQueryForm) && requests == old(requests)
    {
      executeBtnLoading := false;
      if err.status == 400 {
        errorMsgHeader := Some(ServerErrorsHeader);
        errorMsgs := err.body;
      } else if err.status == 500 {
        errorMsgHeader := Some(UnknownErrorHeader);
      } else {
        errorMsgHeader := Some(ConnectionErrorHeader);
      }
    }

    /**
     * The query ran: a statement with a result set shows its columns and rows, any
     * other the affected-rows note; loading is cleared. At most one outcome is then
     * on display, and exactly one unless a result set came without columns and rows.
     */
    method OnSuccess(res: DatabaseOperation)
      requires Shown() == 0
      modifies this
      ensures !executeBtnLoading
      ensures res.hasResult ==> resultColumns == res.columns && resultData == res.result && infoMsg == old(infoMsg)
      ensures !res.hasResult ==>
                infoMsg == Some(InfoMessage(res.affectedRows))
                && resultColumns == old(resultColumns) && resultData == old(resultData)
      ensures Shown() <= 1
      ensures Shown() == 1 <==> !res.hasResult || res.columns.Some? || res.result.Some?
      ensures errorMsgHeader == old(errorMsgHeader) && errorMsgs == old(errorMsgs)
      ensures sqlQueryForm == old(sqlQueryForm) && requests == old(requests)
    {
      if res.hasResult {
        resultColumns := res.columns;
        resultData := res.result;
      } else {
        infoMsg := Some(InfoMessage(res.affectedRows));
      }
      executeBtnLoading := false;
    }
  }

  /** A query that fails with 400 and then one that succeeds: the second run clears the first's errors. */
  method QueryScenario(errors: seq<string>)
  {
    var admin := new AdminComponent();
    admin.sqlQueryForm := Some("DELETE FROM posts");
    admin.Execute();
    admin.Execute();
    assert admin.requests == [ExecuteQuery("DELETE FROM posts")];
    admin.OnError(HttpError(400, TextListBody(errors)));
    assert admin.errorMsgs == TextListBody(errors) && admin.errorMsgHeader == Some(ServerErrorsHeader);
    admin.Execute();
    assert admin.errorMsgs == NoBody && admin.errorMsgHeader == None;
    admin.OnSuccess(DatabaseOperation(false, Some(3), None, None));
    assert admin.infoMsg == Some(InfoMessage(Some(3))) && admin.Shown() == 1;
  }
}
