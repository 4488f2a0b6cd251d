/** The run action: the driver's replies to one multi-statement script are turned
    into the `$results` list shown on the page, or into an error message. The
    driver itself is not modelled; what it answered is the input. */
module Execution {
  import opened Php

  /** A value of a fetched row: SQL NULL or text. */
  datatype Cell = Null | Text(text: string)

  /** What the server reported for one statement, in server order: a stored
      result set (field names and rows, each row in field order), no result set
      with the affected-row count, or a failure with the server's message. */
  datatype StatementReply =
    | RowSet(columns: seq<string>, rows: seq<seq<Cell>>)
    | NoRowSet(affected: int)
    | Failed(message: string)

  /** The driver's answer to a connection attempt followed by `multi_query`:
      the connection was refused, or the script ran and produced at least one reply. */
  datatype ScriptReply =
    | ConnectFailed(message: string)
    | Executed(first: StatementReply, later: seq<StatementReply>)

  /** One element of `$results`: `['type' => 'result', 'rows' => ...]` or
      `['type' => 'info', 'info' => affected_rows]`. */
  datatype Entry =
    | ResultEntry(columns: seq<string>, rows: seq<seq<Cell>>)
    | InfoEntry(info: int)

  function Replies(reply: ScriptReply): (all: seq<StatementReply>)
    requires reply.Executed?
    ensures |all| == 1 + |reply.later| && all[0] == reply.first && all[1..] == reply.later
  {
    [reply.first] + reply.later
  }

  /** The entry a successful statement contributes. */
  function EntryOf(r: StatementReply): (e: Entry)
    requires !r.Failed?
    ensures r.RowSet? <==> e.ResultEntry?
    ensures r.RowSet? ==> e.columns == r.columns && e.rows == r.rows
    ensures r.NoRowSet? ==> e.info == r.affected
  {
    match r
    case RowSet(columns, rows) => ResultEntry(columns, rows)
    case NoRowSet(affected) => InfoEntry(affected)
  }

  /** `entries` holds one entry per statement, in server order, for the longest
      prefix of `all` that contains no failure, and stops right before the first
      failure if there is one. */
  predicate CollectedUpToFailure(all: seq<StatementReply>, entries: seq<Entry>) {
    |entries| <= |all| &&
    (forall i :: 0 <= i < |entries| ==> !all[i].Failed? && entries[i] == EntryOf(all[i])) &&
    (|entries| < |all| ==> all[|entries|].Failed?)
  }

  const ConnectErrorPrefix: string := "Connect error: "
  const QueryErrorPrefix: string := "Query error: "

  /** The run branch after the connection attempt.
      A refused connection or a failing first statement gives an error and no
      results. Otherwise the do/while loop collects one entry per statement and
      stops at the first later failure, keeping what it collected and reporting
      no error for the statement that failed. */
  method RunScript(reply: ScriptReply) returns (results: Option<seq<Entry>>, error: Option<string>)
    ensures reply.ConnectFailed? ==> results == None && error == Some(ConnectErrorPrefix + reply.message)
    ensures reply.Executed? && reply.first.Failed? ==>
      results == None && error == Some(QueryErrorPrefix + reply.first.message)
    ensures reply.Executed? && !reply.first.Failed? ==>
      error == None && results.Some? && |results.value| >= 1 &&
      CollectedUpToFailure(Replies(reply), results.value)
  {
    if reply.ConnectFailed? {
      return None, Some(ConnectErrorPrefix + reply.message);
    }
    if reply.first.Failed? {
      return None, Some(QueryErrorPrefix + reply.first.message);
    }
    var all := Replies(reply);
    var collected: seq<Entry> := [];
    var i := 0;
    while true
      invariant 0 <= i < |all| && |collected| == i
      invariant !all[i].Failed?
      invariant forall k :: 0 <= k < i ==> !all[k].Failed? && collected[k] == EntryOf(all[k])
      decreases |all| - i
    {
      // store_result(): a result set becomes a 'result' entry, otherwise an 'info' entry
      collected := collected + [EntryOf(all[i])];
      // more_results() && next_result()
      if !(i + 1 < |all| && !all[i + 1].Failed?) {
        break;
      }
      i := i + 1;
    }
    results, error := Some(collected), None;
  }

  /** The number of statements the server answered before its first failure. */
  function SucceededPrefix(all: seq<StatementReply>): (n: nat)
    ensures n <= |all|
    ensures forall i :: 0 <= i < n ==> !all[i].Failed?
    ensures n < |all| ==> all[n].Failed?
  {
    if all == [] || all[0].Failed? then 0 else 1 + SucceededPrefix(all[1..])
  }

  /** There is one collected entry per statement of the failure-free prefix. */
  lemma CollectedCount(all: seq<StatementReply>, entries: seq<Entry>)
    requires CollectedUpToFailure(all, entries)
    ensures |entries| == SucceededPrefix(all)
  {
  }

  /** The replies determine the collected entries: two lists that both satisfy
      the description are the same list. */
  lemma CollectedIsUnique(all: seq<StatementReply>, a: seq<Entry>, b: seq<Entry>)
    requires CollectedUpToFailure(all, a) && CollectedUpToFailure(all, b)
    ensures a == b
  {
    CollectedCount(all, a);
    CollectedCount(all, b);
  }

  /** Without any failing statement every statement yields an entry. */
  lemma AllSucceedAllCollected(all: seq<StatementReply>, entries: seq<Entry>)
    requires CollectedUpToFailure(all, entries)
    requires forall i :: 0 <= i < |all| ==> !all[i].Failed?
    ensures |entries| == |all|
  {
  }
}
