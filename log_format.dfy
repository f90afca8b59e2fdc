/** What the two console loggers share: how a message is shown, how several
    are joined into one line, and the Unity console that receives them. */
module LogFormat {
  import opened Wrappers

  /** A non-null object handed to the logger, seen only through what its
      `ToString()` returns. */
  datatype Obj = Obj(shown: string)

  /** A `UnityEngine.Object` passed as the context of a log call. */
  datatype Context = Context(instanceId: int)

  /** The console levels the loggers use (Unity's `LogType`). */
  datatype LogType = Log | Warning | Error | Assert

  datatype LogEntry = LogEntry(logType: LogType, message: string, context: Option<Context>)

  /** The Unity console: every `Debug.Log*` call appends one entry. */
  class UnityConsole {
    var entries: seq<LogEntry>

    constructor ()
      ensures entries == []
    {
      entries := [];
    }

    method Emit(logType: LogType, message: string, context: Option<Context>)
      modifies this
      ensures entries == old(entries) + [LogEntry(logType, message, context)]
    {
      entries := entries + [LogEntry(logType, message, context)];
    }
  }

  /** A message as appended: its text, or the null-reference string for null. */
  function Show(message: Option<Obj>, nullReference: string): string
  {
    match message
    case Some(o) => o.shown
    case None => nullReference
  }

  /** The text of a single-message log call. */
  function SingleText(prefix: string, message: Option<Obj>, nullReference: string): (r: string)
    ensures |r| == |prefix| + |Show(message, nullReference)|
    ensures r[..|prefix|] == prefix
    ensures message.Some? ==> r[|prefix|..] == message.value.shown
    ensures message.None? ==> r[|prefix|..] == nullReference
  {
    prefix + Show(message, nullReference)
  }

  /** The messages shown one after another with the delimiter between
      neighbours. */
  function JoinText(items: seq<Option<Obj>>, delimiter: string, nullReference: string): string
  {
    if |items| == 0 then ""
    else if |items| == 1 then Show(items[0], nullReference)
    else Show(items[0], nullReference) + delimiter + JoinText(items[1..], delimiter, nullReference)
  }

  /** The loop's form of the same text: every message followed by the
      delimiter. */
  function Terminated(items: seq<Option<Obj>>, delimiter: string, nullReference: string): string
  {
    if |items| == 0 then ""
    else Terminated(items[..|items| - 1], delimiter, nullReference) + Show(items[|items| - 1], nullReference) + delimiter
  }

  /** What `Join` appends for a (possibly null) message array. */
  function JoinedOrNull(messages: Option<seq<Option<Obj>>>, delimiter: string, nullReference: string): string
  {
    match messages
    case None => nullReference
    case Some(items) => JoinText(items, delimiter, nullReference)
  }

  /** Total length of the shown messages. */
  function ShownLength(items: seq<Option<Obj>>, nullReference: string): nat
  {
    if |items| == 0 then 0 else |Show(items[0], nullReference)| + ShownLength(items[1..], nullReference)
  }

  /** One more loop step: the next message and a delimiter. */
  lemma TerminatedStep(items: seq<Option<Obj>>, i: nat, delimiter: string, nullReference: string)
    requires i < |items|
    ensures Terminated(items[..i + 1], delimiter, nullReference) ==
            Terminated(items[..i], delimiter, nullReference) + Show(items[i], nullReference) + delimiter
  {
    assert items[..i + 1][..i] == items[..i];
  }

  /** Joining two non-empty runs puts exactly one delimiter between them. */
  lemma {:induction false} JoinSplit(xs: seq<Option<Obj>>, ys: seq<Option<Obj>>, delimiter: string, nullReference: string)
    requires |xs| > 0 && |ys| > 0
    ensures JoinText(xs + ys, delimiter, nullReference) ==
            JoinText(xs, delimiter, nullReference) + delimiter + JoinText(ys, delimiter, nullReference)
  {
    if |xs| > 1 {
      assert (xs + ys)[1..] == xs[1..] + ys;
      JoinSplit(xs[1..], ys, delimiter, nullReference);
    } else {
      assert (xs + ys)[1..] == ys;
    }
  }

  /** The loop's text with the last message appended undelimited is the
      joined text: there is no trailing delimiter. */
  lemma {:induction false} TerminatedThenLast(items: seq<Option<Obj>>, delimiter: string, nullReference: string)
    requires |items| > 0
    ensures Terminated(items[..|items| - 1], delimiter, nullReference) + Show(items[|items| - 1], nullReference) ==
            JoinText(items, delimiter, nullReference)
  {
    var n := |items|;
    if n > 1 {
      var init := items[..n - 1];
      TerminatedThenLast(init, delimiter, nullReference);
      assert init[..|init| - 1] == items[..n - 2];
      JoinSplit(init, [items[n - 1]], delimiter, nullReference);
      assert init + [items[n - 1]] == items;
    }
  }

  /** n messages are joined with exactly n - 1 delimiters: the length is the
      messages' lengths plus n - 1 delimiters. */
  lemma {:induction false} JoinLength(items: seq<Option<Obj>>, delimiter: string, nullReference: string)
    requires |items| > 0
    ensures |JoinText(items, delimiter, nullReference)| ==
            ShownLength(items, nullReference) + (|items| - 1) * |delimiter|
  {
    if |items| > 1 {
      JoinLength(items[1..], delimiter, nullReference);
    }
  }

  /** A null array is shown as the null-reference string alone, an empty
      one as nothing, a single message as itself. */
  lemma JoinEdgeCases(item: Option<Obj>, delimiter: string, nullReference: string)
    ensures JoinedOrNull(None, delimiter, nullReference) == nullReference
    ensures JoinedOrNull(Some([]), delimiter, nullReference) == ""
    ensures JoinedOrNull(Some([item]), delimiter, nullReference) == Show(item, nullReference)
  {
  }
}
