/** `Zigurous.Debug.Log`: console logging that prefixes every message,
    shows null as a fixed string and joins several messages into one line.
    The shared string builder is cleared at the start of every call. */
module Logging {
  import opened Wrappers
  import opened Text
  import opened LogFormat

  class Log {
    /** The public static settings; callers may reassign them. */
    var prefix: string
    var nullReference: string
    var delimiter: string

    /** `UNITY_EDITOR || DEVELOPMENT_BUILD`: when false every call is
        compiled to nothing. */
    const developmentBuild: bool
    /** `UNITY_ASSERTIONS`: the `Assertion` family also needs it. */
    const unityAssertions: bool

    const builder: StringBuilder
    const console: UnityConsole

    constructor (console: UnityConsole, developmentBuild: bool, unityAssertions: bool)
      ensures prefix == "[Zigurous]: " && nullReference == "Null" && delimiter == ", "
      ensures this.console == console && fresh(builder) && builder.chars == []
      ensures this.developmentBuild == developmentBuild && this.unityAssertions == unityAssertions
    {
      prefix := "[Zigurous]: ";
      nullReference := "Null";
      delimiter := ", ";
      this.developmentBuild := developmentBuild;
      this.unityAssertions := unityAssertions;
      this.console := console;
      builder := new StringBuilder(0);
    }

    /** The `Join` extension: appends the joined messages to the builder. */
    method Join(messages: Option<seq<Option<Obj>>>)
      modifies builder
      ensures builder.chars == old(builder.chars) + JoinedOrNull(messages, delimiter, nullReference)
    {
      if messages.None? {
        builder.Append(nullReference);
        return;
      }
      var items := messages.value;
      var i := 0;
      while i < |items| - 1
        invariant 0 <= i <= if |items| > 0 then |items| - 1 else 0
        invariant builder.chars == old(builder.chars) + Terminated(items[..i], delimiter, nullReference)
      {
        TerminatedStep(items, i, delimiter, nullReference);
        AppendShown(items[i]);
        builder.Append(delimiter);
        i := i + 1;
      }
      if |items| > 0 {
        AppendShown(items[|items| - 1]);
        TerminatedThenLast(items, delimiter, nullReference);
      }
    }

    /** Appends one message, or `nullReference` for null. */
    method AppendShown(message: Option<Obj>)
      modifies builder
      ensures builder.chars == old(builder.chars) + Show(message, nullReference)
    {
      if message.Some? {
        builder.Append(message.value.shown);
      } else {
        builder.Append(nullReference);
      }
    }

    /** One message under the given prefix and optional context, sent at
        the given level; the builder is cleared first. */
    method Single(logType: LogType, message: Option<Obj>, prefix: string, context: Option<Context>)
      modifies builder, console
      ensures console.entries == old(console.entries) + [LogEntry(logType, SingleText(prefix, message, nullReference), context)]
      ensures builder.chars == SingleText(prefix, message, nullReference)
    {
      builder.Clear();
      builder.Append(prefix);
      AppendShown(message);
      assert builder.ToString() == SingleText(prefix, message, nullReference);
      console.Emit(logType, builder.ToString(), context);
    }

    /** Several messages as one line under `Log.prefix`, sent at the given
        level; the builder is cleared first. */
    method Many(logType: LogType, messages: Option<seq<Option<Obj>>>)
      modifies builder, console
      ensures console.entries == old(console.entries) + [LogEntry(logType, prefix + JoinedOrNull(messages, delimiter, nullReference), None)]
      ensures builder.chars == prefix + JoinedOrNull(messages, delimiter, nullReference)
    {
      builder.Clear();
      builder.Append(prefix);
      Join(messages);
      assert builder.ToString() == prefix + JoinedOrNull(messages, delimiter, nullReference);
      console.Emit(logType, builder.ToString(), None);
    }

    /** `Message(message)`, `Message(message, prefix)`,
        `Message(message, context)` and `Message(message, prefix, context)`:
        a missing prefix is `Log.prefix`. */
    method Message(message: Option<Obj>, customPrefix: Option<string>, context: Option<Context>)
      modifies builder, console
      ensures developmentBuild ==>
        console.entries == old(console.entries) + [LogEntry(LogType.Log, SingleText(customPrefix.GetOr(prefix), message, nullReference), context)]
      ensures !developmentBuild ==> unchanged(builder, console)
    {
      if developmentBuild {
        Single(LogType.Log, message, customPrefix.GetOr(prefix), context);
      }
    }

    /** `Message(params object[] messages)`. */
    method Messages(messages: Option<seq<Option<Obj>>>)
      modifies builder, console
      ensures developmentBuild ==>
        console.entries == old(console.entries) + [LogEntry(LogType.Log, prefix + JoinedOrNull(messages, delimiter, nullReference), None)]
      ensures !developmentBuild ==> unchanged(builder, console)
    {
      if developmentBuild {
        Many(LogType.Log, messages);
      }
    }

    /** The four `Warning(message, ...)` overloads. */
    method Warning(message: Option<Obj>, customPrefix: Option<string>, context: Option<Context>)
      modifies builder, console
      ensures developmentBuild ==>
        console.entries == old(console.entries) + [LogEntry(LogType.Warning, SingleText(customPrefix.GetOr(prefix), message, nullReference), context)]
      ensures !developmentBuild ==> unchanged(builder, console)
    {
      if developmentBuild {
        Single(LogType.Warning, message, customPrefix.GetOr(prefix), context);
      }
    }

    /** `Warning(params object[] messages)`. */
    method Warnings(messages: Option<seq<Option<Obj>>>)
      modifies builder, console
      ensures developmentBuild ==>
        console.entries == old(console.entries) + [LogEntry(LogType.Warning, prefix + JoinedOrNull(messages, delimiter, nullReference), None)]
      ensures !developmentBuild ==> unchanged(builder, console)
    {
      if developmentBuild {
        Many(LogType.Warning, messages);
      }
    }

    /** The four `Error(message, ...)` overloads. */
    method Error(message: Option<Obj>, customPrefix: Option<string>, context: Option<Context>)
      modifies builder, console
      ensures developmentBuild ==>
        console.entries == old(console.entries) + [LogEntry(LogType.Error, SingleText(customPrefix.GetOr(prefix), message, nullReference), context)]
      ensures !developmentBuild ==> unchanged(builder, console)
    {
      if developmentBuild {
        Single(LogType.Error, message, customPrefix.GetOr(prefix), context);
      }
    }

    /** `Error(params object[] messages)`. */
    method Errors(messages: Option<seq<Option<Obj>>>)
      modifies builder, console
      ensures developmentBuild ==>
        console.entries == old(console.entries) + [LogEntry(LogType.Error, prefix + JoinedOrNull(messages, delimiter, nullReference), None)]
      ensures !developmentBuild ==> unchanged(builder, console)
    {
      if developmentBuild {
        Many(LogType.Error, messages);
      }
    }

    /** The four `Assertion(message, ...)` overloads, compiled in only when
        `UNITY_ASSERTIONS` is defined as well. */
    method Assertion(message: Option<Obj>, customPrefix: Option<string>, context: Option<Context>)
      modifies builder, console
      ensures developmentBuild && unityAssertions ==>
        console.entries == old(console.entries) + [LogEntry(LogType.Assert, SingleText(customPrefix.GetOr(prefix), message, nullReference), context)]
      ensures !(developmentBuild && unityAssertions) ==> unchanged(builder, console)
    {
      if developmentBuild && unityAssertions {
        Single(LogType.Assert, message, customPrefix.GetOr(prefix), context);
      }
    }

    /** `Assertion(params object[] messages)`. */
    method Assertions(messages: Option<seq<Option<Obj>>>)
      modifies builder, console
      ensures developmentBuild && unityAssertions ==>
        console.entries == old(console.entries) + [LogEntry(LogType.Assert, prefix + JoinedOrNull(messages, delimiter, nullReference), None)]
      ensures !(developmentBuild && unityAssertions) ==> unchanged(builder, console)
    {
      if developmentBuild && unityAssertions {
        Many(LogType.Assert, messages);
      }
    }
  }
}
