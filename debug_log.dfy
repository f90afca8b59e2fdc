/** `Zigurous.Debugging.Debug`: the same prefixing, null display and joining
    as `Zigurous.Debug.Log`, but the shared string builder is cleared after
    each call instead of before it. What a call emits is therefore whatever
    the builder held on entry followed by the formatted text; it is the
    formatted text alone exactly when the builder was empty, which every
    call of this class leaves it. */
module Debugging {
  import opened Wrappers
  import opened Text
  import opened LogFormat

  class Debug {
    var prefix: string
    var nullReference: string
    var delimiter: string

    /** `UNITY_EDITOR || DEVELOPMENT_BUILD`. */
    const developmentBuild: bool

    const builder: StringBuilder
    const console: UnityConsole

    constructor (console: UnityConsole, developmentBuild: bool)
      ensures prefix == "[Zigurous]: " && nullReference == "Null" && delimiter == ", "
      ensures this.console == console && fresh(builder) && builder.chars == []
      ensures this.developmentBuild == developmentBuild
    {
      prefix := "[Zigurous]: ";
      nullReference := "Null";
      delimiter := ", ";
      this.developmentBuild := developmentBuild;
      this.console := console;
      builder := new StringBuilder(0);
    }

    /** Appends the joined messages to the builder. */
    method Join(messages: Option<seq<Option<Obj>>>)
      modifies builder
      ensures builder.chars == old(builder.chars) + JoinedOrNull(messages, delimiter, nullReference)
    {
      if messages.None? {
        builder.Append(nullReference);
        return;
      }
      var items := messages.value;
      var i := 0;
      while i < |items| - 1
        invariant 0 <= i <= if |items| > 0 then |items| - 1 else 0
        invariant builder.chars == old(builder.chars) + Terminated(items[..i], delimiter, nullReference)
      {
        TerminatedStep(items, i, delimiter, nullReference);
        AppendShown(items[i]);
        builder.Append(delimiter);
        i := i + 1;
      }
      if |items| > 0 {
        AppendShown(items[|items| - 1]);
        TerminatedThenLast(items, delimiter, nullReference);
      }
    }

    /** Appends one message, or `nullReference` for null. */
    method AppendShown(message: Option<Obj>)
      modifies builder
      ensures builder.chars == old(builder.chars) + Show(message, nullReference)
    {
      if message.Some? {
        builder.Append(message.value.shown);
      } else {
        builder.Append(nullReference);
      }
    }

    /** One message under `Debug.prefix` and an optional context; the
        builder is cleared after sending. */
    method Single(logType: LogType, message: Option<Obj>, context: Option<Context>)
      modifies builder, console
      ensures console.entries == old(console.entries) +
        [LogEntry(logType, old(builder.chars) + SingleText(prefix, message, nullReference), context)]
      ensures builder.chars == []
    {
      builder.Append(prefix);
      AppendShown(message);
      assert builder.ToString() == old(builder.chars) + SingleText(prefix, message, nullReference);
      console.Emit(logType, builder.ToString(), context);
      builder.Clear();
    }

    /** Several messages as one line under `Debug.prefix`; the builder is
        cleared after sending. */
    method Many(logType: LogType, messages: Option<seq<Option<Obj>>>)
      modifies builder, console
      ensures console.entries == old(console.entries) +
        [LogEntry(logType, old(builder.chars) + prefix + JoinedOrNull(messages, delimiter, nullReference), None)]
      ensures builder.chars == []
    {
      builder.Append(prefix);
      Join(messages);
      assert builder.ToString() == old(builder.chars) + prefix + JoinedOrNull(messages, delimiter, nullReference);
      console.Emit(logType, builder.ToString(), None);
      builder.Clear();
    }

    /** `Log(message)` and `Log(message, context)`. */
    method Log(message: Option<Obj>, context: Option<Context>)
      modifies builder, console
      ensures developmentBuild ==>
        console.entries == old(console.entries) +
          [LogEntry(LogType.Log, old(builder.chars) + SingleText(prefix, message, nullReference), context)] &&
        builder.chars == []
      ensures !developmentBuild ==> unchanged(builder, console)
    {
      if developmentBuild {
        Single(LogType.Log, message, context);
      }
    }

    /** `Log(params object[] messages)`. */
    method LogMany(messages: Option<seq<Option<Obj>>>)
      modifies builder, console
      ensures developmentBuild ==>
        console.entries == old(console.entries) +
          [LogEntry(LogType.Log, old(builder.chars) + prefix + JoinedOrNull(messages, delimiter, nullReference), None)] &&
        builder.chars == []
      ensures !developmentBuild ==> unchanged(builder, console)
    {
      if developmentBuild {
        Many(LogType.Log, messages);
      }
    }

    /** `LogWarning(message)` and `LogWarning(message, context)`. */
    method LogWarning(message: Option<Obj>, context: Option<Context>)
      modifies builder, console
      ensures developmentBuild ==>
        console.entries == old(console.entries) +
          [LogEntry(LogType.Warning, old(builder.chars) + SingleText(prefix, message, nullReference), context)] &&
        builder.chars == []
      ensures !developmentBuild ==> unchanged(builder, console)
    {
      if developmentBuild {
        Single(LogType.Warning, message, context);
      }
    }

    /** `LogWarning(params object[] messages)`. */
    method LogWarnings(messages: Option<seq<Option<Obj>>>)
      modifies builder, console
      ensures developmentBuild ==>
        console.entries == old(console.entries) +
          [LogEntry(LogType.Warning, old(builder.chars) + prefix + JoinedOrNull(messages, delimiter, nullReference), None)] &&
        builder.chars == []
      ensures !developmentBuild ==> unchanged(builder, console)
    {
      if developmentBuild {
        Many(LogType.Warning, messages);
      }
    }

    /** `LogError(message)` and `LogError(message, context)`. */
    method LogError(message: Option<Obj>, context: Option<Context>)
      modifies builder, console
      ensures developmentBuild ==>
        console.entries == old(console.entries) +
          [LogEntry(LogType.Error, old(builder.chars) + SingleText(prefix, message, nullReference), context)] &&
        builder.chars == []
      ensures !developmentBuild ==> unchanged(builder, console)
    {
      if developmentBuild {
        Single(LogType.Error, message, context);
      }
    }

    /** `LogError(params object[] messages)`. */
    method LogErrors(messages: Option<seq<Option<Obj>>>)
      modifies builder, console
      ensures developmentBuild ==>
        console.entries == old(console.entries) +
          [LogEntry(LogType.Error, old(builder.chars) + prefix + JoinedOrNull(messages, delimiter, nullReference), None)] &&
        builder.chars == []
      ensures !developmentBuild ==> unchanged(builder, console)
    {
      if developmentBuild {
        Many(LogType.Error, messages);
      }
    }
  }
}
