/**
  The chat logger (utils/chat_logger.py): the pure helpers that name a chat's
  log file, trim long content and shorten tool results, the routing of an
  entry by output mode, and the logger object whose `log` puts entries on a
  queue and whose console filter is a set of chat ids. The worker thread,
  file writes and console printing are not modelled.
 */
module Logger {
  import opened Wrappers
  import opened PyStr
  import opened Json
  import Messages

  datatype Level = Debug | Info | Warning | Error | ToolCall | ToolResult | LlmRequest | LlmResponse | StateUpdate

  datatype Output = ConsoleAll | ConsoleFiltered | FilesSeparate | FilesDaily | StructuredJson

  const MaxToolResultsToShow := 3
  const MaxSafeIdLength := 50
  const TrimmedSuffix := "...\n(trimmed for brevity)"

  // ---------------------------------------------------------------- _get_chat_log_file

  predicate SafeChar(c: char) {
    IsAlnum(c) || c == '.' || c == '_' || c == '-'
  }

  /** The chat id with every character other than alphanumerics and `._-` dropped, cut to 50 characters. */
  function SafeChatId(chatId: string): (r: string)
    ensures |r| <= MaxSafeIdLength
    ensures forall i :: 0 <= i < |r| ==> SafeChar(r[i])
  {
    var kept := Messages.Filter(chatId, SafeChar);
    FilterAllSatisfy(chatId, SafeChar);
    SliceTo(kept, MaxSafeIdLength)
  }

  /** The file name of a chat's log in the log directory. */
  function ChatLogFileName(chatId: string): (name: string)
    ensures "chat_" <= name && |name| <= 5 + MaxSafeIdLength + 4
  {
    "chat_" + SafeChatId(chatId) + ".log"
  }

  lemma {:induction false} FilterAllSatisfy(s: string, p: char -> bool)
    ensures forall i :: 0 <= i < |Messages.Filter(s, p)| ==> p(Messages.Filter(s, p)[i])
    decreases |s|
  {
    if s != [] {
      FilterAllSatisfy(s[1..], p);
    }
  }

  lemma {:induction false} FilterKeepsAll(s: string, p: char -> bool)
    requires forall i :: 0 <= i < |s| ==> p(s[i])
    ensures Messages.Filter(s, p) == s
    decreases |s|
  {
    if s != [] {
      FilterKeepsAll(s[1..], p);
    }
  }

  /** The safe id keeps the characters it keeps in their original order. */
  lemma SafeChatIdIsSubseq(chatId: string)
    ensures Messages.IsSubseq(SafeChatId(chatId), chatId)
  {
    var kept := Messages.Filter(chatId, SafeChar);
    Messages.FilterIsSubseq(chatId, SafeChar);
    var r := SafeChatId(chatId);
    var idx := seq(|r|, i => i);
    assert Messages.Embedding(idx, r, kept);
    Messages.SubseqTrans(r, kept, chatId);
  }

  /** An id that is already safe and short enough is its own safe id. */
  lemma SafeIdsAreKept(chatId: string)
    requires |chatId| <= MaxSafeIdLength && forall i :: 0 <= i < |chatId| ==> SafeChar(chatId[i])
    ensures SafeChatId(chatId) == chatId
  {
    FilterKeepsAll(chatId, SafeChar);
  }

  /** So sanitising twice is sanitising once. */
  lemma SafeChatIdIdempotent(chatId: string)
    ensures SafeChatId(SafeChatId(chatId)) == SafeChatId(chatId)
  {
    SafeIdsAreKept(SafeChatId(chatId));
  }

  // ---------------------------------------------------------------- _trim_content

  /** `_trim_content`: long content is cut to `maxLength` characters and marked as trimmed, unless verbose. */
  function TrimContent(content: string, maxLength: int, verbose: bool): (r: string)
    ensures verbose || |content| <= maxLength ==> r == content
    ensures !verbose && |content| > maxLength ==> r == SliceTo(content, maxLength) + TrimmedSuffix
  {
    if !verbose && |content| > maxLength then SliceTo(content, maxLength) + TrimmedSuffix else content
  }

  /** Trimmed output keeps the beginning of the content and is never longer than the limit plus the marker. */
  lemma TrimmedKeepsPrefix(content: string, maxLength: nat, verbose: bool)
    ensures var r := TrimContent(content, maxLength, verbose);
      |r| <= Max(|content|, maxLength + |TrimmedSuffix|)
      && content[..Min(maxLength, |content|)] <= r
      && (r != content ==> r[..maxLength] == content[..maxLength] && r[maxLength..] == TrimmedSuffix)
  {
  }

  // ---------------------------------------------------------------- _format_tool_result_data

  /** `"Showing 3 of {n} results."`. */
  function Summary(n: nat): string {
    "Showing " + NatToString(MaxToolResultsToShow) + " of " + NatToString(n) + " results."
  }

  /**
    The dict `_format_tool_result_data` formats: a `result` list of more than
    three items is cut to its first three and a `_summary` entry says how many
    there were; anything else is left as it is. The caller's dict is a value
    here, so it cannot be changed, as the deep copy in the source guarantees.
   */
  function ShortenToolResult(data: seq<Field>): (r: seq<Field>)
    ensures forall k :: k != "result" && k != "_summary" ==> Get(r, k) == Get(data, k)
    ensures match Get(data, "result")
      case Some(JList(items)) =>
        if |items| > MaxToolResultsToShow then
          Get(r, "result") == Some(JList(items[..MaxToolResultsToShow]))
          && Get(r, "_summary") == Some(JStr(Summary(|items|)))
        else r == data
      case _ => r == data
  {
    match Get(data, "result")
    case Some(JList(items)) =>
      if |items| > MaxToolResultsToShow then
        var withResult := Set(data, "result", JList(items[..MaxToolResultsToShow]));
        var r := Set(withResult, "_summary", JStr(Summary(|items|)));
        forall k ensures k != "result" && k != "_summary" ==> Get(r, k) == Get(data, k)
        {
          GetSet(withResult, "_summary", JStr(Summary(|items|)), k);
          GetSet(data, "result", JList(items[..MaxToolResultsToShow]), k);
        }
        GetSet(withResult, "_summary", JStr(Summary(|items|)), "result");
        GetSet(data, "result", JList(items[..MaxToolResultsToShow]), "result");
        GetSet(withResult, "_summary", JStr(Summary(|items|)), "_summary");
        r
      else data
    case _ => data
  }

  /** A shortened tool result shows at most three results, so shortening it again changes nothing. */
  lemma ShortenIdempotent(data: seq<Field>)
    ensures ShortenToolResult(ShortenToolResult(data)) == ShortenToolResult(data)
  {
    var once := ShortenToolResult(data);
    match Get(data, "result")
    case Some(JList(items)) =>
      if |items| > MaxToolResultsToShow {
        assert Get(once, "result") == Some(JList(items[..MaxToolResultsToShow]));
      }
    case _ =>
  }

  // ---------------------------------------------------------------- entries, routing and the logger

  /** One queued log entry: the fixed keys plus the keyword arguments (`data`, `error`, `stack_trace`, …). */
  datatype LogEntry = LogEntry(timestamp: string, level: Level, agent: string, chatId: string, message: string,
                               extras: seq<Field>)

  /** What the worker does with an entry. */
  datatype Destination = Console | ChatFile(name: string) | DailyFile | JsonFile | Dropped

  /**
    The entry `log` builds: the keyword arguments are kept, and an ERROR
    entry without a `stack_trace` gets the current traceback (`trace`).
   */
  function NewEntry(now: string, level: Level, agent: string, chatId: string, message: string,
                    kwargs: seq<Field>, trace: string): (e: LogEntry)
    ensures e.timestamp == now && e.level == level && e.agent == agent && e.chatId == chatId && e.message == message
    ensures level == Error ==> HasKey(e.extras, "stack_trace")
    ensures HasKey(kwargs, "stack_trace") || level != Error ==> e.extras == kwargs
    ensures level == Error && !HasKey(kwargs, "stack_trace") ==>
      Get(e.extras, "stack_trace") == Some(JStr(trace)) && forall k :: k != "stack_trace" ==> Get(e.extras, k) == Get(kwargs, k)
  {
    if level == Error && !HasKey(kwargs, "stack_trace") then
      var extras := Set(kwargs, "stack_trace", JStr(trace));
      forall k ensures Get(extras, k) == if k == "stack_trace" then Some(JStr(trace)) else Get(kwargs, k) {
        GetSet(kwargs, "stack_trace", JStr(trace), k);
      }
      LogEntry(now, level, agent, chatId, message, extras)
    else
      LogEntry(now, level, agent, chatId, message, kwargs)
  }

  /** What the queue holds: entries, and the `None` that `close` puts to stop the worker. */
  datatype Queued = Entry(entry: LogEntry) | Shutdown

  class ChatLogger {
    const maxResultLength: int
    const toggleLogging: bool
    var verbose: bool
    var outputMode: Output
    var consoleFilter: set<string>
    /** `log_queue`, which is None when logging is switched off. */
    var queue: Option<seq<Queued>>

    ghost predicate Valid()
      reads this
    {
      queue.Some? <==> toggleLogging
    }

    constructor(maxResultLength: int, toggleLogging: bool, verbose: bool, outputMode: Output,
                consoleFilter: Option<set<string>>)
      ensures Valid()
      ensures this.maxResultLength == maxResultLength && this.toggleLogging == toggleLogging
      ensures this.verbose == verbose && this.outputMode == outputMode
      ensures this.consoleFilter == consoleFilter.GetOr({})
      ensures queue == if toggleLogging then Some([]) else None
    {
      this.maxResultLength := maxResultLength;
      this.toggleLogging := toggleLogging;
      this.verbose := verbose;
      this.outputMode := outputMode;
      this.consoleFilter := consoleFilter.GetOr({});
      queue := if toggleLogging then Some([]) else None;
    }

    /**
      `_handle_log_entry`: where the current output mode sends an entry. Only
      the filtered console mode drops entries, those of chats outside the filter.
     */
    function Route(entry: LogEntry): (d: Destination)
      reads this
      ensures outputMode == ConsoleFiltered ==> (d == Console <==> entry.chatId in consoleFilter)
      ensures d == Dropped <==> outputMode == ConsoleFiltered && entry.chatId !in consoleFilter
      ensures d.ChatFile? <==> outputMode == FilesSeparate
      ensures d.ChatFile? ==> d.name == ChatLogFileName(entry.chatId)
    {
      match outputMode
      case ConsoleAll => Console
      case ConsoleFiltered => if entry.chatId in consoleFilter then Console else Dropped
      case FilesSeparate => ChatFile(ChatLogFileName(entry.chatId))
      case FilesDaily => DailyFile
      case StructuredJson => JsonFile
    }

    /** `log`: nothing when logging is off; otherwise exactly one new entry at the end of the queue. */
    method Log(now: string, level: Level, agent: string, chatId: string, message: string,
               kwargs: seq<Field>, trace: string)
      requires Valid()
      modifies this
      ensures Valid()
      ensures verbose == old(verbose) && outputMode == old(outputMode) && consoleFilter == old(consoleFilter)
      ensures !toggleLogging ==> queue == old(queue)
      ensures toggleLogging ==> queue == Some(old(queue).value + [Entry(NewEntry(now, level, agent, chatId, message, kwargs, trace))])
    {
      if !toggleLogging {
        return;
      }
      var entry := NewEntry(now, level, agent, chatId, message, kwargs, trace);
      queue := Some(queue.value + [Entry(entry)]);
    }

    method AddConsoleFilter(chatId: string)
      modifies this
      ensures consoleFilter == old(consoleFilter) + {chatId}
      ensures verbose == old(verbose) && outputMode == old(outputMode) && queue == old(queue)
    {
      consoleFilter := consoleFilter + {chatId};
    }

    /** `discard`: removing an id that is not in the filter leaves the filter as it was. */
    method RemoveConsoleFilter(chatId: string)
      modifies this
      ensures consoleFilter == old(consoleFilter) - {chatId}
      ensures chatId !in old(consoleFilter) ==> consoleFilter == old(consoleFilter)
      ensures verbose == old(verbose) && outputMode == old(outputMode) && queue == old(queue)
    {
      consoleFilter := consoleFilter - {chatId};
    }

    method SetOutputMode(mode: Output)
      modifies this
      ensures outputMode == mode
      ensures verbose == old(verbose) && consoleFilter == old(consoleFilter) && queue == old(queue)
    {
      outputMode := mode;
    }

    /** `close`: the shutdown marker goes on the queue after every entry logged so far. */
    method Close()
      requires Valid()
      modifies this
      ensures Valid()
      ensures verbose == old(verbose) && outputMode == old(outputMode) && consoleFilter == old(consoleFilter)
      ensures queue == if toggleLogging then Some(old(queue).value + [Shutdown]) else old(queue)
    {
      if toggleLogging {
        queue := Some(queue.value + [Shutdown]);
      }
    }
  }
}
