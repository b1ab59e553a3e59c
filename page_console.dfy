/**
 * `hookPageConsole` (src/hook-page-console.ts): each console message of the
 * page is printed through the matching function of the local console.
 */
module PageConsole {
  import opened Results

  /** The local console functions the table refers to. */
  datatype ConsoleFn =
    | Log | Warn | Error | Info | Assert | Debug | Trace | Dir | Dirxml
    | Profile | ProfileEnd | Group | GroupCollapsed | GroupEnd | Table | Count | TimeEnd

  /** `messageTypeToConsoleFn`, keyed by the page's message type; `clear` is left out on purpose. */
  const MessageTypeToConsoleFn: map<string, ConsoleFn> := map[
    "log" := Log,
    "warning" := Warn,
    "error" := Error,
    "info" := Info,
    "assert" := Assert,
    "debug" := Debug,
    "trace" := Trace,
    "dir" := Dir,
    "dirxml" := Dirxml,
    "profile" := Profile,
    "profileEnd" := ProfileEnd,
    "startGroup" := Group,
    "startGroupCollapsed" := GroupCollapsed,
    "endGroup" := GroupEnd,
    "table" := Table,
    "count" := Count,
    "timeEnd" := TimeEnd
  ]

  /** A console message of the page: its type and handles to its arguments. */
  datatype ConsoleMessage<H> = ConsoleMessage(kind: string, args: seq<H>)

  /** One call of a local console function. */
  datatype ConsoleCall<V> = ConsoleCall(fn: ConsoleFn, args: seq<V>)

  /**
   * What handling one message amounts to: nothing, one print, or a rejected
   * promise (some argument's value could not be fetched) that nobody awaits.
   */
  datatype Delivery<V> = Dropped | Printed(call: ConsoleCall<V>) | Unhandled

  /** `Promise.all(msg.args().map(arg => arg.jsonValue()))`; `None` when some fetch rejects. */
  function JsonValues<H, V>(args: seq<H>, jsonValue: H -> Option<V>): (values: Option<seq<V>>)
    ensures values.Some? <==> forall i :: 0 <= i < |args| ==> jsonValue(args[i]).Some?
    ensures values.Some? ==> |values.value| == |args|
    ensures values.Some? ==> forall i :: 0 <= i < |args| ==> values.value[i] == jsonValue(args[i]).value
  {
    if args == [] then Some([])
    else
      match (jsonValue(args[0]), JsonValues(args[1..], jsonValue))
      case (Some(v), Some(vs)) => Some([v] + vs)
      case _ => None
  }

  /** The `console` handler: look the type up, fetch the argument values, print them. */
  function Dispatch<H, V>(msg: ConsoleMessage<H>, jsonValue: H -> Option<V>): (d: Delivery<V>)
    ensures d.Dropped? <==> msg.kind !in MessageTypeToConsoleFn
    ensures d.Unhandled? <==> msg.kind in MessageTypeToConsoleFn && exists i :: 0 <= i < |msg.args| && jsonValue(msg.args[i]).None?
    ensures d.Printed? <==> msg.kind in MessageTypeToConsoleFn && forall i :: 0 <= i < |msg.args| ==> jsonValue(msg.args[i]).Some?
    ensures d.Printed? ==> d.call.fn == MessageTypeToConsoleFn[msg.kind] && |d.call.args| == |msg.args|
    ensures d.Printed? ==> forall i :: 0 <= i < |msg.args| ==> d.call.args[i] == jsonValue(msg.args[i]).value
  {
    if msg.kind !in MessageTypeToConsoleFn then Dropped
    else
      match JsonValues(msg.args, jsonValue)
      case None => Unhandled
      case Some(values) => Printed(ConsoleCall(MessageTypeToConsoleFn[msg.kind], values))
  }

  /** The table maps each page type to its own `console` property, and `clear` to none. */
  lemma TableShape()
    ensures "clear" !in MessageTypeToConsoleFn
    ensures MessageTypeToConsoleFn["log"] == Log && MessageTypeToConsoleFn["warning"] == Warn
    ensures MessageTypeToConsoleFn["error"] == Error
    ensures MessageTypeToConsoleFn["startGroup"] == Group && MessageTypeToConsoleFn["startGroupCollapsed"] == GroupCollapsed
    ensures MessageTypeToConsoleFn["endGroup"] == GroupEnd
    ensures forall a, b :: a in MessageTypeToConsoleFn && b in MessageTypeToConsoleFn && a != b ==>
                             MessageTypeToConsoleFn[a] != MessageTypeToConsoleFn[b]
  {
  }

  /** The page can never clear the terminal: a `clear` message is dropped whatever its arguments. */
  lemma ClearIsDropped<H, V>(args: seq<H>, jsonValue: H -> Option<V>)
    ensures Dispatch(ConsoleMessage("clear", args), jsonValue) == Dropped
  {
    TableShape();
  }

  /** The local console, as far as the relay writes to it. */
  class NodeConsole<V> {
    var calls: seq<ConsoleCall<V>>

    constructor ()
      ensures calls == []
    {
      calls := [];
    }

    /** One `console` event: at most one call is made, with the message's argument values in order. */
    method OnConsole<H>(msg: ConsoleMessage<H>, jsonValue: H -> Option<V>) returns (d: Delivery<V>)
      modifies this
      ensures d == Dispatch(msg, jsonValue)
      ensures calls == old(calls) + (if d.Printed? then [d.call] else [])
    {
      if msg.kind in MessageTypeToConsoleFn {
        var consoleFn := MessageTypeToConsoleFn[msg.kind];
        var msgArgs := JsonValues(msg.args, jsonValue);
        if msgArgs.None? {
          return Unhandled;
        }
        calls := calls + [ConsoleCall(consoleFn, msgArgs.value)];
        return Printed(ConsoleCall(consoleFn, msgArgs.value));
      }
      return Dropped;
    }
  }
}
