/** The messages exchanged between a worker thread and the GUI thread:
    `TsMessage` (thread_support/messages/base.py), `HelloMessage`
    (thread_support/messages/hello.py) and `HttpMessage` (http_server/message.py).

    Dafny has no subclassing, so the message classes of the source are one
    class whose constant `kind` says which class a message belongs to. */
module Messages {
  import opened Wrappers

  /** What a message's `on_gui_side` returns. The classes of the core all
      return `None` (`NoDirective`); an application subclass may override the
      hook and return `ADD_TO_QUEUE` or `DONT_ADD_TO_QUEUE`. */
  datatype Directive = NoDirective | AddToQueue | DontAddToQueue

  /** The class of a message: the base class, `HelloMessage`, `HttpMessage`,
      or an application subclass (of the base class, or of `HttpMessage`
      when `http` is set) whose `on_gui_side` returns `directive`. */
  datatype Kind = Plain | Hello | Http | Custom(directive: Directive, http: bool)

  /** What `on_gui_side` returns for a message of kind `k`: only a message
      of an application subclass can tell the server to queue it or not. */
  function GuiDirective(k: Kind): (d: Directive)
    ensures d != NoDirective ==> k.Custom? && k.directive == d
  {
    if k.Custom? then k.directive else NoDirective
  }

  /** `isinstance(message, HttpMessage)`. */
  predicate IsHttpKind(k: Kind) {
    k.Http? || (k.Custom? && k.http)
  }

  /** The TRACE records the two hooks write to the module logger. */
  datatype Record =
    | SentFromThread(messageId: nat)   // "Message %r is being send from thread side"
    | ReceivedOnGui(messageId: nat)    // "Message %r has been received on GUI side"

  /** The module-level logger, reduced to the records the hooks write. */
  class Log {
    var records: seq<Record>

    constructor ()
      ensures records == []
    {
      records := [];
    }
  }

  /** The module-level counter `_message_id_gen`, which starts at 1. */
  class IdGenerator {
    var next: nat

    constructor ()
      ensures next == 1
    {
      next := 1;
    }
  }

  /** The two result fields `HttpMessage.__init__` adds. */
  datatype HttpResult = HttpResult(resultType: string, resultData: Option<string>)

  /** `result_type` is documented to be either 'Error' or 'OK'. */
  predicate DocumentedResultType(t: string) {
    t == "Error" || t == "OK"
  }

  class TsMessage {
    const kind: Kind
    const messageId: nat
    /** `result_type` and `result_data`, present only on an `HttpMessage`. */
    var http: Option<HttpResult>

    /** `TsMessage.__init__`: take the counter's value as the id, then bump it. */
    constructor Plain(gen: IdGenerator)
      modifies gen
      ensures kind == Kind.Plain && http == None
      ensures messageId == old(gen.next) && gen.next == old(gen.next) + 1
    {
      kind := Kind.Plain;
      messageId := gen.next;
      http := None;
      gen.next := gen.next + 1;
    }

    /** `HelloMessage()`: no argument, only the base constructor, so it takes
        exactly one id like any message. */
    constructor Hello(gen: IdGenerator)
      modifies gen
      ensures kind == Kind.Hello && http == None
      ensures messageId == old(gen.next) && gen.next == old(gen.next) + 1
    {
      kind := Kind.Hello;
      messageId := gen.next;
      http := None;
      gen.next := gen.next + 1;
    }

    /** `HttpMessage.__init__`: the base constructor's id first, then
        `result_type = 'Error'` and `result_data = None`. */
    constructor Http(gen: IdGenerator)
      modifies gen
      ensures kind == Kind.Http && http == Some(HttpResult("Error", None))
      ensures DocumentedResultType(http.value.resultType)
      ensures messageId == old(gen.next) && gen.next == old(gen.next) + 1
    {
      kind := Kind.Http;
      messageId := gen.next;
      http := Some(HttpResult("Error", None));
      gen.next := gen.next + 1;
    }

    /** An application subclass; it runs the base constructor, and
        `HttpMessage`'s too when `isHttp` is set. */
    constructor Custom(gen: IdGenerator, directive: Directive, isHttp: bool)
      modifies gen
      ensures kind == Kind.Custom(directive, isHttp)
      ensures http == if isHttp then Some(HttpResult("Error", None)) else None
      ensures messageId == old(gen.next) && gen.next == old(gen.next) + 1
    {
      kind := Kind.Custom(directive, isHttp);
      messageId := gen.next;
      http := if isHttp then Some(HttpResult("Error", None)) else None;
      gen.next := gen.next + 1;
    }

    /** `on_thread_side`: logs and changes nothing else. */
    method OnThreadSide(log: Log)
      modifies log
      ensures log.records == old(log.records) + [SentFromThread(messageId)]
    {
      log.records := log.records + [SentFromThread(messageId)];
    }

    /** `on_gui_side`: logs, changes nothing else, and returns the class's
        directive (`None` for every class of the core). */
    method OnGuiSide(log: Log) returns (d: Directive)
      modifies log
      ensures d == GuiDirective(kind)
      ensures log.records == old(log.records) + [ReceivedOnGui(messageId)]
    {
      log.records := log.records + [ReceivedOnGui(messageId)];
      d := GuiDirective(kind);
    }
  }

  /** Ids handed out by one generator: constructing messages one after the
      other takes the counter's values in order, so ids strictly increase. */
  method ConsecutiveIds(gen: IdGenerator) returns (first: TsMessage, second: TsMessage)
    modifies gen
    ensures fresh(first) && fresh(second)
    ensures first.messageId == old(gen.next) && second.messageId == old(gen.next) + 1
    ensures first.messageId < second.messageId < gen.next
  {
    first := new TsMessage.Plain(gen);
    second := new TsMessage.Hello(gen);
  }
}
