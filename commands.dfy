/** commands.go: a command value and the registry that maps command names to
    handlers. Handlers are named by `HandlerId`; what a handler does when it is
    called is supplied by the caller of `Run` as a function from the handler and
    the command to the handler's error result (None is Go's nil). */
module Commands {
  import opened Wrappers
  import FxClient

  datatype Command = Command(name: string, args: seq<string>)

  /** The handler functions that the interactive shell registers. */
  datatype HandlerId =
    | Help | Login | Register | Reset | Users | Testing
    | FxFetchAll | FxFetchRange
    | StockFetchPrice | StockFetchPriceAll | StockFetchProfile | StockFetchProfileAll

  /** The errors the core produces, one constructor per distinct error site. */
  datatype Error =
    | CommandNotFound
    | Usage(command: string)
    | FxBaseUrlMissing
    | InvalidCurrencyCode(code: string)
    | StartDateInvalid(text: string)
    | EndDateInvalid(text: string)
    | EndBeforeStart
    | FxFetchFailed(cause: FxClient.ClientError)
    | FxDateInvalid(text: string)
    | PageRequestFailed(url: string)
    | PageStatus(status: int, url: string)
    | PageParseFailed(url: string)
    | PriceNotFound(url: string)
    | PriceParseFailed(text: string)
    | PriceStoreFailed(code: string)
    | CompanyNameMissing(code: string, url: string)
    | ProfileStoreFailed(code: string)

  class Registry {
    var handlers: map<string, HandlerId>

    constructor ()
      ensures handlers == map[]
    {
      handlers := map[];
    }

    /** `register`: binds `name` to `h`, silently replacing an earlier binding
        and leaving every other name as it was. */
    method Register(name: string, h: HandlerId)
      modifies this
      ensures handlers == old(handlers)[name := h]
      ensures forall n :: n != name && n in old(handlers) ==> n in handlers && handlers[n] == old(handlers)[n]
    {
      handlers := handlers[name := h];
    }

    /** `run`: looks the name up exactly as given (case and white space
        included). A registered name calls its handler once and returns exactly
        the handler's result; any other name calls nothing and fails with
        "command not found". `invoked` records the handler called, if any.
        Run changes nothing: it has no modifies clause. */
    method Run(cmd: Command, call: (HandlerId, Command) -> Option<Error>)
      returns (err: Option<Error>, invoked: Option<HandlerId>)
      ensures cmd.name in handlers ==> invoked == Some(handlers[cmd.name]) && err == call(handlers[cmd.name], cmd)
      ensures cmd.name !in handlers ==> invoked == None && err == Some(CommandNotFound)
    {
      if cmd.name in handlers {
        var f := handlers[cmd.name];
        invoked := Some(f);
        err := call(f, cmd);
      } else {
        invoked := None;
        err := Some(CommandNotFound);
      }
    }
  }
}
