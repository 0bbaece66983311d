/**
 * The command registry of the CLI: a table from command names to handlers.
 * Registering a name inserts or overwrites its handler; running a command
 * dispatches on its name and hands back whatever the handler hands back.
 */
module Commands {
  import opened Wrappers

  /** A command as typed on the command line: its name and its arguments. */
  datatype Command = Command(name: string, args: seq<string>)

  /** A Go `error` value, identified by its message. */
  datatype Error = Error(msg: string)

  /** The error the registry reports for a name with no handler. */
  const NotInMap := Error("error: command not in map")

  /**
   * What running a handler leaves behind: the application state it
   * produced and the error it returned (None stands for Go's nil).
   */
  datatype Outcome<S> = Outcome(state: S, err: Option<Error>)

  /**
   * A handler receives the application state and the command. Its effect
   * on the state is abstract; it is whatever the handler returns.
   */
  type Handler<!S> = (S, Command) -> Outcome<S>

  class Commands<S> {
    var commandsMap: map<string, Handler<S>>

    /** An empty registry, as the program creates before registering anything. */
    constructor ()
      ensures commandsMap == map[]
    {
      commandsMap := map[];
    }

    /**
     * Dispatches `cmd` by its name. An unknown name is an error and runs no
     * handler, so the state is handed back untouched; a known name returns
     * exactly what its handler returns.
     */
    function Run(s: S, cmd: Command): (r: Outcome<S>)
      reads this
      ensures cmd.name !in commandsMap ==> r == Outcome(s, Some(NotInMap))
      ensures cmd.name in commandsMap ==> r == commandsMap[cmd.name](s, cmd)
    {
      if cmd.name !in commandsMap then
        Outcome(s, Some(NotInMap))
      else
        var out := commandsMap[cmd.name](s, cmd);
        if out.err.Some? then Outcome(out.state, out.err) else Outcome(out.state, None)
    }

    /**
     * Binds `name` to `f`, replacing any earlier binding; every other name
     * keeps its handler.
     */
    method Register(name: string, f: Handler<S>)
      modifies this
      ensures commandsMap == old(commandsMap)[name := f]
      ensures name in commandsMap && commandsMap[name] == f
      ensures commandsMap.Keys == old(commandsMap).Keys + {name}
      ensures forall other :: other != name && other in old(commandsMap) ==> commandsMap[other] == old(commandsMap)[other]
      ensures forall s: S, cmd: Command :: cmd.name == name ==> Run(s, cmd) == f(s, cmd)
      ensures forall s: S, cmd: Command :: cmd.name != name && cmd.name in old(commandsMap) ==>
                Run(s, cmd) == old(commandsMap)[cmd.name](s, cmd)
      ensures forall s: S, cmd: Command :: cmd.name != name && cmd.name !in old(commandsMap) ==>
                Run(s, cmd) == Outcome(s, Some(NotInMap))
    {
      commandsMap := commandsMap[name := f];
    }
  }
}
