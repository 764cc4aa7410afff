/** The FastAPI integration's module-level registry: toolkit name to
    `ToolKitClient`. */
module ClientRegistry {

  import opened Wrappers

  /** The global `clients`: a dict, or `None` once something has replaced it
      with a non-dict value. */
  type Clients<C> = Option<map<string, C>>

  /** `init_registry`: keep a dict as it is, replace anything else by `{}`. */
  function Init<C>(clients: Clients<C>): (r: Clients<C>)
    ensures r.Some?
    ensures clients.Some? ==> r == clients
  {
    if clients.None? then Some(map[]) else clients
  }

  /** `register_client`: item assignment, which raises on a non-dict. */
  function Register<C>(clients: Clients<C>, name: string, client: C): Result<Clients<C>, string> {
    match clients
    case None => Failure("'NoneType' object does not support item assignment")
    case Some(m) => Success(Some(m[name := client]))
  }

  /** `get_client`: `clients.get(name)`. */
  function Get<C>(clients: Clients<C>, name: string): Result<Option<C>, string> {
    match clients
    case None => Failure("'NoneType' object has no attribute 'get'")
    case Some(m) => Success(if name in m then Some(m[name]) else None)
  }

  /** Initialising twice is initialising once, and an initialised registry
      keeps every client it held. */
  lemma InitIdempotent<C>(clients: Clients<C>, name: string)
    ensures Init(Init(clients)) == Init(clients)
    ensures Get(clients, name).Success? ==> Get(Init(clients), name) == Get(clients, name)
  {
  }

  /** After registering `client` under `name`, `get_client(name)` returns
      it, and every other name looks up what it did before. */
  lemma GetAfterRegister<C>(clients: Clients<C>, name: string, other: string, client: C)
    requires clients.Some?
    ensures Register(clients, name, client).Success?
    ensures Get(Register(clients, name, client).value, name) == Success(Some(client))
    ensures other != name ==> Get(Register(clients, name, client).value, other) == Get(clients, other)
  {
  }

  /** Registering a name again replaces the earlier client. */
  lemma RegisterReplaces<C>(clients: Clients<C>, name: string, first: C, second: C)
    requires clients.Some?
    ensures Register(Register(clients, name, first).value, name, second) == Register(clients, name, second)
  {
    assert clients.value[name := first][name := second] == clients.value[name := second];
  }

  /** A run of `register_client` calls, in order; the first that raises
      ends the run. */
  function RegisterEach<C>(clients: Clients<C>, regs: seq<(string, C)>): Result<Clients<C>, string>
    decreases |regs|
  {
    if regs == [] then Success(clients)
    else match Register(clients, regs[0].0, regs[0].1)
      case Failure(e) => Failure(e)
      case Success(next) => RegisterEach(next, regs[1..])
  }

  /** Starting from an initialised registry that does not hold `name`, any
      run of registrations under other names succeeds and leaves `name`
      looking up `None`. */
  lemma {:induction false} NeverRegisteredIsNone<C>(clients: Clients<C>, regs: seq<(string, C)>, name: string)
    requires clients.Some? ==> name !in clients.value
    requires forall j :: 0 <= j < |regs| ==> regs[j].0 != name
    ensures RegisterEach(Init(clients), regs).Success?
    ensures Get(RegisterEach(Init(clients), regs).value, name) == Success(None)
    decreases |regs|
  {
    if regs != [] {
      var next := Init(clients).value[regs[0].0 := regs[0].1];
      assert Register(Init(clients), regs[0].0, regs[0].1) == Success(Some(next));
      assert Init(Some(next)) == Some(next);
      NeverRegisteredIsNone(Some(next), regs[1..], name);
    }
  }

  /** The registry as module state. */
  class Registry<C> {
    var clients: Clients<C>

    /** Import time: `clients = {}`. */
    constructor()
      ensures clients == Some(map[])
    {
      clients := Some(map[]);
    }

    method InitRegistry()
      modifies this
      ensures clients == Init(old(clients))
    {
      if clients.None? {
        clients := Some(map[]);
      }
    }

    method RegisterClient(name: string, client: C) returns (error: Option<string>)
      modifies this
      ensures Register(old(clients), name, client).Success? ==>
        clients == Register(old(clients), name, client).value && error.None?
      ensures Register(old(clients), name, client).Failure? ==>
        clients == old(clients) && error == Some(Register(old(clients), name, client).error)
    {
      match clients {
        case None =>
          error := Some("'NoneType' object does not support item assignment");
        case Some(m) =>
          clients := Some(m[name := client]);
          error := None;
      }
    }

    method GetClient(name: string) returns (r: Result<Option<C>, string>)
      ensures r == Get(clients, name)
    {
      match clients {
        case None => r := Failure("'NoneType' object has no attribute 'get'");
        case Some(m) => r := Success(if name in m then Some(m[name]) else None);
      }
    }
  }
}
