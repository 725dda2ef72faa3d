/** The agent's generic command dispatcher: a table from upper-cased command type to
    handler, with an echo reply for types that have no handler. The dispatcher is
    generic in the handler type `H`; running a handler is left to the caller. */
module Dispatcher {
  import opened Common
  import opened PyValue

  datatype Dispatcher<H> = Dispatcher(routes: map<string, H>)

  /** What `handle` does with a command: call a handler on the unmodified command,
      or answer with an echo reply. */
  datatype Decision<H> = Invoke(handler: H, command: Option<Entries>) | Echo(reply: Entries)

  function Empty<H>(): (d: Dispatcher<H>)
    ensures d.routes == map[]
  {
    Dispatcher(map[])
  }

  /** The handler registered for a tag, looked up the way `route` stored it. */
  function Find<H>(d: Dispatcher<H>, tag: string): Option<H> {
    var key := Upper(tag);
    if key in d.routes then Some(d.routes[key]) else None
  }

  /** `route(cmd_type)(fn)`: registers `h` under the upper-cased tag. Afterwards every
      spelling of that tag finds `h`, and every other tag finds what it found before. */
  function Route<H>(d: Dispatcher<H>, cmdType: string, h: H): (r: Dispatcher<H>)
    ensures forall tag :: Upper(tag) == Upper(cmdType) ==> Find(r, tag) == Some(h)
    ensures forall tag :: Upper(tag) != Upper(cmdType) ==> Find(r, tag) == Find(d, tag)
    ensures r.routes.Keys == d.routes.Keys + {Upper(cmdType)}
  {
    Dispatcher(d.routes[Upper(cmdType) := h])
  }

  /** `(cmd or {}).get("type", "")`: a missing or empty command has type "". */
  function CommandType(cmd: Option<Entries>): (t: Value)
    ensures cmd.None? || cmd.value == [] ==> t == Str("")
    ensures cmd.Some? && HasKey(cmd.value, "type") ==> Some(t) == Lookup(cmd.value, "type")
  {
    match cmd
    case None => Str("")
    case Some(e) => GetOr(e, "type", Str(""))
  }

  /** `handle(cmd)`: looks the type up case-insensitively (after `str()`); with a handler,
      that handler gets the command exactly as passed; without one, the reply is
      `{"echo": t}` for a truthy type `t` and `{"echo": "UNKNOWN"}` otherwise. */
  function Handle<H>(d: Dispatcher<H>, cmd: Option<Entries>): (r: Decision<H>)
    ensures var t := CommandType(cmd);
      && (r.Invoke? <==> Find(d, PyStr(t)).Some?)
      && (r.Invoke? ==> r == Invoke(Find(d, PyStr(t)).value, cmd))
      && (r.Echo? && Truthy(t) ==> r.reply == [("echo", t)])
      && (r.Echo? && !Truthy(t) ==> r.reply == [("echo", Str("UNKNOWN"))])
  {
    var t := CommandType(cmd);
    match Find(d, PyStr(t))
    case Some(h) => Invoke(h, cmd)
    case None => Echo([("echo", Or(t, Str("UNKNOWN")))])
  }

  /** `handle(cmd)` including the handler call: the handler's own result, unmodified. */
  function Dispatch<H>(d: Dispatcher<H>, cmd: Option<Entries>, run: (H, Option<Entries>) -> Entries): (r: Entries)
    ensures Handle(d, cmd).Invoke? ==> r == run(Handle(d, cmd).handler, cmd)
    ensures Handle(d, cmd).Echo? ==> r == Handle(d, cmd).reply
  {
    match Handle(d, cmd)
    case Invoke(h, c) => run(h, c)
    case Echo(reply) => reply
  }

  /** A command whose type is any spelling of a registered tag reaches that tag's handler. */
  lemma RoutedAnyCase<H>(d: Dispatcher<H>, registered: string, h: H, sent: string, rest: Entries)
    requires Upper(sent) == Upper(registered)
    ensures Handle(Route(d, registered, h), Some([("type", Str(sent))] + rest))
         == Invoke(h, Some([("type", Str(sent))] + rest))
  {
  }

  /** Registering the same tag again, in any spelling, replaces the earlier handler. */
  lemma ReRouteReplaces<H>(d: Dispatcher<H>, t1: string, h1: H, t2: string, h2: H)
    requires Upper(t1) == Upper(t2)
    ensures Route(Route(d, t1, h1), t2, h2) == Route(d, t2, h2)
  {
  }

  /** A missing command and an empty one are both handled as the type "". */
  lemma MissingCommandIsEmptyType<H>(d: Dispatcher<H>)
    ensures Handle(d, None).Echo? ==> Handle(d, None) == Handle(d, Some([("type", Str(""))]))
    ensures Handle(d, Some([])).Echo? ==> Handle(d, Some([])) == Handle(d, Some([("type", Str(""))]))
    ensures Handle(d, None).Invoke? <==> Handle(d, Some([("type", Str(""))])).Invoke?
  {
  }

  /** With no handler for the tag, an unknown command is acknowledged with its own
      spelling, not upper-cased. */
  lemma UnknownEchoesOriginal<H>(d: Dispatcher<H>, tag: string)
    requires tag != [] && Find(d, tag).None?
    ensures Handle(d, Some([("type", Str(tag))])) == Echo([("echo", Str(tag))])
  {
  }

  /** A worked example of `UnknownEchoesOriginal`: on an empty dispatcher, the
      unknown tag "FROBNICATE" comes back as its echo. */
  lemma EchoFrobnicate()
    ensures Handle(Empty<int>(), Some([("type", Str("FROBNICATE"))])) == Echo([("echo", Str("FROBNICATE"))])
  {
  }
}
