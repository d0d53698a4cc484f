/** The access check every incoming update passes through (bot/middlewares.py). */
module Middlewares {
  import opened Wrappers

  datatype User = User(id: int)

  /** The kinds of update the middleware distinguishes. */
  datatype TelegramEvent =
    | Message(fromUser: Option<User>)
    | CallbackQuery(fromUser: Option<User>)
    | OtherUpdate

  /** The sender's id: from from_user for messages and callback queries,
      absent otherwise. */
  function UserIdOf(e: TelegramEvent): (r: Option<int>)
    ensures r.Some? <==> !e.OtherUpdate? && e.fromUser.Some?
    ensures r.Some? ==> r.value == e.fromUser.value.id
  {
    match e
    case Message(u) => if u.Some? then Some(u.value.id) else None
    case CallbackQuery(u) => if u.Some? then Some(u.value.id) else None
    case OtherUpdate => None
  }

  datatype Decision = Forward | IgnoreNoUser | IgnoreNotAllowed(userId: int)

  function Decide(e: TelegramEvent, allowed: set<int>): (d: Decision)
    ensures d == Forward <==> UserIdOf(e).Some? && UserIdOf(e).value in allowed
    ensures d == IgnoreNoUser <==> UserIdOf(e).None?
  {
    match UserIdOf(e)
    case None => IgnoreNoUser
    case Some(id) => if id in allowed then Forward else IgnoreNotAllowed(id)
  }

  /** AccessMiddleware.__call__: None when the handler is not run; otherwise
      the handler's own result for the unchanged event and data. */
  function AccessMiddleware<D, R>(
    handler: (TelegramEvent, D) -> R, event: TelegramEvent, data: D, allowed: set<int>): (r: Option<R>)
    ensures r.Some? <==> UserIdOf(event).Some? && UserIdOf(event).value in allowed
    ensures r.Some? ==> r.value == handler(event, data)
  {
    if Decide(event, allowed) == Forward then Some(handler(event, data)) else None
  }
}
