/** What every handler and page shares: roles, the session, the JSON
    response, the outcome of the WhatsApp gateway call, and the banner
    notification of the client pages. */
module Http {
  import opened Js

  datatype Role = USER | ADMIN | SUPERADMIN

  /** `Object.values(Role)`, in declaration order. */
  const AllRoles: seq<Role> := [USER, ADMIN, SUPERADMIN]

  /** The signed-in user as the session reports it. */
  datatype Session = Session(userId: nat, role: Role)

  /** `res.status(status).json({ message, <data> })`; `data` is absent when
      the handler answers with a message only. */
  datatype Response<T> = Response(status: nat, message: string, data: Option<T>)

  /** The 405 answer every handler gives to a method other than POST. */
  function MethodNotAllowed<T>(httpMethod: string): (r: Response<T>)
    ensures r.status == 405 && r.data.None?
  {
    Response(405, httpMethod + " method is not allowed.", None)
  }

  /** What the WhatsApp gateway answered: `res.ok` or not. A network failure
      is a `Rejected` call too, since the handlers catch it the same way. */
  datatype Delivery = Delivered | Rejected

  datatype NotificationKind = Blank | Success | Failure

  /** The page banner `{ message, type }`; `type` is "", "success" or "error". */
  datatype Notification = Notification(message: string, kind: NotificationKind)

  const NotificationInitial := Notification("", Blank)

  /** What a page's `fetch` comes back with: the status and the `message`
      of the JSON body. A request that throws before an answer is a reply
      that is not ok, carrying the error's message. */
  datatype Reply = Reply(status: nat, message: string)

  /** `response.ok` */
  predicate Ok(r: Reply) { 200 <= r.status <= 299 }

  /** What `getServerSideProps` comes to: a redirect, the page's props, or
      an exception, for which the framework renders its error page. */
  datatype PageResult<P> = Redirect(destination: string) | Props(props: P) | Thrown
}
