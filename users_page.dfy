/** The "Novo Usuário" page: the completeness check of the form, the role
    options offered by the select, the submit handler's state changes, and
    the server-side props that keep signed-out users and plain users away. */
module UsersPage {
  import opened Js
  import opened Http
  import opened Store
  import opened Schema

  datatype UserForm = UserForm(name: string, email: string, role: string)

  const InitialUserForm := UserForm("", "", "")

  const FillInMessage := "Preencha as informações."

  /** `Object.values(form).every((entry) => entry.trim().length > 0)` */
  predicate FormComplete(form: UserForm) {
    |Trim(form.name)| > 0 && |Trim(form.email)| > 0 && |Trim(form.role)| > 0
  }

  /** The form is complete exactly when no field is blank. */
  lemma FormCompleteIffNoBlankField(form: UserForm)
    ensures FormComplete(form) <==>
      !AllWhitespace(form.name) && !AllWhitespace(form.email) && !AllWhitespace(form.role)
  {
    TrimEmptyIffBlank(form.name);
    TrimEmptyIffBlank(form.email);
    TrimEmptyIffBlank(form.role);
  }

  /** The options of the role select, in the order of `roles`: SUPERADMIN
      only for a SUPERADMIN, every other role for everyone. */
  function RoleOptions(actor: Role, roles: seq<Role>): (r: seq<Role>)
    ensures forall x :: x in r <==> x in roles && (x != SUPERADMIN || actor == SUPERADMIN)
    ensures |r| <= |roles|
    decreases |roles|
  {
    if roles == [] then []
    else if roles[0] == SUPERADMIN && actor != SUPERADMIN then RoleOptions(actor, roles[1..])
    else [roles[0]] + RoleOptions(actor, roles[1..])
  }

  /** The select shows every role to a SUPERADMIN and USER and ADMIN to
      anyone else. */
  lemma RoleOptionsOfAllRoles(actor: Role)
    ensures RoleOptions(actor, AllRoles) == if actor == SUPERADMIN then AllRoles else [USER, ADMIN]
  {
    assert AllRoles[1..][1..][1..] == [];
  }

  /** The page component's state. */
  class UserCreatePage {
    var form: UserForm
    var notification: Notification
    var isLoading: bool

    constructor ()
      ensures form == InitialUserForm && notification == NotificationInitial && !isLoading
    {
      form := InitialUserForm;
      notification := NotificationInitial;
      isLoading := false;
    }

    /** `handleSubmit`: a complete form is posted as it is; `reply` is the
        answer to the POST, if one is sent. */
    method HandleSubmit(reply: Reply) returns (posted: Option<UserForm>)
      modifies this
      ensures !isLoading
      ensures !FormComplete(old(form)) ==>
        posted.None? && notification == Notification(FillInMessage, Failure) && form == old(form)
      ensures FormComplete(old(form)) && Ok(reply) ==>
        posted == Some(old(form)) && notification == Notification(reply.message, Success) && form == InitialUserForm
      ensures FormComplete(old(form)) && !Ok(reply) ==>
        posted == Some(old(form)) && notification == Notification(reply.message, Failure) && form == old(form)
    {
      if FormComplete(form) {
        notification := NotificationInitial;
        isLoading := true;
        posted := Some(form);
        if !Ok(reply) {
          // `throw new Error(error.message)`, caught below.
          notification := Notification(reply.message, Failure);
          isLoading := false;
          return;
        }
        notification := Notification(reply.message, Success);
        form := InitialUserForm;
        isLoading := false;
      } else {
        posted := None;
        notification := Notification(FillInMessage, Failure);
        isLoading := false;
      }
    }
  }

  /** The `authUser` prop. */
  datatype UserInfo = UserInfo(id: nat, name: string, email: string, role: Role, is_enabled: bool)

  /** Where a USER is sent, with the notification "Usuário não tem
      permissão" of type "error" in the query. */
  const NoPermission := "/?notificationMessage=Usu%C3%A1rio%20n%C3%A3o%20tem%20permiss%C3%A3o&notificationType=error"

  /** `getServerSideProps`: the role comes from the stored user, not from the
      session; a session whose user is gone makes `authUser.role` throw. */
  function UserPageProps(session: Option<Session>, users: seq<Entry<UserRow>>): (r: PageResult<UserInfo>)
    ensures session.None? <==> r == Redirect("/login")
    ensures session.Some? && FindIn(users, session.value.userId).None? ==> r.Thrown?
    ensures session.Some? && FindIn(users, session.value.userId).Some? ==>
      var u := FindIn(users, session.value.userId).value;
      if u.role == USER then r == Redirect(NoPermission)
      else r.Props? && r.props == UserInfo(session.value.userId, u.name, u.email, u.role, u.is_enabled)
    ensures r.Props? ==>
      && r.props.role != USER
      && Entry(r.props.id, UserRow(r.props.name, r.props.email, r.props.role, r.props.is_enabled)) in users
  {
    if session.None? then Redirect("/login")
    else
      match FindIn(users, session.value.userId)
      case None => Thrown
      case Some(u) =>
        if u.role == USER then Redirect(NoPermission)
        else Props(UserInfo(session.value.userId, u.name, u.email, u.role, u.is_enabled))
  }

  /** A page that renders offers SUPERADMIN exactly to a stored SUPERADMIN,
      and ADMIN and USER always. */
  lemma RenderedPageOffersRoles(session: Option<Session>, users: seq<Entry<UserRow>>)
    requires UserPageProps(session, users).Props?
    ensures var u := UserPageProps(session, users).props;
      && (SUPERADMIN in RoleOptions(u.role, AllRoles) <==> u.role == SUPERADMIN)
      && ADMIN in RoleOptions(u.role, AllRoles) && USER in RoleOptions(u.role, AllRoles)
  {
    var u := UserPageProps(session, users).props;
    RoleOptionsOfAllRoles(u.role);
  }
}
