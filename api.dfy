/**
 * The registration handler: build the user, hash the password, validate,
 * insert, schedule the welcome mail, respond. Each failure ends the request
 * with its own response. A run of the handler is recorded as the sequence
 * of steps it takes, ending with the response it writes, together with what
 * the scheduled welcome-mail task logs.
 */
module Api {
  import opened Base
  import opened Validation
  import opened Data

  const WELCOME_TEMPLATE := "user_welcome.tmpl"
  const DUPLICATE_EMAIL_MESSAGE := "a user with this email address already exists"

  /** The decoded request body. */
  datatype Input = Input(name: Bytes, email: Bytes, password: Bytes)

  /** The user as the created response shows it; the password has no exported fields, so it shows nothing. */
  datatype UserView = UserView(name: Bytes, email: Bytes, activated: bool)

  /** The kinds of response the handler writes. */
  datatype Response =
    | ServerError(err: Error)
    | FailedValidation(errors: map<string, string>)
    | Created(user: UserView)

  /** The unit of background work the handler schedules: a mail to `recipient` rendered from `template` with `data`. */
  datatype Task = WelcomeMail(recipient: Bytes, template: string, data: UserView)

  /** The steps of one request, in the order the handler takes them. */
  datatype Step =
    | HashPassword(plaintext: Bytes)
    | Validate
    | InsertUser(args: InsertArgs)
    | Schedule(task: Task)
    | Respond(response: Response)

  /** The steps a request took, and the lines its background task logged. */
  datatype Run = Run(steps: seq<Step>, log: seq<string>)

  /**
   * The handler's dependencies: the user repository, bcrypt, the email
   * pattern and the mailer's `Send(recipient, template, data)`.
   */
  datatype Application = Application(
    users: UserModel,
    bcrypt: Bcrypt,
    matchesEmail: Bytes -> bool,
    send: (Bytes, string, UserView) -> Option<Error>)

  /** The welcome-mail task: it sends the mail and logs the mailer's error, if any. */
  function RunTask(task: Task, send: (Bytes, string, UserView) -> Option<Error>): (log: seq<string>)
    ensures send(task.recipient, task.template, task.data) == None ==> log == []
    ensures send(task.recipient, task.template, task.data) != None ==>
      log == [Text(send(task.recipient, task.template, task.data).value)]
  {
    match send(task.recipient, task.template, task.data)
    case None => []
    case Some(e) => [Text(e)]
  }

  /** The validation errors of the user built from `input` once its password is set. */
  function InputErrors(app: Application, input: Input): map<string, string> {
    ApplyChecks(map[], UserChecks(input.name, input.email, Some(input.password), app.matchesEmail))
  }

  /** What one request to the registration handler does. */
  function Registration(app: Application, input: Input): Run {
    match app.bcrypt.generate(input.password, BCRYPT_COST)
    case HashFailed(e) =>
      Run([HashPassword(input.password), Respond(ServerError(e))], [])
    case Hashed(h) =>
      var errors := InputErrors(app, input);
      if errors != map[] then
        Run([HashPassword(input.password), Validate, Respond(FailedValidation(errors))], [])
      else
        var args := InsertArgs(input.name, input.email, Some(h), false);
        var inserted := [HashPassword(input.password), Validate, InsertUser(args)];
        match InsertError(app.users.db.insertUser(args))
        case Some(e) =>
          if Is(e, DuplicateEmail) then
            Run(inserted + [Respond(FailedValidation(Added(errors, "email", DUPLICATE_EMAIL_MESSAGE)))], [])
          else
            Run(inserted + [Respond(ServerError(e))], [])
        case None =>
          var created := UserView(input.name, input.email, false);
          var task := WelcomeMail(input.email, WELCOME_TEMPLATE, created);
          Run(inserted + [Schedule(task), Respond(Created(created))],
              RunTask(task, app.send))
  }

  /** The response a run ends with. */
  function ResponseOf(run: Run): Response
    requires run.steps != [] && run.steps[|run.steps| - 1].Respond?
  {
    run.steps[|run.steps| - 1].response
  }

  /** `createUserHandler`, from the decoded input on. */
  method CreateUserHandler(app: Application, input: Input) returns (steps: seq<Step>, log: seq<string>)
    ensures Run(steps, log) == Registration(app, input)
  {
    var user := new User(input.name, input.email, false);
    steps, log := [HashPassword(input.password)], [];
    var err := user.password.Set(input.password, app.bcrypt);
    if err != None {
      steps := steps + [Respond(ServerError(err.value))];
      return;
    }

    ghost var h := app.bcrypt.generate(input.password, BCRYPT_COST).hash;
    assert user.name == input.name && user.email == input.email && !user.activated;
    assert user.password.plaintext == Some(input.password) && user.password.hash == Some(h);

    var v := new Validator();
    var panic := ValidateUser(v, user, app.matchesEmail);
    // The hash was just set, so validateUser cannot panic here.
    assert panic == None;
    assert v.errors == InputErrors(app, input);
    steps := steps + [Validate];
    if !v.Valid() {
      steps := steps + [Respond(FailedValidation(v.errors))];
      return;
    }

    ghost var args := InsertArgs(input.name, input.email, Some(h), false);
    assert InsertArguments(user) == args;
    steps := steps + [InsertUser(InsertArguments(user))];
    err := app.users.Insert(user);
    assert err == InsertError(app.users.db.insertUser(args));
    if err != None {
      if Is(err.value, DuplicateEmail) {
        v.AddError("email", DUPLICATE_EMAIL_MESSAGE);
        steps := steps + [Respond(FailedValidation(v.errors))];
      } else {
        steps := steps + [Respond(ServerError(err.value))];
      }
      return;
    }

    var task := WelcomeMail(user.email, WELCOME_TEMPLATE, UserView(user.name, user.email, user.activated));
    steps := steps + [Schedule(task)];
    log := RunTask(task, app.send);
    steps := steps + [Respond(Created(UserView(user.name, user.email, user.activated)))];
  }

  // ---------------------------------------------------------------------
  // Properties of a registration

  /** Every request ends by writing exactly one response, as its last step, after hashing the password first. */
  lemma OneResponseLast(app: Application, input: Input)
    ensures var steps := Registration(app, input).steps;
      2 <= |steps| && steps[0] == HashPassword(input.password) && steps[|steps| - 1].Respond? &&
      forall i :: 0 <= i < |steps| - 1 ==> !steps[i].Respond?
  {
  }

  /** When hashing fails the response is a server error and nothing is validated, inserted or scheduled. */
  lemma HashFailureIsServerError(app: Application, input: Input)
    requires app.bcrypt.generate(input.password, BCRYPT_COST).HashFailed?
    ensures Registration(app, input).steps ==
      [HashPassword(input.password), Respond(ServerError(app.bcrypt.generate(input.password, BCRYPT_COST).err))]
    ensures Registration(app, input).log == []
  {
  }

  /** Invalid input is answered with the validator's errors and never reaches the database. */
  lemma InvalidInputNotInserted(app: Application, input: Input)
    requires app.bcrypt.generate(input.password, BCRYPT_COST).Hashed?
    requires InputErrors(app, input) != map[]
    ensures var run := Registration(app, input);
      ResponseOf(run) == FailedValidation(InputErrors(app, input)) &&
      (forall i :: 0 <= i < |run.steps| ==> !run.steps[i].InsertUser? && !run.steps[i].Schedule?)
  {
  }

  /**
   * The field errors a registration is checked for: "name", "email" and
   * "password" by their rules (the plaintext is always kept at this point),
   * and no other field.
   */
  lemma InputErrorFields(app: Application, input: Input)
    ensures InputErrors(app, input).Keys ==
      (if input.name == [] || |input.name| > MAX_NAME_BYTES then {"name"} else {})
      + (if input.email == [] || !app.matchesEmail(input.email) then {"email"} else {})
      + (if |input.password| < MIN_PASSWORD_BYTES || |input.password| > MAX_PASSWORD_BYTES then {"password"} else {})
  {
    UserRules(map[], input.name, input.email, Some(input.password), app.matchesEmail);
  }

  /** A valid registration sends the name, email and hash with activated = false, and never the plaintext. */
  lemma InsertedArguments(app: Application, input: Input)
    requires app.bcrypt.generate(input.password, BCRYPT_COST).Hashed?
    requires InputErrors(app, input) == map[]
    ensures Registration(app, input).steps[2] ==
      InsertUser(InsertArgs(input.name, input.email, Some(app.bcrypt.generate(input.password, BCRYPT_COST).hash), false))
  {
  }

  /** A duplicate email is answered with a field error on "email", and no mail is scheduled. */
  lemma DuplicateEmailIsFieldError(app: Application, input: Input)
    requires app.bcrypt.generate(input.password, BCRYPT_COST).Hashed?
    requires InputErrors(app, input) == map[]
    requires app.users.db.insertUser(InsertArgs(input.name, input.email,
      Some(app.bcrypt.generate(input.password, BCRYPT_COST).hash), false)) != None
    requires Text(app.users.db.insertUser(InsertArgs(input.name, input.email,
      Some(app.bcrypt.generate(input.password, BCRYPT_COST).hash), false)).value) == UNIQUE_EMAIL_VIOLATION
    ensures var run := Registration(app, input);
      ResponseOf(run) == FailedValidation(map["email" := DUPLICATE_EMAIL_MESSAGE]) &&
      (forall i :: 0 <= i < |run.steps| ==> !run.steps[i].Schedule?) && run.log == []
  {
  }

  /** Any other insert failure is a server error carrying that error, and no mail is scheduled. */
  lemma OtherInsertFailureIsServerError(app: Application, input: Input, e: Error)
    requires app.bcrypt.generate(input.password, BCRYPT_COST).Hashed?
    requires InputErrors(app, input) == map[]
    requires InsertError(app.users.db.insertUser(InsertArgs(input.name, input.email,
      Some(app.bcrypt.generate(input.password, BCRYPT_COST).hash), false))) == Some(e)
    requires !Is(e, DuplicateEmail)
    ensures var run := Registration(app, input);
      ResponseOf(run) == ServerError(e) &&
      (forall i :: 0 <= i < |run.steps| ==> !run.steps[i].Schedule?) && run.log == []
  {
  }

  /**
   * The welcome mail is scheduled iff the response is Created; then it is
   * scheduled exactly once, after the insert and just before the response,
   * and the created user is not activated.
   */
  lemma WelcomeMailOnlyOnSuccess(app: Application, input: Input)
    ensures var run := Registration(app, input);
      var n := |run.steps|;
      (exists i :: 0 <= i < n && run.steps[i].Schedule?) <==> ResponseOf(run).Created?
    ensures var run := Registration(app, input);
      var n := |run.steps|;
      ResponseOf(run).Created? ==>
        n == 5 && run.steps[2].InsertUser? && run.steps[n - 2] == Schedule(WelcomeMail(input.email, WELCOME_TEMPLATE, ResponseOf(run).user)) &&
        (forall i :: 0 <= i < n && i != n - 2 ==> !run.steps[i].Schedule?) &&
        !ResponseOf(run).user.activated
  {
    var run := Registration(app, input);
    if ResponseOf(run).Created? {
      assert run.steps[3].Schedule?;
    }
  }

  /** What the mailer does never changes the steps or the response; a mail failure only shows in the log. */
  lemma MailerDoesNotAffectResponse(app: Application, input: Input, send: (Bytes, string, UserView) -> Option<Error>)
    ensures Registration(app.(send := send), input).steps == Registration(app, input).steps
  {
  }
}
