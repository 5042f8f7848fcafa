/**
 * The sign-up page (src/app/register/register.component.ts): three required fields,
 * a loading state that disables them, and a step counter that advances when the
 * server accepts the new account.
 */
module Register {
  import opened Wrappers
  import opened Dtos
  import opened Http
  import opened Utils
  import opened Content
  import Account

  const PasswordsDiffer := "Passwords do not match!"
  const ConnectionError := "An error occured while connecting to the server, please try again later!"
  const UsernameTakenSummary := "Username already in use."
  const UsernameTakenDetail := "Please choose another username!"
  const UnknownError := "An unknown error occured, please try again later!"

  /**
   * `control.valid` for a control with the `required` validator: an enabled control
   * holding a non-empty value (a disabled control is never valid).
   */
  predicate RequiredValid(value: Option<string>, enabled: bool) {
    enabled && value.Some? && value.value != ""
  }

  /** The toast for a refused registration: a warning for a taken name, an error for anything else. */
  function RefusalMessage(error: Option<ErrorCode>): (m: Message)
    ensures m.severity == Warn <==> error == Some(UsernameAlreadyInUse)
    ensures m.severity == Error <==> error != Some(UsernameAlreadyInUse)
    ensures m.summary.Some? <==> error == Some(UsernameAlreadyInUse)
  {
    if error == Some(UsernameAlreadyInUse) then Message(Warn, Some(UsernameTakenSummary), UsernameTakenDetail)
    else Message(Error, None, UnknownError)
  }

  class RegisterComponent {
    var username: Option<string>
    var password: Option<string>
    var passwordRepeat: Option<string>
    /** The enabled state of the three controls, which are switched together. */
    var controlsEnabled: bool
    var loading: bool
    var step: nat
    const messageService: MessageService
    ghost var requests: seq<Call>

    /** The controls are disabled exactly while loading. */
    ghost predicate Valid()
      reads this
    {
      controlsEnabled == !loading
    }

    constructor (messageService: MessageService)
      ensures Valid() && this.messageService == messageService
      ensures username == Some("") && password == Some("") && passwordRepeat == Some("")
      ensures !loading && step == 0 && requests == []
    {
      this.messageService := messageService;
      username := Some("");
      password := Some("");
      passwordRepeat := Some("");
      controlsEnabled := true;
      loading := false;
      step := 0;
      requests := [];
    }

    /** All three fields pass their validator. */
    predicate FieldsValid()
      reads this
    {
      RequiredValid(username, controlsEnabled) && RequiredValid(password, controlsEnabled)
      && RequiredValid(passwordRepeat, controlsEnabled)
    }

    /** setLoading: sets the flag, and disables the controls when set and enables them when cleared. */
    method SetLoading(isLoading: bool)
      modifies this
      ensures Valid() && loading == isLoading && controlsEnabled == !isLoading
      ensures username == old(username) && password == old(password) && passwordRepeat == old(passwordRepeat)
      ensures step == old(step) && requests == old(requests)
    {
      loading := isLoading;
      if isLoading {
        controlsEnabled := false;
      } else {
        controlsEnabled := true;
      }
    }

    /**
     * register: nothing while loading or with an invalid field (a null field is
     * invalid too); differing passwords give one warning and no request; otherwise
     * loading is set and the registration goes out.
     */
    method Register()
      requires Valid()
      modifies this, messageService
      ensures Valid()
      ensures old(loading) || !old(FieldsValid()) ==>
                loading == old(loading) && requests == old(requests)
                && messageService.messages == old(messageService.messages)
      ensures !old(loading) && old(FieldsValid()) && password != passwordRepeat ==>
                loading == old(loading) && requests == old(requests)
                && messageService.messages == old(messageService.messages) + [Message(Warn, None, PasswordsDiffer)]
      ensures !old(loading) && old(FieldsValid()) && password == passwordRepeat ==>
                loading && messageService.messages == old(messageService.messages)
                && requests == old(requests) + [Account(Account.RegisterRequest(old(username).value, old(password).value))]
      ensures username == old(username) && password == old(password) && passwordRepeat == old(passwordRepeat)
      ensures step == old(step)
    {
      if loading {
        return;
      }
      if !FieldsValid() {
        return;
      }
      var usernameVal, passwordVal := username.value, password.value;
      if password != passwordRepeat {
        messageService.Add(Message(Warn, None, PasswordsDiffer));
        return;
      }
      SetLoading(true);
      requests := requests + [Account(Account.RegisterRequest(usernameVal, passwordVal))];
    }

    /** The request failed in transport: one error message and loading cleared. */
    method OnRegisterError(err: HttpError)
      modifies this, messageService
      ensures Valid() && !loading && controlsEnabled
      ensures messageService.messages == old(messageService.messages) + [Message(Error, Some("Error"), ConnectionError)]
      ensures step == old(step) && requests == old(requests)
      ensures username == old(username) && password == old(password) && passwordRepeat == old(passwordRepeat)
    {
      messageService.Add(Message(Error, Some("Error"), ConnectionError));
      SetLoading(false);
    }

    /**
     * The server answered: on success the step advances by one; otherwise one toast
     * chosen by the error code. Loading is left as it is in both cases.
     */
    method OnRegisterResult(res: SuccessResult<(), ErrorCode>)
      modifies this, messageService
      ensures res.success ==> step == old(step) + 1 && messageService.messages == old(messageService.messages)
      ensures !res.success ==>
                step == old(step) && messageService.messages == old(messageService.messages) + [RefusalMessage(res.error)]
      ensures loading == old(loading) && controlsEnabled == old(controlsEnabled) && requests == old(requests)
      ensures username == old(username) && password == old(password) && passwordRepeat == old(passwordRepeat)
    {
      if res.success {
        step := step + 1;
      } else {
        messageService.Add(RefusalMessage(res.error));
      }
    }
  }

  /** A taken username leaves the page loading with its controls disabled: nothing resets it. */
  method TakenNameScenario(ms: MessageService)
    modifies ms
  {
    var page := new RegisterComponent(ms);
    page.username, page.password, page.passwordRepeat := Some("bob"), Some("pw"), Some("pw");
    page.Register();
    assert page.loading && page.requests == [Account(Account.RegisterRequest("bob", "pw"))];
    page.OnRegisterResult(SuccessResult(false, None, Some(UsernameAlreadyInUse)));
    assert page.loading && !page.controlsEnabled;
    page.Register();
    assert |page.requests| == 1;
  }
}
